/** One order's share of each database, and how each transaction changes it. */
module SagaViews {
  import opened Prelude
  import opened Events
  import opened OrderStatuses
  import opened SagaAutomaton
  import opened SagaSystem
  import Inventory
  import InventoryLedger
  import InventoryInvariants
  import Orders
  import OrderInvariants
  import Payments

  // ------------------------------------------------------------ outbox tails

  /** `after` is `before` with more events of service `s` behind it. */
  ghost predicate Adds(before: seq<Event>, after: seq<Event>, s: Service) {
    && before <= after
    && forall i :: |before| <= i < |after| ==> ProducerOf(KindOf(after[i])) == s
  }

  /** `after` is `before` with more stock events behind it. */
  ghost predicate AddsStock(before: seq<Event>, after: seq<Event>) {
    && before <= after
    && forall i :: |before| <= i < |after| ==> KindOf(after[i]) == Stock
  }

  lemma AddsStockCounts(before: seq<Event>, after: seq<Event>, k: Kind, o: OrderId)
    requires AddsStock(before, after)
    ensures Count(after, k, o) == Count(before, k, o)
  {
    var tail := after[|before|..];
    assert after == before + tail;
    CountZero(tail, k, o);
    CountAppend(before, tail, k, o);
  }

  // ------------------------------------------------------------ the order service's share

  datatype OrderPart = OrderPart(known: bool, status: OrderStatus, created: nat, cancelled: nat, cancelledPaid: bool)

  /** Was a cancellation of a paid order published? */
  function PaidCancel(outbox: seq<Event>, o: OrderId): bool {
    if |outbox| == 0 then false
    else
      var last := outbox[|outbox| - 1];
      PaidCancel(outbox[..|outbox| - 1], o) || (last.OrderCancelled? && last.order == o && last.wasPaid)
  }

  function OrderPartOf(db: Orders.Db, o: OrderId): OrderPart {
    OrderPart(o < |db.orders|, if o < |db.orders| then db.orders[o].status else PENDING,
              Count(db.outbox, Kind.Created, o), Count(db.outbox, Cancelled, o), PaidCancel(db.outbox, o))
  }

  /** A part after publishing `e`. */
  function Published(p: OrderPart, e: Event, o: OrderId): OrderPart {
    p.(created := p.created + (if Is(e, Kind.Created, o) then 1 else 0),
       cancelled := p.cancelled + (if Is(e, Cancelled, o) then 1 else 0),
       cancelledPaid := p.cancelledPaid || (Is(e, Cancelled, o) && e.wasPaid))
  }

  lemma OrderPartPublish(db: Orders.Db, e: Event, o: OrderId)
    ensures OrderPartOf(db.(outbox := db.outbox + [e]), o) == Published(OrderPartOf(db, o), e, o)
  {
    CountSnoc(db.outbox, e, Kind.Created, o);
    CountSnoc(db.outbox, e, Cancelled, o);
    assert (db.outbox + [e])[..|db.outbox|] == db.outbox;
  }

  lemma OnInventoryReservedPart(db: Orders.Db, o: OrderId, now: int, x: OrderId)
    ensures var p := OrderPartOf(db, x);
      OrderPartOf(Orders.OnInventoryReserved(db, o, now), x) ==
        if x == o && p.known && p.status == PENDING then p.(status := INVENTORY_RESERVED) else p
  {
  }

  lemma OnReservationFailedPart(db: Orders.Db, o: OrderId, reason: string, now: int, x: OrderId)
    ensures var p := OrderPartOf(db, x);
      OrderPartOf(Orders.OnReservationFailed(db, o, reason, now), x) ==
        if x == o && p.known && (p.status == PENDING || p.status == INVENTORY_RESERVED) then p.(status := FAILED) else p
  {
  }

  lemma OnPaymentSucceededPart(db: Orders.Db, o: OrderId, now: int, x: OrderId)
    ensures var p := OrderPartOf(db, x);
      OrderPartOf(Orders.OnPaymentSucceeded(db, o, now), x) ==
        if x == o && p.known && p.status == INVENTORY_RESERVED then p.(status := CONFIRMED) else p
  {
    if o < |db.orders| && db.orders[o].status == INVENTORY_RESERVED {
      var moved := db.(orders := db.orders[o := Orders.Confirm(db.orders[o], now)]);
      OrderPartPublish(moved, Orders.ConfirmedEvent(o, db.orders[o]), x);
    }
  }

  lemma OnPaymentFailedPart(db: Orders.Db, o: OrderId, code: string, message: string, now: int, x: OrderId)
    ensures var p := OrderPartOf(db, x);
      OrderPartOf(Orders.OnPaymentFailed(db, o, code, message, now), x) ==
        if x == o && p.known && (p.status == PENDING || p.status == INVENTORY_RESERVED)
        then p.(status := FAILED, cancelled := p.cancelled + 1) else p
  {
    if o < |db.orders| && Orders.Moves(db.orders[o], FAILED) {
      var moved := db.(orders := db.orders[o := Orders.Moved(db.orders[o], FAILED, Orders.PaymentFailure(code, message), now)]);
      OrderPartPublish(moved, Orders.CancelledEvent(o, db.orders[o], "payment failed: " + code, false), x);
    }
  }

  lemma CancelPart(db: Orders.Db, o: OrderId, reason: string, actor: string, now: int, x: OrderId)
    requires o < |db.orders|
    ensures var p := OrderPartOf(db, x);
      OrderPartOf(Orders.Cancel(db, o, reason, actor, now), x) ==
        if x == o && p.status in CUSTOMER_CANCELLABLE
        then p.(status := CANCELLED, cancelled := p.cancelled + 1,
                cancelledPaid := p.cancelledPaid || p.status in PAID_STATUSES)
        else p
  {
    var row := db.orders[o];
    if Orders.Moves(row, CANCELLED) {
      var moved := db.(orders := db.orders[o := Orders.Moved(row, CANCELLED, Orders.CancelReason(actor, reason), now)]);
      OrderPartPublish(moved, Orders.CancelledEvent(o, row, reason, row.status in PAID_STATUSES), x);
    }
  }

  lemma AdvancePart(db: Orders.Db, o: OrderId, target: OrderStatus, reason: string, now: int, x: OrderId)
    requires target == SHIPPED || target == DELIVERED
    ensures var p := OrderPartOf(db, x); var r := Orders.Advance(db, o, target, reason, now);
      r.Done? ==> (OrderPartOf(r.value, x) ==
        if x == o && p.known && CanTransition(p.status, target) then p.(status := target) else p)
  {
  }

  lemma CreatePart(db: Orders.Db, user: UserId, body: Orders.CreateRequest, key: string, seen: nat, contended: bool,
                   x: OrderId)
    requires seen <= |db.orders|
    ensures var p := OrderPartOf(db, x); var r := Orders.CreateOrder(db, user, body, key, seen, contended);
      r.Done? ==> (OrderPartOf(r.value.db, x) ==
        if r.value.wasCreated && x == |db.orders| then p.(known := true, status := PENDING, created := p.created + 1)
        else p)
  {
    var r := Orders.CreateOrder(db, user, body, key, seen, contended);
    if r.Done? && r.value.wasCreated {
      var row := r.value.db.orders[|db.orders|];
      var placed := db.(orders := db.orders + [row]);
      OrderPartPublish(placed, Orders.CreatedEvent(|db.orders|, row), x);
    }
  }

  // ------------------------------------------------------------ the inventory service's share

  datatype InventoryPart = InventoryPart(reservation: Option<Inventory.ReservationStatus>, reserved: nat, refused: nat)

  function ReservationStatusOf(db: Inventory.Db, o: OrderId): Option<Inventory.ReservationStatus> {
    if Inventory.HasReservation(db, o) then Some(Inventory.ReservationOf(db, o).status) else None
  }

  function InventoryPartOf(db: Inventory.Db, o: OrderId): InventoryPart {
    InventoryPart(ReservationStatusOf(db, o), Count(db.outbox, Reserved, o), Count(db.outbox, Refused, o))
  }

  lemma {:induction false} MoveLinesAddsStock(db: Inventory.Db, lines: seq<Line>, reason: LedgerReason, order: OrderId)
    ensures AddsStock(db.outbox, Inventory.MoveLines(db, lines, reason, order).outbox)
    ensures Inventory.MoveLines(db, lines, reason, order).reservations == db.reservations
  {
    if |lines| > 0 {
      MoveLinesAddsStock(db, lines[..|lines| - 1], reason, order);
    }
  }

  lemma SettlePart(db: Inventory.Db, i: nat, reason: LedgerReason, status: Inventory.ReservationStatus, x: OrderId)
    requires i < |db.reservations| && i == Inventory.Find(db.reservations, db.reservations[i].order)
    ensures AddsStock(db.outbox, Inventory.Settle(db, i, reason, status).outbox)
    ensures InventoryPartOf(Inventory.Settle(db, i, reason, status), x) ==
      if x == db.reservations[i].order then InventoryPartOf(db, x).(reservation := Some(status))
      else InventoryPartOf(db, x)
  {
    var r := db.reservations[i];
    var next := Inventory.Settle(db, i, reason, status);
    MoveLinesAddsStock(db, r.items, reason, r.order);
    AddsStockCounts(db.outbox, next.outbox, Reserved, x);
    AddsStockCounts(db.outbox, next.outbox, Refused, x);
    InventoryInvariants.FindSame(db.reservations, next.reservations, x);
  }

  lemma CommitPart(db: Inventory.Db, o: OrderId, x: OrderId)
    ensures AddsStock(db.outbox, Inventory.Commit(db, o).outbox)
    ensures var p := InventoryPartOf(db, x);
      InventoryPartOf(Inventory.Commit(db, o), x) ==
        if x == o && p.reservation == Some(Inventory.HELD) then p.(reservation := Some(Inventory.COMMITTED)) else p
  {
    if Inventory.HasReservation(db, o) {
      SettlePart(db, Inventory.Find(db.reservations, o), COMMIT, Inventory.COMMITTED, x);
    }
  }

  lemma ReleasePart(db: Inventory.Db, o: OrderId, x: OrderId)
    ensures AddsStock(db.outbox, Inventory.Release(db, o).outbox)
    ensures var p := InventoryPartOf(db, x);
      InventoryPartOf(Inventory.Release(db, o), x) ==
        if x == o && (p.reservation == Some(Inventory.HELD) || p.reservation == Some(Inventory.COMMITTED))
        then p.(reservation := Some(Inventory.RELEASED)) else p
  {
    if Inventory.HasReservation(db, o) {
      var i := Inventory.Find(db.reservations, o);
      match db.reservations[i].status {
        case HELD => SettlePart(db, i, RELEASE, Inventory.RELEASED, x);
        case COMMITTED => SettlePart(db, i, RESTOCK, Inventory.RELEASED, x);
        case RELEASED =>
        case EXPIRED =>
      }
    }
  }

  lemma InventoryPublish(db: Inventory.Db, e: Event, x: OrderId)
    ensures var p := InventoryPartOf(db, x);
      InventoryPartOf(db.(outbox := db.outbox + [e]), x) ==
        p.(reserved := p.reserved + (if Is(e, Reserved, x) then 1 else 0),
           refused := p.refused + (if Is(e, Refused, x) then 1 else 0))
  {
    CountSnoc(db.outbox, e, Reserved, x);
    CountSnoc(db.outbox, e, Refused, x);
  }

  lemma HoldPart(db: Inventory.Db, q: Inventory.ReserveRequest, expiresAt: int, x: OrderId)
    requires !Inventory.HasReservation(db, q.order)
    ensures AddsStock(db.outbox, Inventory.Hold(db, q, expiresAt).outbox)
    ensures InventoryPartOf(Inventory.Hold(db, q, expiresAt), x) ==
      if x == q.order then InventoryPartOf(db, x).(reservation := Some(Inventory.HELD)) else InventoryPartOf(db, x)
  {
    var r := InventoryInvariants.HeldRow(q, expiresAt);
    var start := db.(reservations := db.reservations + [r]);
    var next := Inventory.Hold(db, q, expiresAt);
    MoveLinesAddsStock(start, r.items, RESERVE, q.order);
    AddsStockCounts(db.outbox, next.outbox, Reserved, x);
    AddsStockCounts(db.outbox, next.outbox, Refused, x);
    InventoryInvariants.FindAppend(db.reservations, r, x);
  }

  /** The share after answering a request, as its verdict says. */
  function Answered(p: InventoryPart, verdict: Inventory.ReserveOutcome): InventoryPart {
    match verdict
    case Granted => p.(reservation := Some(Inventory.HELD), reserved := p.reserved + 1)
    case Insufficient => p.(refused := p.refused + 1)
    case _ => p
  }

  lemma GrantIs(db: Inventory.Db, q: Inventory.ReserveRequest, expiresAt: int)
    requires Inventory.Decide(db, q) == Inventory.Granted
    ensures var held := Inventory.Hold(db, q, expiresAt);
      Inventory.Reserve(db, q, expiresAt) == held.(outbox := held.outbox + [Inventory.ReservedEvent(q, expiresAt)])
    ensures !Inventory.HasReservation(db, q.order)
  {
  }

  lemma GrantPart(db: Inventory.Db, q: Inventory.ReserveRequest, expiresAt: int, x: OrderId)
    requires Inventory.Decide(db, q) == Inventory.Granted
    ensures Adds(db.outbox, Inventory.Reserve(db, q, expiresAt).outbox, InventorySide)
    ensures InventoryPartOf(Inventory.Reserve(db, q, expiresAt), x) ==
      if x == q.order then Answered(InventoryPartOf(db, x), Inventory.Granted) else InventoryPartOf(db, x)
  {
    GrantIs(db, q, expiresAt);
    HoldPart(db, q, expiresAt, x);
    InventoryPublish(Inventory.Hold(db, q, expiresAt), Inventory.ReservedEvent(q, expiresAt), x);
    StockThenOne(db.outbox, Inventory.Hold(db, q, expiresAt).outbox, Inventory.ReservedEvent(q, expiresAt));
  }

  lemma StockThenOne(before: seq<Event>, held: seq<Event>, e: Event)
    requires AddsStock(before, held) && ProducerOf(KindOf(e)) == InventorySide
    ensures Adds(before, held + [e], InventorySide)
  {
  }

  lemma ReservePart(db: Inventory.Db, q: Inventory.ReserveRequest, expiresAt: int, x: OrderId)
    ensures Adds(db.outbox, Inventory.Reserve(db, q, expiresAt).outbox, InventorySide)
    ensures InventoryPartOf(Inventory.Reserve(db, q, expiresAt), x) ==
      if x == q.order then Answered(InventoryPartOf(db, x), Inventory.Decide(db, q)) else InventoryPartOf(db, x)
  {
    match Inventory.Decide(db, q)
    case Granted => GrantPart(db, q, expiresAt, x);
    case Insufficient => InventoryPublish(db, Inventory.RefusedEvent(db, q), x);
    case _ =>
  }

  /** Stock that moves without an order leaves every order's share alone. */
  lemma SupplyPart(db: Inventory.Db, next: Inventory.Db, x: OrderId)
    requires AddsStock(db.outbox, next.outbox) && next.reservations == db.reservations
    ensures InventoryPartOf(next, x) == InventoryPartOf(db, x)
  {
    AddsStockCounts(db.outbox, next.outbox, Reserved, x);
    AddsStockCounts(db.outbox, next.outbox, Refused, x);
  }

  lemma {:induction false} ExpireRowsAddsStock(db: Inventory.Db, rows: seq<Inventory.Stale>)
    requires forall k :: 0 <= k < |rows| ==> rows[k].index < |db.reservations|
    ensures AddsStock(db.outbox, Inventory.ExpireRows(db, rows).outbox)
  {
    if |rows| > 0 {
      ExpireRowsAddsStock(db, rows[..|rows| - 1]);
      var before := Inventory.ExpireRows(db, rows[..|rows| - 1]);
      var r := before.reservations[rows[|rows| - 1].index];
      MoveLinesAddsStock(before, r.items, EXPIRE, r.order);
    }
  }

  /** A sweep expires an order's HELD reservation or leaves its share alone. */
  lemma SweepPart(db: Inventory.Db, now: int, limit: nat, x: OrderId)
    ensures AddsStock(db.outbox, Inventory.ExpireStale(db, now, limit).outbox)
    ensures var p := InventoryPartOf(db, x); var q := InventoryPartOf(Inventory.ExpireStale(db, now, limit), x);
      q == p || (p.reservation == Some(Inventory.HELD) && q == p.(reservation := Some(Inventory.EXPIRED)))
  {
    var rows := Inventory.Batch(db.reservations, now, limit);
    var next := Inventory.ExpireStale(db, now, limit);
    Inventory.BatchInRange(db.reservations, now, limit);
    InventoryInvariants.BatchPicked(db.reservations, now, limit);
    ExpireRowsAddsStock(db, rows);
    InventoryInvariants.ExpireRowsTouch(db, rows);
    AddsStockCounts(db.outbox, next.outbox, Reserved, x);
    AddsStockCounts(db.outbox, next.outbox, Refused, x);
    InventoryInvariants.FindSame(db.reservations, next.reservations, x);
  }

  // ------------------------------------------------------------ the payment service's share

  datatype PaymentPart = PaymentPart(payment: Option<PaymentStatus>, attempts: nat, succeeded: nat, declined: nat)

  function PaymentPartOf(db: Payments.Db, o: OrderId): PaymentPart {
    PaymentPart(if o in db.payments then Some(db.payments[o].status) else None,
                if o in db.payments then db.payments[o].attempts else 0,
                Count(db.outbox, Succeeded, o), Count(db.outbox, Declined, o))
  }

  /** The share after an attempt numbered `attempts`. */
  function Attempted(p: PaymentPart, captured: bool, attempts: nat): PaymentPart {
    PaymentPart(Some(if captured then Payments.SUCCEEDED else Payments.FAILED), attempts,
                if captured then p.succeeded + 1 else p.succeeded,
                if captured then p.declined else p.declined + 1)
  }

  lemma ResultCounts(outbox: seq<Event>, o: OrderId, p: Payments.Payment, verdict: Payments.Verdict, x: OrderId)
    ensures var next := outbox + [Payments.ResultEvent(o, p, verdict)];
      && Adds(outbox, next, PaymentSide)
      && Count(next, Succeeded, x) == Count(outbox, Succeeded, x) + (if x == o && verdict.Captured? then 1 else 0)
      && Count(next, Declined, x) == Count(outbox, Declined, x) + (if x == o && verdict.Rejected? then 1 else 0)
  {
    var e := Payments.ResultEvent(o, p, verdict);
    CountSnoc(outbox, e, Succeeded, x);
    CountSnoc(outbox, e, Declined, x);
  }

  lemma AttemptPart(db: Payments.Db, o: OrderId, p: Payments.Payment, token: string, provider: Payments.Provider, x: OrderId)
    ensures Adds(db.outbox, Payments.AttemptCharge(db, o, p, token, provider).outbox, PaymentSide)
    ensures PaymentPartOf(Payments.AttemptCharge(db, o, p, token, provider), x) ==
      if x == o then Attempted(PaymentPartOf(db, x), Payments.Charge(p.amount, token, provider).Captured?, p.attempts)
      else PaymentPartOf(db, x)
  {
    ResultCounts(db.outbox, o, p, Payments.Charge(p.amount, token, provider), x);
  }

  lemma RefundRowPart(db: Payments.Db, next: Payments.Db, o: OrderId, e: Event, x: OrderId)
    requires o in db.payments && o in next.payments && next.payments[o].status == Payments.REFUNDED
    requires next.payments[o].attempts == db.payments[o].attempts && next.payments == db.payments[o := next.payments[o]]
    requires KindOf(e) == Refunded && next.outbox == db.outbox + [e]
    ensures Adds(db.outbox, next.outbox, PaymentSide)
    ensures var p := PaymentPartOf(db, x);
      PaymentPartOf(next, x) == if x == o then p.(payment := Some(Payments.REFUNDED)) else p
  {
    CountSnoc(db.outbox, e, Succeeded, x);
    CountSnoc(db.outbox, e, Declined, x);
  }

  lemma RefundPart(db: Payments.Db, o: OrderId, reason: string, amount: Option<Money>, x: OrderId)
    requires Payments.Inv(db)
    ensures var p := PaymentPartOf(db, x); var r := Payments.RefundForOrder(db, o, reason, amount);
      r.Done? && r.value.Some? ==>
        && Adds(db.outbox, r.value.value.outbox, PaymentSide)
        && (if x == o then p.payment == Some(Payments.SUCCEEDED)
                           && PaymentPartOf(r.value.value, x) == p.(payment := Some(Payments.REFUNDED))
            else PaymentPartOf(r.value.value, x) == p)
  {
    var done := Payments.RefundForOrder(db, o, reason, amount);
    if o in db.payments && db.payments[o].status == Payments.SUCCEEDED {
      Payments.RefundIsRepaid(db, o, reason, amount);
      var r := Payments.RefundFor(db.payments[o], reason, amount);
      var e := Events.PaymentRefunded(o, db.payments[o].user, r.amount, db.payments[o].currency, r.reason);
      if done.Done? && done.value.Some? {
        RefundRowPart(db, done.value.value, o, e, x);
      }
    }
  }
}
