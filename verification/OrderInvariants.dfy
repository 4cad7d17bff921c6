/** What every order transaction keeps: history, totals, events and keys. */
module OrderInvariants {
  import opened Prelude
  import opened Events
  import opened OrderStatuses
  import opened Orders

  // ------------------------------------------------------------ the invariant

  /** The statuses an order has been through. */
  function Path(history: seq<HistoryRow>): seq<OrderStatus> {
    if |history| == 0 then [] else Path(history[..|history| - 1]) + [history[|history| - 1].to]
  }

  /** Each history row leaves where the one before it arrived. */
  ghost predicate Contiguous(history: seq<HistoryRow>) {
    && |history| > 0
    && history[0].from == None && history[0].to == PENDING
    && forall i :: 0 < i < |history| ==>
      history[i].from == Some(history[i - 1].to) && CanTransition(history[i - 1].to, history[i].to)
  }

  ghost predicate HistoryOk(row: OrderRow) {
    && Contiguous(row.history)
    && row.history[|row.history| - 1].to == row.status
  }

  ghost predicate RowOk(row: OrderRow) {
    && HistoryOk(row)
    && row.status != PAID
    && (row.completedAt.Some? <==> IsTerminal(row.status))
    && (row.failureReason.Some? <==> row.status == FAILED)
    && row.total == Total(row.items)
    && |row.items| > 0
    && (forall i :: 0 <= i < |row.items| ==> row.items[i].quantity > 0)
  }

  ghost predicate WasConfirmed(row: OrderRow) {
    exists i :: 0 <= i < |row.history| && row.history[i].to == CONFIRMED
  }

  ghost predicate UniqueKeys(db: Db) {
    forall i, j :: 0 <= i < j < |db.orders| ==> db.orders[i].key != db.orders[j].key
  }

  /** One order.created per order, at most one order.confirmed and one order.cancelled. */
  ghost predicate CountsOk(db: Db, o: OrderId) {
    var created := Count(db.outbox, Kind.Created, o);
    var confirmed := Count(db.outbox, Confirmed, o);
    var cancelled := Count(db.outbox, Cancelled, o);
    if o >= |db.orders| then created == 0 && confirmed == 0 && cancelled == 0
    else
      && created == 1
      && confirmed == (if WasConfirmed(db.orders[o]) then 1 else 0)
      && cancelled <= 1
      && (db.orders[o].status == CANCELLED ==> cancelled == 1)
      && (cancelled == 1 ==> db.orders[o].status == CANCELLED || db.orders[o].status == FAILED)
  }

  /** Every event carries its order's own lines and total. */
  ghost predicate EventOk(db: Db, e: Event) {
    match e
    case OrderCreated(o, user, total, currency, items, payment) =>
      o < |db.orders| && e == CreatedEvent(o, db.orders[o])
    case OrderConfirmed(o, user, total, currency, items) =>
      o < |db.orders| && e == ConfirmedEvent(o, db.orders[o])
    case OrderCancelled(o, user, reason, wasPaid, items) =>
      o < |db.orders| && e == CancelledEvent(o, db.orders[o], reason, wasPaid)
      && (wasPaid ==> db.orders[o].status == CANCELLED)
    case _ => false
  }

  ghost predicate Inv(db: Db) {
    && (forall o :: 0 <= o < |db.orders| ==> RowOk(db.orders[o]))
    && UniqueKeys(db)
    && (forall o: OrderId :: CountsOk(db, o))
    && (forall i :: 0 <= i < |db.outbox| ==> EventOk(db, db.outbox[i]))
  }

  lemma EmptyInv()
    ensures Inv(EMPTY)
  {
  }

  // ------------------------------------------------------------ one transition

  lemma MovedHistory(row: OrderRow, target: OrderStatus, reason: string, now: int)
    requires HistoryOk(row) && Moves(row, target)
    ensures HistoryOk(Moved(row, target, reason, now))
    ensures WasConfirmed(Moved(row, target, reason, now)) <==> WasConfirmed(row) || target == CONFIRMED
  {
    var next := Moved(row, target, reason, now);
    assert next.history[|row.history|].to == target;
    if WasConfirmed(row) {
      var i :| 0 <= i < |row.history| && row.history[i].to == CONFIRMED;
      assert next.history[i].to == CONFIRMED;
    }
  }

  /** What a transition may not touch. */
  predicate SameOrder(a: OrderRow, b: OrderRow) {
    a.user == b.user && a.items == b.items && a.total == b.total && a.currency == b.currency
    && a.payment == b.payment && a.key == b.key
  }

  /** A legal transition of a good row gives a good row, except for passing through PAID. */
  lemma MovedRow(row: OrderRow, target: OrderStatus, reason: string, now: int)
    requires RowOk(row) && Moves(row, target) && target != PAID && (target == FAILED ==> reason != "")
    ensures RowOk(Moved(row, target, reason, now)) && SameOrder(row, Moved(row, target, reason, now))
  {
    MovedHistory(row, target, reason, now);
  }

  lemma ConfirmRow(row: OrderRow, now: int)
    requires RowOk(row) && Moves(row, PAID)
    ensures RowOk(Confirm(row, now)) && SameOrder(row, Confirm(row, now))
    ensures WasConfirmed(Confirm(row, now)) && Confirm(row, now).status == CONFIRMED
    ensures !WasConfirmed(row)
  {
    var paid := Moved(row, PAID, "payment captured", now);
    MovedHistory(row, PAID, "payment captured", now);
    MovedHistory(paid, CONFIRMED, "order confirmed", now);
    NotYetConfirmed(row.history, row.status);
  }

  /** Before PAID an order cannot have been confirmed: ranks only rise along the history. */
  lemma {:induction false} NotYetConfirmed(history: seq<HistoryRow>, status: OrderStatus)
    requires Contiguous(history) && history[|history| - 1].to == status && Rank(status) < Rank(CONFIRMED)
    ensures forall i :: 0 <= i < |history| ==> history[i].to != CONFIRMED
  {
    if |history| > 1 {
      var init := history[..|history| - 1];
      assert CanTransition(history[|history| - 2].to, history[|history| - 1].to);
      NotYetConfirmed(init, history[|history| - 2].to);
      assert forall i :: 0 <= i < |init| ==> init[i] == history[i];
    }
  }

  // ------------------------------------------------------------ one transaction on one order

  /** Replace order `o`'s row and append `more` to the outbox. */
  function Write(db: Db, o: OrderId, row: OrderRow, more: seq<Event>): Db
    requires o < |db.orders|
  {
    db.(orders := db.orders[o := row], outbox := db.outbox + more)
  }

  lemma EventsStay(db: Db, o: OrderId, row: OrderRow, more: seq<Event>, i: nat)
    requires o < |db.orders| && SameOrder(db.orders[o], row) && i < |db.outbox| && EventOk(db, db.outbox[i])
    requires db.orders[o].status == CANCELLED ==> row.status == CANCELLED
    ensures EventOk(Write(db, o, row, more), db.outbox[i])
  {
  }

  /** A row change without an event. */
  lemma WriteKeepsInv(db: Db, o: OrderId, row: OrderRow)
    requires Inv(db) && o < |db.orders|
    requires RowOk(row) && SameOrder(db.orders[o], row)
    requires WasConfirmed(row) <==> WasConfirmed(db.orders[o])
    requires !IsTerminal(db.orders[o].status) && row.status != CANCELLED
    ensures Inv(Write(db, o, row, []))
  {
    var next := Write(db, o, row, []);
    assert db.outbox + [] == db.outbox;
    forall other: OrderId
      ensures CountsOk(next, other)
    {
      assert CountsOk(db, other);
    }
    forall i | 0 <= i < |next.outbox|
      ensures EventOk(next, next.outbox[i])
    {
      EventsStay(db, o, row, [], i);
    }
  }

  /** `e` is the event that goes with moving `before` to `row`. */
  ghost predicate Announces(e: Event, o: OrderId, before: OrderRow, row: OrderRow) {
    || (&& e == ConfirmedEvent(o, row)
        && !WasConfirmed(before) && WasConfirmed(row) && row.status == CONFIRMED)
    || (&& e.OrderCancelled? && e == CancelledEvent(o, row, e.reason, e.wasPaid)
        && (WasConfirmed(row) <==> WasConfirmed(before))
        && (row.status == CANCELLED || row.status == FAILED)
        && (e.wasPaid ==> row.status == CANCELLED))
  }

  lemma WriteCounts(db: Db, o: OrderId, row: OrderRow, e: Event, other: OrderId)
    requires o < |db.orders| && CountsOk(db, other) && !IsTerminal(db.orders[o].status)
    requires Announces(e, o, db.orders[o], row)
    ensures CountsOk(Write(db, o, row, [e]), other)
  {
    CountSnoc(db.outbox, e, Kind.Created, other);
    CountSnoc(db.outbox, e, Confirmed, other);
    CountSnoc(db.outbox, e, Cancelled, other);
  }

  /** A row change with the event that announces it. */
  lemma WriteEventKeepsInv(db: Db, o: OrderId, row: OrderRow, e: Event)
    requires Inv(db) && o < |db.orders| && !IsTerminal(db.orders[o].status)
    requires RowOk(row) && SameOrder(db.orders[o], row)
    requires Announces(e, o, db.orders[o], row)
    ensures Inv(Write(db, o, row, [e]))
  {
    var next := Write(db, o, row, [e]);
    forall other: OrderId
      ensures CountsOk(next, other)
    {
      assert CountsOk(db, other);
      WriteCounts(db, o, row, e, other);
    }
    forall i | 0 <= i < |next.outbox|
      ensures EventOk(next, next.outbox[i])
    {
      if i < |db.outbox| {
        EventsStay(db, o, row, [e], i);
      }
    }
  }

  // ------------------------------------------------------------ the saga's steps

  lemma OnInventoryReservedKeepsInv(db: Db, o: OrderId, now: int)
    requires Inv(db)
    ensures Inv(OnInventoryReserved(db, o, now))
  {
    if o < |db.orders| && Moves(db.orders[o], INVENTORY_RESERVED) {
      var row := Moved(db.orders[o], INVENTORY_RESERVED, "stock reserved", now);
      MovedRow(db.orders[o], INVENTORY_RESERVED, "stock reserved", now);
      MovedHistory(db.orders[o], INVENTORY_RESERVED, "stock reserved", now);
      WriteKeepsInv(db, o, row);
      assert OnInventoryReserved(db, o, now) == Write(db, o, row, []) by { assert db.outbox + [] == db.outbox; }
    }
  }

  lemma OnPaymentSucceededKeepsInv(db: Db, o: OrderId, now: int)
    requires Inv(db)
    ensures Inv(OnPaymentSucceeded(db, o, now))
  {
    if o < |db.orders| && Moves(db.orders[o], PAID) {
      var row := Confirm(db.orders[o], now);
      ConfirmRow(db.orders[o], now);
      WriteEventKeepsInv(db, o, row, ConfirmedEvent(o, row));
      assert OnPaymentSucceeded(db, o, now) == Write(db, o, row, [ConfirmedEvent(o, row)]);
    }
  }

  lemma OnPaymentFailedKeepsInv(db: Db, o: OrderId, code: string, message: string, now: int)
    requires Inv(db)
    ensures Inv(OnPaymentFailed(db, o, code, message, now))
  {
    if o < |db.orders| && Moves(db.orders[o], FAILED) {
      var reason := PaymentFailure(code, message);
      assert |"payment failed ("| > 0;
      var row := Moved(db.orders[o], FAILED, reason, now);
      MovedRow(db.orders[o], FAILED, reason, now);
      MovedHistory(db.orders[o], FAILED, reason, now);
      var e := CancelledEvent(o, row, "payment failed: " + code, false);
      WriteEventKeepsInv(db, o, row, e);
      assert OnPaymentFailed(db, o, code, message, now) == Write(db, o, row, [e]);
    }
  }

  lemma OnReservationFailedKeepsInv(db: Db, o: OrderId, reason: string, now: int)
    requires Inv(db)
    ensures Inv(OnReservationFailed(db, o, reason, now))
  {
    if o < |db.orders| && Moves(db.orders[o], FAILED) {
      assert |"out of stock: "| > 0;
      var row := Moved(db.orders[o], FAILED, OutOfStock(reason), now);
      MovedRow(db.orders[o], FAILED, OutOfStock(reason), now);
      MovedHistory(db.orders[o], FAILED, OutOfStock(reason), now);
      WriteKeepsInv(db, o, row);
      assert OnReservationFailed(db, o, reason, now) == Write(db, o, row, []) by { assert db.outbox + [] == db.outbox; }
    }
  }

  lemma CancelKeepsInv(db: Db, o: OrderId, reason: string, actor: string, now: int)
    requires Inv(db) && o < |db.orders|
    ensures Inv(Cancel(db, o, reason, actor, now))
  {
    var before := db.orders[o];
    if Moves(before, CANCELLED) {
      var row := Moved(before, CANCELLED, CancelReason(actor, reason), now);
      MovedRow(before, CANCELLED, CancelReason(actor, reason), now);
      MovedHistory(before, CANCELLED, CancelReason(actor, reason), now);
      var e := CancelledEvent(o, row, reason, before.status in PAID_STATUSES);
      WriteEventKeepsInv(db, o, row, e);
      assert Cancel(db, o, reason, actor, now) == Write(db, o, row, [e]);
    }
  }

  lemma CancelOrderKeepsInv(db: Db, o: OrderId, caller: UserId, isAdmin: bool, reason: string, now: int)
    requires Inv(db)
    ensures CancelOrder(db, o, caller, isAdmin, reason, now).Done? ==>
      Inv(CancelOrder(db, o, caller, isAdmin, reason, now).value)
  {
    if o < |db.orders| {
      CancelKeepsInv(db, o, reason, if isAdmin then "admin" else "customer", now);
    }
  }

  lemma AdvanceKeepsInv(db: Db, o: OrderId, target: OrderStatus, reason: string, now: int)
    requires Inv(db) && (target == SHIPPED || target == DELIVERED)
    ensures Advance(db, o, target, reason, now).Done? ==> Inv(Advance(db, o, target, reason, now).value)
  {
    if o < |db.orders| && Moves(db.orders[o], target) {
      var row := Moved(db.orders[o], target, reason, now);
      MovedRow(db.orders[o], target, reason, now);
      MovedHistory(db.orders[o], target, reason, now);
      WriteKeepsInv(db, o, row);
      assert Advance(db, o, target, reason, now).value == Write(db, o, row, []) by { assert db.outbox + [] == db.outbox; }
    }
  }

  // ------------------------------------------------------------ create

  lemma {:induction false} PricedQuantities(snapshots: map<ProductId, Snapshot>, items: seq<Line>)
    requires AllKnown(snapshots, items)
    ensures |Priced(snapshots, items)| == |items|
    ensures forall i :: 0 <= i < |items| ==>
      Priced(snapshots, items)[i] == PricedLine(snapshots[items[i].product], items[i])
  {
    if |items| > 0 {
      PricedQuantities(snapshots, items[..|items| - 1]);
    }
  }

  /** The order one accepted request adds. */
  function Placed(db: Db, row: OrderRow): Db {
    db.(orders := db.orders + [row], outbox := db.outbox + [CreatedEvent(|db.orders|, row)])
  }

  lemma PlacedCounts(db: Db, row: OrderRow, other: OrderId)
    requires CountsOk(db, other) && row.status == PENDING && !WasConfirmed(row)
    ensures CountsOk(Placed(db, row), other)
  {
    var next := Placed(db, row);
    PlacedEvents(db.outbox, row, |db.orders|, other);
    if other < |db.orders| {
      assert next.orders[other] == db.orders[other];
    } else if other == |db.orders| {
      assert next.orders[other] == row;
    }
  }

  lemma PlacedEvents(outbox: seq<Event>, row: OrderRow, o: OrderId, other: OrderId)
    ensures Count(outbox + [CreatedEvent(o, row)], Kind.Created, other)
         == Count(outbox, Kind.Created, other) + (if other == o then 1 else 0)
    ensures Count(outbox + [CreatedEvent(o, row)], Confirmed, other) == Count(outbox, Confirmed, other)
    ensures Count(outbox + [CreatedEvent(o, row)], Cancelled, other) == Count(outbox, Cancelled, other)
  {
    var e := CreatedEvent(o, row);
    CountSnoc(outbox, e, Kind.Created, other);
    CountSnoc(outbox, e, Confirmed, other);
    CountSnoc(outbox, e, Cancelled, other);
  }

  lemma PlacedKeepsInv(db: Db, row: OrderRow)
    requires Inv(db) && RowOk(row) && row.status == PENDING && !WasConfirmed(row)
    requires forall i :: 0 <= i < |db.orders| ==> db.orders[i].key != row.key
    ensures Inv(Placed(db, row))
  {
    var next := Placed(db, row);
    forall other: OrderId
      ensures CountsOk(next, other)
    {
      assert CountsOk(db, other);
      PlacedCounts(db, row, other);
    }
    forall i | 0 <= i < |next.outbox|
      ensures EventOk(next, next.outbox[i])
    {
      if i < |db.outbox| {
        assert EventOk(db, db.outbox[i]);
      }
    }
  }

  lemma PricedPositive(snapshots: map<ProductId, Snapshot>, items: seq<Line>)
    requires AllKnown(snapshots, items) && forall i :: 0 <= i < |items| ==> items[i].quantity > 0
    ensures |Priced(snapshots, items)| == |items|
    ensures forall i :: 0 <= i < |items| ==> Priced(snapshots, items)[i].quantity > 0
  {
    PricedQuantities(snapshots, items);
  }

  lemma NewHistoryOk(row: OrderRow)
    requires row.history == [HistoryRow(None, PENDING, "order placed")] && row.status == PENDING
    ensures HistoryOk(row) && !WasConfirmed(row)
  {
  }

  lemma NewOrderOk(db: Db, user: UserId, body: CreateRequest, key: string)
    requires WellFormed(body) && AllKnown(db.snapshots, body.items)
    ensures RowOk(NewOrder(db, user, body, key)) && !WasConfirmed(NewOrder(db, user, body, key))
  {
    PricedPositive(db.snapshots, body.items);
    NewHistoryOk(NewOrder(db, user, body, key));
  }

  lemma CreateKeepsInv(db: Db, user: UserId, body: CreateRequest, key: string, seen: nat, contended: bool)
    requires Inv(db) && seen <= |db.orders|
    ensures CreateOrder(db, user, body, key, seen, contended).Done? ==>
      Inv(CreateOrder(db, user, body, key, seen, contended).value.db)
  {
    var r := CreateOrder(db, user, body, key, seen, contended);
    if r.Done? && r.value.wasCreated {
      MissingNone(db.snapshots, body.items);
      NewOrderOk(db, user, body, key);
      PlacedKeepsInv(db, NewOrder(db, user, body, key));
    }
  }

  lemma HandleKeepsInv(db: Db, e: Event, now: int)
    requires Inv(db)
    ensures Handle(db, e, now).Some? ==> Inv(Handle(db, e, now).value)
  {
    match e {
      case InventoryReserved(o, _, _, _, _, _, _) => OnInventoryReservedKeepsInv(db, o, now);
      case ReservationFailed(o, _, reason, _) => OnReservationFailedKeepsInv(db, o, reason, now);
      case PaymentSucceeded(o, _, _, _, _) => OnPaymentSucceededKeepsInv(db, o, now);
      case PaymentFailed(o, _, _, _, code, message, _) => OnPaymentFailedKeepsInv(db, o, code, message, now);
      case _ =>
    }
  }
}
