/** The saga over an order object, and the request-driven service, proved equal to `Orders`. */
module OrderServices {
  import opened Prelude
  import opened Events
  import opened OrderStatuses
  import opened Orders
  import OrderInvariants

  /** An order row loaded for update. Only a transition assigns its fields. */
  class OrderRecord {
    const id: OrderId
    const details: OrderRow
    var status: OrderStatus
    var failureReason: Option<string>
    var completedAt: Option<int>
    var history: seq<HistoryRow>

    constructor (id: OrderId, row: OrderRow)
      ensures this.id == id && Row() == row
    {
      this.id := id;
      details := row;
      status := row.status;
      failureReason := row.failureReason;
      completedAt := row.completedAt;
      history := row.history;
    }

    /** The row as it will be flushed. */
    function Row(): OrderRow
      reads this
    {
      details.(status := status, failureReason := failureReason, completedAt := completedAt, history := history)
    }
  }

  /** State transitions for one order, always inside a transaction. */
  class OrderSaga {
    var outbox: seq<Event>

    constructor (outbox: seq<Event>)
      ensures this.outbox == outbox
    {
      this.outbox := outbox;
    }

    method Transition(order: OrderRecord, target: OrderStatus, reason: string, strict: bool, now: int)
      returns (moved: bool, raised: bool)
      modifies order
      ensures moved == Moves(old(order.Row()), target)
      ensures raised == (strict && Raises(old(order.Row()), target))
      ensures order.Row() == if moved then Moved(old(order.Row()), target, reason, now) else old(order.Row())
    {
      var current := order.status;
      if current == target {
        return false, false;
      }
      if !CanTransition(current, target) {
        return false, strict;
      }
      order.status := target;
      if reason != "" {
        order.failureReason := if target in {FAILED} then Some(reason) else order.failureReason;
      }
      order.history := order.history + [HistoryRow(Some(current), target, reason)];
      if IsTerminal(target) || target == CONFIRMED {
        if order.completedAt == None && IsTerminal(target) {
          order.completedAt := Some(now);
        }
      }
      return true, false;
    }

    method OnInventoryReserved(order: OrderRecord, now: int)
      modifies order
      ensures order.Row() == if Moves(old(order.Row()), INVENTORY_RESERVED)
        then Moved(old(order.Row()), INVENTORY_RESERVED, "stock reserved", now) else old(order.Row())
    {
      var _, _ := Transition(order, INVENTORY_RESERVED, "stock reserved", false, now);
    }

    method OnPaymentSucceeded(order: OrderRecord, now: int)
      modifies this, order
      ensures if Moves(old(order.Row()), PAID)
        then order.Row() == Confirm(old(order.Row()), now)
             && outbox == old(outbox) + [ConfirmedEvent(order.id, old(order.Row()))]
        else order.Row() == old(order.Row()) && outbox == old(outbox)
    {
      var moved, _ := Transition(order, PAID, "payment captured", false, now);
      if !moved {
        return;
      }
      var confirmed, raised := Transition(order, CONFIRMED, "order confirmed", true, now);
      assert confirmed && !raised;
      outbox := outbox + [ConfirmedEvent(order.id, order.Row())];
    }

    method OnPaymentFailed(order: OrderRecord, code: string, message: string, now: int)
      modifies this, order
      ensures if Moves(old(order.Row()), FAILED)
        then order.Row() == Moved(old(order.Row()), FAILED, PaymentFailure(code, message), now)
             && outbox == old(outbox)
                + [CancelledEvent(order.id, old(order.Row()), "payment failed: " + code, false)]
        else order.Row() == old(order.Row()) && outbox == old(outbox)
    {
      var moved, _ := Transition(order, FAILED, PaymentFailure(code, message), false, now);
      if moved {
        outbox := outbox + [CancelledEvent(order.id, order.Row(), "payment failed: " + code, false)];
      }
    }

    method OnReservationFailed(order: OrderRecord, reason: string, now: int)
      modifies order
      ensures order.Row() == if Moves(old(order.Row()), FAILED)
        then Moved(old(order.Row()), FAILED, OutOfStock(reason), now) else old(order.Row())
    {
      var _, _ := Transition(order, FAILED, OutOfStock(reason), false, now);
    }

    method Cancel(order: OrderRecord, reason: string, actor: string, now: int) returns (raised: bool)
      modifies this, order
      ensures raised == Raises(old(order.Row()), CANCELLED)
      ensures if Moves(old(order.Row()), CANCELLED)
        then order.Row() == Moved(old(order.Row()), CANCELLED, CancelReason(actor, reason), now)
             && outbox == old(outbox)
                + [CancelledEvent(order.id, old(order.Row()), reason, old(order.Row()).status in PAID_STATUSES)]
        else order.Row() == old(order.Row()) && outbox == old(outbox)
    {
      var wasPaid := order.status in PAID_STATUSES;
      var moved;
      moved, raised := Transition(order, CANCELLED, CancelReason(actor, reason), true, now);
      if moved {
        outbox := outbox + [CancelledEvent(order.id, order.Row(), reason, wasPaid)];
      }
    }
  }

  lemma HandleKeeps(db: Db, e: Event, now: int)
    ensures OrderInvariants.Inv(db) ==> Orders.Handle(db, e, now).Some? ==> OrderInvariants.Inv(Orders.Handle(db, e, now).value)
  {
    if OrderInvariants.Inv(db) {
      OrderInvariants.HandleKeepsInv(db, e, now);
    }
  }

  class OrderService {
    var orders: seq<OrderRow>
    var snapshots: map<ProductId, Snapshot>
    var outbox: seq<Event>

    /** The database as one value. */
    ghost function Tables(): Db
      reads this
    {
      Db(orders, snapshots, outbox)
    }

    constructor ()
      ensures Tables() == EMPTY
    {
      orders, snapshots, outbox := [], map[], [];
    }

    // ---------------------------------------------------------- create

    method CheckProducts(items: seq<Line>) returns (missing: seq<ProductId>, inactive: seq<ProductId>)
      ensures missing == Missing(snapshots, items) && inactive == Inactive(snapshots, items)
    {
      missing, inactive := [], [];
      var i := 0;
      while i < |items|
        invariant 0 <= i <= |items|
        invariant missing == Missing(snapshots, items[..i]) && inactive == Inactive(snapshots, items[..i])
      {
        var p := items[i].product;
        assert items[..i + 1][..i] == items[..i];
        if p !in snapshots {
          missing := missing + [p];
        } else if !snapshots[p].isActive {
          inactive := inactive + [p];
        }
        i := i + 1;
      }
      assert items[..i] == items;
    }

    /** The pricing loop: total and lines are accumulated together, from the service's own prices. */
    method Price(items: seq<Line>) returns (total: Money, lines: seq<OrderLine>)
      requires AllKnown(snapshots, items)
      ensures lines == Priced(snapshots, items) && total == Total(lines)
    {
      total, lines := 0, [];
      var i := 0;
      while i < |items|
        invariant 0 <= i <= |items|
        invariant lines == Priced(snapshots, items[..i]) && total == Total(lines)
      {
        var s := snapshots[items[i].product];
        assert items[..i + 1][..i] == items[..i];
        ghost var before := lines;
        total := total + s.price * items[i].quantity;
        lines := lines + [OrderLine(items[i].product, s.sku, s.name, s.price, items[i].quantity)];
        assert lines[..|lines| - 1] == before;
        i := i + 1;
      }
      assert items[..i] == items;
    }

    method CreateOrder(user: UserId, body: CreateRequest, key: string, seen: nat, contended: bool)
      returns (id: OrderId, wasCreated: bool, error: Option<Error>)
      requires seen <= |orders|
      modifies this
      ensures match Orders.CreateOrder(old(Tables()), user, body, key, seen, contended)
              case Done(c) => error == None && id == c.order && wasCreated == c.wasCreated && Tables() == c.db
              case Raised(e) => error == Some(e) && Tables() == old(Tables())
      ensures OrderInvariants.Inv(old(Tables())) ==> OrderInvariants.Inv(Tables())
    {
      ghost var start := Tables();
      if OrderInvariants.Inv(start) {
        OrderInvariants.CreateKeepsInv(start, user, body, key, seen, contended);
      }
      MissingNone(snapshots, body.items);
      if !WellFormed(body) {
        return 0, false, Some(BadRequest);
      }
      var existing := FindKey(orders[..seen], key);
      if existing < seen {
        if orders[existing].user != user {
          return 0, false, Some(KeyTaken);
        }
        return existing, false, None;
      }
      var missing, inactive := CheckProducts(body.items);
      if |missing| > 0 {
        return 0, false, Some(UnknownProducts(missing));
      }
      if |inactive| > 0 {
        return 0, false, Some(InactiveProducts(inactive));
      }
      if !OneCurrency(snapshots, body.items) {
        return 0, false, Some(MixedCurrencies);
      }
      var duplicate := FindKey(orders, key);
      if duplicate < |orders| {
        return duplicate, false, None;
      }
      if contended {
        return 0, false, Some(KeyInFlight);
      }
      var currency := snapshots[body.items[0].product].currency;
      var total, lines := Price(body.items);
      id := |orders|;
      orders := orders + [OrderRow(user, PENDING, lines, total, currency, body.payment, key,
                                   [HistoryRow(None, PENDING, "order placed")], None, None)];
      outbox := outbox + [OrderCreated(id, user, total, currency, lines, body.payment)];
      return id, true, None;
    }

    // ---------------------------------------------------------- cancel, ship, deliver

    method CancelOrder(o: OrderId, caller: UserId, isAdmin: bool, reason: string, now: int)
      returns (error: Option<Error>)
      modifies this
      ensures match Orders.CancelOrder(old(Tables()), o, caller, isAdmin, reason, now)
              case Done(next) => error == None && Tables() == next
              case Raised(e) => error == Some(e) && Tables() == old(Tables())
      ensures OrderInvariants.Inv(old(Tables())) ==> OrderInvariants.Inv(Tables())
    {
      ghost var start := Tables();
      if OrderInvariants.Inv(start) {
        OrderInvariants.CancelOrderKeepsInv(start, o, caller, isAdmin, reason, now);
      }
      if o >= |orders| {
        return Some(NotFound);
      }
      if !isAdmin && orders[o].user != caller {
        return Some(Forbidden);
      }
      if orders[o].status !in CUSTOMER_CANCELLABLE {
        return Some(NotCancellable);
      }
      var order := new OrderRecord(o, orders[o]);
      var saga := new OrderSaga(outbox);
      var raised := saga.Cancel(order, reason, if isAdmin then "admin" else "customer", now);
      assert !raised;
      orders := orders[o := order.Row()];
      outbox := saga.outbox;
      return None;
    }

    /** `ship_order` with SHIPPED, `deliver_order` with DELIVERED. */
    method Advance(o: OrderId, target: OrderStatus, reason: string, now: int) returns (error: Option<Error>)
      requires target == SHIPPED || target == DELIVERED
      modifies this
      ensures match Orders.Advance(old(Tables()), o, target, reason, now)
              case Done(next) => error == None && Tables() == next
              case Raised(e) => error == Some(e) && Tables() == old(Tables())
      ensures OrderInvariants.Inv(old(Tables())) ==> OrderInvariants.Inv(Tables())
    {
      ghost var start := Tables();
      if OrderInvariants.Inv(start) {
        OrderInvariants.AdvanceKeepsInv(start, o, target, reason, now);
      }
      if o >= |orders| {
        return Some(NotFound);
      }
      var order := new OrderRecord(o, orders[o]);
      var saga := new OrderSaga(outbox);
      var moved, raised := saga.Transition(order, target, reason, true, now);
      if raised {
        return Some(InvalidStateTransition);
      }
      orders := orders[o := order.Row()];
      return None;
    }

    // ---------------------------------------------------------- the consumer's handlers

    /** The database with one order flushed and the saga's events queued. */
    ghost function Stored(start: Db, o: OrderId, row: OrderRow, outbox: seq<Event>): Db
      requires o < |start.orders|
    {
      start.(orders := start.orders[o := row], outbox := outbox)
    }

    /** Lock the order and drive the saga; an unknown order is skipped. */
    method Handle(e: Event, now: int)
      modifies this
      ensures Some(Tables()) == Orders.Handle(old(Tables()), e, now)
      ensures OrderInvariants.Inv(old(Tables())) ==> OrderInvariants.Inv(Tables())
    {
      ghost var start := Tables();
      HandleKeeps(start, e, now);
      if !Subscribes(KindOf(e)) || e.order >= |orders| {
        return;
      }
      var order := new OrderRecord(e.order, orders[e.order]);
      var saga := new OrderSaga(outbox);
      assert start.orders[e.order := start.orders[e.order]] == start.orders;
      match e {
        case InventoryReserved(_, _, _, _, _, _, _) =>
          saga.OnInventoryReserved(order, now);
          assert Orders.Handle(start, e, now) == Some(Stored(start, e.order, order.Row(), saga.outbox));
        case ReservationFailed(_, _, reason, _) =>
          saga.OnReservationFailed(order, reason, now);
          assert Orders.Handle(start, e, now) == Some(Stored(start, e.order, order.Row(), saga.outbox));
        case PaymentSucceeded(_, _, _, _, _) =>
          saga.OnPaymentSucceeded(order, now);
          assert Orders.Handle(start, e, now) == Some(Stored(start, e.order, order.Row(), saga.outbox));
        case PaymentFailed(_, _, _, _, code, message, _) =>
          saga.OnPaymentFailed(order, code, message, now);
          assert Orders.Handle(start, e, now) == Some(Stored(start, e.order, order.Row(), saga.outbox));
        case _ =>
      }
      orders := orders[e.order := order.Row()];
      outbox := saga.outbox;
    }
  }
}
