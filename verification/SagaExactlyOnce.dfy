/** Exactly-once effects over the real channel: each database is its own requests, interleaved with
    exactly the events in its `processed_events`, once each. */
module SagaExactlyOnce {
  import opened Prelude
  import opened Events
  import opened SagaSystem
  import opened SagaNetwork
  import Delivery
  import Orders
  import Inventory
  import Payments

  // ------------------------------------------------------------ what writes to a database

  /** One transaction of a service: a request or sweep, or the effective handling of an event. */
  datatype Write<E> = Asked(step: Step) | Took(application: Delivery.Application<E>)

  /** The reference: every write once, in order, with nothing in between. None if a handler raises. */
  function Replay<S, E>(g: Delivery.Group<S, E>, ask: (S, Step) -> S, tables: S, writes: seq<Write<E>>): Option<S> {
    if |writes| == 0 then Some(tables)
    else
      match Replay(g, ask, tables, writes[..|writes| - 1])
      case None => None
      case Some(before) =>
        match writes[|writes| - 1]
        case Asked(step) => Some(ask(before, step))
        case Took(a) => g.handler(before, a.event, a.env)
  }

  function Taken<E>(writes: seq<Write<E>>): seq<Delivery.Application<E>> {
    if |writes| == 0 then []
    else
      var last := writes[|writes| - 1];
      Taken(writes[..|writes| - 1]) + (if last.Took? then [last.application] else [])
  }

  function Asks<E>(writes: seq<Write<E>>): seq<Step> {
    if |writes| == 0 then []
    else
      var last := writes[|writes| - 1];
      Asks(writes[..|writes| - 1]) + (if last.Asked? then [last.step] else [])
  }

  lemma WritesSnoc<S, E>(g: Delivery.Group<S, E>, ask: (S, Step) -> S, tables: S, writes: seq<Write<E>>, w: Write<E>)
    requires Replay(g, ask, tables, writes).Some?
    ensures Replay(g, ask, tables, writes + [w])
         == (match w
             case Asked(step) => Some(ask(Replay(g, ask, tables, writes).value, step))
             case Took(a) => g.handler(Replay(g, ask, tables, writes).value, a.event, a.env))
    ensures Taken(writes + [w]) == Taken(writes) + (if w.Took? then [w.application] else [])
    ensures Asks(writes + [w]) == Asks(writes) + (if w.Asked? then [w.step] else [])
  {
    assert (writes + [w])[..|writes|] == writes;
  }

  /** `writes` are all there is in the database: in order, no event twice, every event delivered. */
  ghost predicate Accounts<S, E>(g: Delivery.Group<S, E>, ask: (S, Step) -> S, tables: S, writes: seq<Write<E>>,
                                 db: Delivery.Database<S>, logs: Delivery.Logs) {
    && Replay(g, ask, tables, writes) == Some(db.tables)
    && Delivery.IdsOf(Taken(writes)) == db.processed
    && Delivery.NoDuplicates(db.processed)
    && Delivery.AllDelivered(logs, Taken(writes))
  }

  lemma AskAccounts<S, E>(g: Delivery.Group<S, E>, ask: (S, Step) -> S, tables: S, writes: seq<Write<E>>,
                          db: Delivery.Database<S>, logs: Delivery.Logs, step: Step)
    requires Accounts(g, ask, tables, writes, db, logs)
    ensures Accounts(g, ask, tables, writes + [Asked(step)], db.(tables := ask(db.tables, step)), logs)
  {
    WritesSnoc(g, ask, tables, writes, Asked(step));
    assert Taken(writes) + [] == Taken(writes);
  }

  lemma IdsSnoc<E>(applied: seq<Delivery.Application<E>>, a: Delivery.Application<E>)
    ensures Delivery.IdsOf(applied + [a]) == Delivery.IdsOf(applied) + [a.id]
  {
    assert (applied + [a])[..|applied|] == applied;
  }

  function WriteOf<E>(a: Option<Delivery.Application<E>>): seq<Write<E>> {
    if a.Some? then [Took(a.value)] else []
  }

  /** `next` is `db` after the application `a`, or `db` itself. */
  ghost predicate Performs<S, E>(g: Delivery.Group<S, E>, a: Option<Delivery.Application<E>>, db: Delivery.Database<S>,
                                 next: Delivery.Database<S>, logs: Delivery.Logs) {
    if a.Some? then
      && a.value.id !in db.processed
      && g.handler(db.tables, a.value.event, a.value.env) == Some(next.tables)
      && next.processed == db.processed + [a.value.id]
      && Delivery.Delivered(logs, a.value.id, a.value.event)
    else next == db
  }

  lemma TakeAccounts<S, E>(g: Delivery.Group<S, E>, ask: (S, Step) -> S, tables: S, writes: seq<Write<E>>,
                           a: Option<Delivery.Application<E>>, db: Delivery.Database<S>, next: Delivery.Database<S>,
                           logs: Delivery.Logs)
    requires Accounts(g, ask, tables, writes, db, logs) && Performs(g, a, db, next, logs)
    ensures Accounts(g, ask, tables, writes + WriteOf(a), next, logs)
  {
    if a.Some? {
      WritesSnoc(g, ask, tables, writes, Took(a.value));
      IdsSnoc(Taken(writes), a.value);
    } else {
      assert writes + [] == writes;
    }
  }

  lemma LongerLogs<S, E>(g: Delivery.Group<S, E>, ask: (S, Step) -> S, tables: S, writes: seq<Write<E>>,
                         db: Delivery.Database<S>, a: Delivery.Logs, b: Delivery.Logs)
    requires Accounts(g, ask, tables, writes, db, a)
    requires |a| == |b| && forall p :: 0 <= p < |a| ==> a[p] <= b[p]
    ensures Accounts(g, ask, tables, writes, db, b)
  {
    var taken := Taken(writes);
    forall i | 0 <= i < |taken|
      ensures Delivery.Delivered(b, taken[i].id, taken[i].event)
    {
      assert Delivery.Delivered(a, taken[i].id, taken[i].event);
      var p :| 0 <= p < |a| && Delivery.Readable(taken[i].id, taken[i].event) in a[p];
      assert a[p] <= b[p];
    }
  }

  // ------------------------------------------------------------ the writes of a network run

  /** The service whose transaction a request or a sweep is. */
  function OwnerOf(step: Step): Service {
    match step
    case Sweep(_, _) => InventorySide
    case Restock(_, _, _, _) => InventorySide
    case Recount(_, _, _) => InventorySide
    case Retry(_, _, _, _) => PaymentSide
    case AdminRefund(_, _, _) => PaymentSide
    case _ => OrderSide
  }

  predicate Is(s: NetStep, who: Service) {
    s.Request? && IsRequest(s.step) && OwnerOf(s.step) == who
  }

  /** The requests and sweeps that reached a service. */
  function Requests(steps: seq<NetStep>, who: Service): seq<Step> {
    if |steps| == 0 then []
    else
      var last := steps[|steps| - 1];
      Requests(steps[..|steps| - 1], who) + (if Is(last, who) then [last.step] else [])
  }

  function OrderWrites(n: nat, steps: seq<NetStep>): seq<Write<int>> {
    if |steps| == 0 then []
    else
      var net, last := NetRun(n, steps[..|steps| - 1]), steps[|steps| - 1];
      OrderWrites(n, steps[..|steps| - 1])
      + (if Is(last, OrderSide) then [Asked(last.step)]
         else if last.OrderTick? then WriteOf(Delivery.Applies(OrderGroup(), OrderWorld(net), last.orderTick))
         else [])
  }

  function InventoryWrites(n: nat, steps: seq<NetStep>): seq<Write<int>> {
    if |steps| == 0 then []
    else
      var net, last := NetRun(n, steps[..|steps| - 1]), steps[|steps| - 1];
      InventoryWrites(n, steps[..|steps| - 1])
      + (if Is(last, InventorySide) then [Asked(last.step)]
         else if last.InventoryTick? then WriteOf(Delivery.Applies(InventoryGroup(), InventoryWorld(net), last.inventoryTick))
         else [])
  }

  function PaymentWrites(n: nat, steps: seq<NetStep>): seq<Write<Payments.Provider>> {
    if |steps| == 0 then []
    else
      var net, last := NetRun(n, steps[..|steps| - 1]), steps[|steps| - 1];
      PaymentWrites(n, steps[..|steps| - 1])
      + (if Is(last, PaymentSide) then [Asked(last.step)]
         else if last.PaymentTick? then WriteOf(Delivery.Applies(PaymentGroup(), PaymentWorld(net), last.paymentTick))
         else [])
  }

  // ------------------------------------------------------------ one step

  lemma OrderStepAccounts(net: Net, s: NetStep, writes: seq<Write<int>>)
    requires Sized(net) && Accounts(OrderGroup(), OrderRequest, Orders.EMPTY, writes, net.orders.db, net.logs)
    ensures Accounts(OrderGroup(), OrderRequest, Orders.EMPTY,
                     writes + (if Is(s, OrderSide) then [Asked(s.step)]
                               else if s.OrderTick? then WriteOf(Delivery.Applies(OrderGroup(), OrderWorld(net), s.orderTick))
                               else []),
                     NextNet(net, s).orders.db, NextNet(net, s).logs)
  {
    assert writes + [] == writes;
    if Is(s, OrderSide) {
      AskAccounts(OrderGroup(), OrderRequest, Orders.EMPTY, writes, net.orders.db, net.logs, s.step);
    } else if s.OrderTick? {
      Delivery.AdvanceApplies(OrderGroup(), OrderWorld(net), s.orderTick);
      TakeAccounts(OrderGroup(), OrderRequest, Orders.EMPTY, writes, Delivery.Applies(OrderGroup(), OrderWorld(net), s.orderTick),
                   net.orders.db, NextNet(net, s).orders.db, net.logs);
    } else {
      LogsGrow(net, s);
      LongerLogs(OrderGroup(), OrderRequest, Orders.EMPTY, writes, net.orders.db, net.logs, NextNet(net, s).logs);
    }
  }

  lemma InventoryStepAccounts(net: Net, s: NetStep, writes: seq<Write<int>>)
    requires Sized(net) && Accounts(InventoryGroup(), InventoryRequest, Inventory.EMPTY, writes, net.inventory.db, net.logs)
    ensures Accounts(InventoryGroup(), InventoryRequest, Inventory.EMPTY,
                     writes + (if Is(s, InventorySide) then [Asked(s.step)]
                               else if s.InventoryTick?
                               then WriteOf(Delivery.Applies(InventoryGroup(), InventoryWorld(net), s.inventoryTick))
                               else []),
                     NextNet(net, s).inventory.db, NextNet(net, s).logs)
  {
    assert writes + [] == writes;
    if Is(s, InventorySide) {
      AskAccounts(InventoryGroup(), InventoryRequest, Inventory.EMPTY, writes, net.inventory.db, net.logs, s.step);
    } else if s.InventoryTick? {
      Delivery.AdvanceApplies(InventoryGroup(), InventoryWorld(net), s.inventoryTick);
      TakeAccounts(InventoryGroup(), InventoryRequest, Inventory.EMPTY, writes, Delivery.Applies(InventoryGroup(), InventoryWorld(net), s.inventoryTick),
                   net.inventory.db, NextNet(net, s).inventory.db, net.logs);
    } else {
      LogsGrow(net, s);
      LongerLogs(InventoryGroup(), InventoryRequest, Inventory.EMPTY, writes, net.inventory.db, net.logs, NextNet(net, s).logs);
    }
  }

  lemma PaymentStepAccounts(net: Net, s: NetStep, writes: seq<Write<Payments.Provider>>)
    requires Sized(net) && Accounts(PaymentGroup(), PaymentRequest, Payments.EMPTY, writes, net.payments.db, net.logs)
    ensures Accounts(PaymentGroup(), PaymentRequest, Payments.EMPTY,
                     writes + (if Is(s, PaymentSide) then [Asked(s.step)]
                               else if s.PaymentTick? then WriteOf(Delivery.Applies(PaymentGroup(), PaymentWorld(net), s.paymentTick))
                               else []),
                     NextNet(net, s).payments.db, NextNet(net, s).logs)
  {
    assert writes + [] == writes;
    if Is(s, PaymentSide) {
      AskAccounts(PaymentGroup(), PaymentRequest, Payments.EMPTY, writes, net.payments.db, net.logs, s.step);
    } else if s.PaymentTick? {
      Delivery.AdvanceApplies(PaymentGroup(), PaymentWorld(net), s.paymentTick);
      TakeAccounts(PaymentGroup(), PaymentRequest, Payments.EMPTY, writes, Delivery.Applies(PaymentGroup(), PaymentWorld(net), s.paymentTick),
                   net.payments.db, NextNet(net, s).payments.db, net.logs);
    } else {
      LogsGrow(net, s);
      LongerLogs(PaymentGroup(), PaymentRequest, Payments.EMPTY, writes, net.payments.db, net.logs, NextNet(net, s).logs);
    }
  }

  // ------------------------------------------------------------ every run

  /** The order database is its requests and its handled events, once each and in marker order. */
  lemma {:induction false} OrdersExactlyOnce(n: nat, steps: seq<NetStep>)
    ensures Accounts(OrderGroup(), OrderRequest, Orders.EMPTY, OrderWrites(n, steps),
                     NetRun(n, steps).orders.db, NetRun(n, steps).logs)
    ensures Asks(OrderWrites(n, steps)) == Requests(steps, OrderSide)
  {
    if |steps| > 0 {
      var init, s := steps[..|steps| - 1], steps[|steps| - 1];
      OrdersExactlyOnce(n, init);
      OrderStepAccounts(NetRun(n, init), s, OrderWrites(n, init));
      AsksGrow(OrderWrites(n, init), OrderWrites(n, steps));
    }
  }

  /** The inventory database is its sweeps and stock counts and its handled events, once each. */
  lemma {:induction false} InventoryExactlyOnce(n: nat, steps: seq<NetStep>)
    ensures Accounts(InventoryGroup(), InventoryRequest, Inventory.EMPTY, InventoryWrites(n, steps),
                     NetRun(n, steps).inventory.db, NetRun(n, steps).logs)
    ensures Asks(InventoryWrites(n, steps)) == Requests(steps, InventorySide)
  {
    if |steps| > 0 {
      var init, s := steps[..|steps| - 1], steps[|steps| - 1];
      InventoryExactlyOnce(n, init);
      InventoryStepAccounts(NetRun(n, init), s, InventoryWrites(n, init));
      AsksGrow(InventoryWrites(n, init), InventoryWrites(n, steps));
    }
  }

  /** The payment database is its retries and refunds and its handled events, once each. */
  lemma {:induction false} PaymentsExactlyOnce(n: nat, steps: seq<NetStep>)
    ensures Accounts(PaymentGroup(), PaymentRequest, Payments.EMPTY, PaymentWrites(n, steps),
                     NetRun(n, steps).payments.db, NetRun(n, steps).logs)
    ensures Asks(PaymentWrites(n, steps)) == Requests(steps, PaymentSide)
  {
    if |steps| > 0 {
      var init, s := steps[..|steps| - 1], steps[|steps| - 1];
      PaymentsExactlyOnce(n, init);
      PaymentStepAccounts(NetRun(n, init), s, PaymentWrites(n, init));
      AsksGrow(PaymentWrites(n, init), PaymentWrites(n, steps));
    }
  }

  /** At most one write more. */
  lemma AsksGrow<E>(a: seq<Write<E>>, b: seq<Write<E>>)
    requires a <= b && |b| <= |a| + 1
    ensures Asks(b) == Asks(a) + (if |b| > |a| && b[|a|].Asked? then [b[|a|].step] else [])
  {
    if |b| > |a| {
      assert b[..|a|] == a;
    } else {
      assert b == a;
    }
  }
}
