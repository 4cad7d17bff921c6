/** How the compensation of a paid order falls short: an administrator gives back a part of the money, and
    then the order is cancelled. */
module SagaPartialRefund {
  import opened Prelude
  import opened Events
  import opened OrderStatuses
  import opened SagaAutomaton
  import opened SagaSystem
  import opened SagaProjection
  import opened SagaRuns
  import opened SagaRefunds
  import opened SagaTheorems
  import opened SagaDisturbances
  import SagaLiveness
  import SagaLateRetry
  import Delivery
  import Inventory
  import Orders
  import OrderTheorems
  import Payments

  // ------------------------------------------------------------ a part, and no more

  /** The order was accepted, and `part` is less than what was captured for it. */
  predicate CanRepayPart(sys: System, o: OrderId, part: Money) {
    && o < |sys.orders.tables.orders| && StatusOf(sys, o) == CONFIRMED
    && o in sys.payments.tables.payments && sys.payments.tables.payments[o].status == Payments.SUCCEEDED
    && 0 < part < sys.payments.tables.payments[o].amount
  }

  lemma PartIsRepaid(steps: seq<Step>, o: OrderId, why: string, part: Money)
    requires CanRepayPart(Run(steps), o, part)
    ensures var a, b := Run(steps), Run(steps + [AdminRefund(o, why, Some(part))]);
      && b.orders == a.orders
      && IsRefunded(b.payments.tables, o)
      && b.payments.tables.payments[o].amount == a.payments.tables.payments[o].amount
      && RefundedOf(b.payments.tables.payments[o]) == part
    ensures PartlyRepaid(steps + [AdminRefund(o, why, Some(part))], o)
  {
    var step := AdminRefund(o, why, Some(part));
    var db := Run(steps).payments.tables;
    RunSnoc(steps, step);
    RunPaymentsInv(steps);
    AdminRefundIs(db, step);
    Payments.RepaidRow(db.payments[o], Payments.RefundFor(db.payments[o], why, Some(part)));
    assert (steps + [step])[..|steps|] == steps;
  }

  /** Whatever follows a partial refund, cancellation or not: the rest of the money is kept for good. */
  lemma RestIsKept(steps: seq<Step>, o: OrderId, why: string, part: Money, r: seq<Step>)
    requires CanRepayPart(Run(steps), o, part) && steps + [AdminRefund(o, why, Some(part))] <= r
    ensures IsRefunded(PaymentsOf(r), o) && RefundedOf(PaymentsOf(r).payments[o]) == part
    ensures MoneyKept(Run(r), o) == Run(steps).payments.tables.payments[o].amount - part > 0
  {
    PartIsRepaid(steps, o, why, part);
    RefundIsFinal(steps + [AdminRefund(o, why, Some(part))], r, o);
  }

  // ------------------------------------------------------------ and then a cancellation

  lemma {:induction false} PaidWhenCancelledStays(steps: seq<Step>, r: seq<Step>, o: OrderId)
    requires steps <= r && PaidWhenCancelled(steps, o)
    ensures PaidWhenCancelled(r, o)
    decreases |r|
  {
    if |r| > |steps| {
      PaidWhenCancelledStays(steps, r[..|r| - 1], o);
    } else {
      assert r == steps;
    }
  }

  /** Cancelling an accepted order. */
  lemma AcceptedCancellation(steps: seq<Step>, o: OrderId, reason: string)
    requires o < |Run(steps).orders.tables.orders| && StatusOf(Run(steps), o) == CONFIRMED
    ensures PaidWhenCancelled(steps + [CancelOrder(o, 0, true, reason, 0)], o)
    ensures |Run(steps + [CancelOrder(o, 0, true, reason, 0)]).orders.tables.orders| == |Run(steps).orders.tables.orders|
  {
    var step := CancelOrder(o, 0, true, reason, 0);
    RunSnoc(steps, step);
    assert (steps + [step])[..|steps|] == steps;
  }

  lemma NextKeepsOrders(sys: System, step: Step)
    ensures OrderTheorems.Keeps(sys.orders.tables, Next(sys, step).orders.tables)
  {
    if step.OrderHandles? {
      var found := Lookup(BoxesOf(sys), step.id);
      if found.Some? && Orders.Subscribes(KindOf(found.value)) {
        OrderHandleKeeps(sys.orders.tables, found.value, step.now);
      }
    } else if IsRequest(step) {
      OrderRequestAdds(sys.orders.tables, step);
    }
  }

  lemma KeepsTrans(a: Orders.Db, b: Orders.Db, c: Orders.Db)
    requires OrderTheorems.Keeps(a, b) && OrderTheorems.Keeps(b, c)
    ensures OrderTheorems.Keeps(a, c)
  {
  }

  /** Lines, totals and owners of orders never change. */
  lemma {:induction false} OrdersStay(steps: seq<Step>, r: seq<Step>)
    requires steps <= r
    ensures OrderTheorems.Keeps(Run(steps).orders.tables, Run(r).orders.tables)
    decreases |r|
  {
    if |r| > |steps| {
      var init := r[..|r| - 1];
      OrdersStay(steps, init);
      NextKeepsOrders(Run(init), r[|r| - 1]);
      KeepsTrans(Run(steps).orders.tables, Run(init).orders.tables, Run(r).orders.tables);
    } else {
      assert r == steps;
    }
  }

  /** Goodwill of `part`, then a cancellation. */
  function Goodwill(o: OrderId, why: string, part: Money, reason: string): seq<Step> {
    [AdminRefund(o, why, Some(part)), CancelOrder(o, 0, true, reason, 0)]
  }

  /** The end of the story: settled, cancelled while paid, and all but `part` of the money kept. */
  ghost predicate KeepsTheRest(r: seq<Step>, o: OrderId, part: Money, rest: Money) {
    && Quiescent(Run(r), o)
    && PaidWhenCancelled(r, o) && IsCancelled(Run(r), o)
    && IsRefunded(PaymentsOf(r), o) && RefundedOf(PaymentsOf(r).payments[o]) == part
    && MoneyKept(Run(r), o) == rest > 0
    && !ServicesAgree(Run(r), o)
  }

  /** Once settled, the rest is kept and the services disagree, however it got settled. */
  lemma GoodwillIsNotCompleted(steps: seq<Step>, o: OrderId, why: string, part: Money, reason: string, r: seq<Step>)
    requires CanRepayPart(Run(steps), o, part) && steps + Goodwill(o, why, part, reason) <= r && Quiescent(Run(r), o)
    ensures KeepsTheRest(r, o, part, Run(steps).payments.tables.payments[o].amount - part)
  {
    var s1 := steps + [AdminRefund(o, why, Some(part))];
    var s2 := s1 + [CancelOrder(o, 0, true, reason, 0)];
    assert s2 == steps + Goodwill(o, why, part, reason);
    PartIsRepaid(steps, o, why, part);
    RestIsKept(steps, o, why, part, r);
    AcceptedCancellation(s1, o, reason);
    PaidWhenCancelledStays(s2, r, o);
    OrdersStay(s2, r);
    PaidCancellationIsCompensated(r, o);
  }

  /** From every reachable state with an accepted order: a partial refund, a cancellation and deliveries
      settle everything, with the rest of the money kept. */
  lemma PartialRefundIsKept(steps: seq<Step>, o: OrderId, why: string, part: Money, reason: string, provider: Payments.Provider)
    returns (r: seq<Step>)
    requires CanRepayPart(Run(steps), o, part)
    ensures SagaLiveness.Continues(steps + Goodwill(o, why, part, reason), r)
    ensures KeepsTheRest(r, o, part, Run(steps).payments.tables.payments[o].amount - part)
  {
    r := SagaLiveness.CanAlwaysQuiesce(steps + Goodwill(o, why, part, reason), provider);
    GoodwillIsNotCompleted(steps, o, why, part, reason, r);
  }

  // ------------------------------------------------------------ how an order gets accepted

  /** Everything arrives in order. */
  function InOrder(sys: System, id: EventId, provider: Payments.Provider): seq<Step> {
    [PaymentHandles(id, provider), OrderHandles(id, 0), OrderHandles(NextResult(sys), 0),
     InventoryHandles(NextResult(sys), 0)]
  }

  const DONE: Local := Local(
    true, CONFIRMED, {Reserved, Succeeded}, {Kind.Created, Succeeded}, {Reserved}, Some(Inventory.COMMITTED),
    Some(Payments.SUCCEEDED), 1, 1, 0, false, 1, 0, 1, 0, false, false)

  lemma DoneView()
    ensures InventorySeesSucceeded(OrderSeesSucceeded(OrderSeesReserved(PaymentSeesReserved(WAITING, true)))) == DONE
  {
  }

  lemma ChargeAndReserve(steps: seq<Step>, o: OrderId, id: EventId, provider: Payments.Provider)
    requires Waiting(Run(steps), o, id) && Captures(Run(steps), id, provider)
    ensures var s2 := steps + [PaymentHandles(id, provider)] + [OrderHandles(id, 0)];
      && View(Run(s2), o) == OrderSeesReserved(PaymentSeesReserved(WAITING, true))
      && Names(Run(s2), NextResult(Run(steps)), Succeeded, o)
      && Names(Run(s2), id, Reserved, o)
  {
    var result := NextResult(Run(steps));
    var s1 := steps + [PaymentHandles(id, provider)];
    PaymentCharge(steps, id, provider, o, true);
    PaymentChargeNames(steps, id, provider, o);
    NamesOnward(steps, PaymentHandles(id, provider), id, Reserved, o);
    OrderDelivery(s1, id, Reserved, o);
    NamesOnward(s1, OrderHandles(id, 0), result, Succeeded, o);
    NamesOnward(s1, OrderHandles(id, 0), id, Reserved, o);
  }

  /** The saga as planned, from every reachable state where an order waits for its charge. */
  lemma InOrderIsAccepted(steps: seq<Step>, o: OrderId, id: EventId, provider: Payments.Provider)
    requires Waiting(Run(steps), o, id) && Captures(Run(steps), id, provider)
    ensures Ends(Run(steps + InOrder(Run(steps), id, provider)), o, CONFIRMED, Payments.SUCCEEDED, Inventory.COMMITTED)
    ensures Names(Run(steps + InOrder(Run(steps), id, provider)), id, Reserved, o)
  {
    var result := NextResult(Run(steps));
    var s2 := steps + [PaymentHandles(id, provider)] + [OrderHandles(id, 0)];
    var s3 := s2 + [OrderHandles(result, 0)];
    var s4 := s3 + [InventoryHandles(result, 0)];
    ChargeAndReserve(steps, o, id, provider);
    OrderDelivery(s2, result, Succeeded, o);
    NamesOnward(s2, OrderHandles(result, 0), result, Succeeded, o);
    NamesOnward(s2, OrderHandles(result, 0), id, Reserved, o);
    InventoryDelivery(s3, result, Succeeded, o);
    NamesOnward(s3, InventoryHandles(result, 0), id, Reserved, o);
    DoneView();
    EndsAt(s4, o, View(Run(s4), o));
    InOneGo(steps, PaymentHandles(id, provider), OrderHandles(id, 0), OrderHandles(result, 0), InventoryHandles(result, 0));
  }
}
