/** The fourth way agreement is lost: a retry that succeeds after the order has failed. */
module SagaLateRetry {
  import opened Prelude
  import opened Events
  import opened OrderStatuses
  import opened SagaAutomaton
  import opened SagaSystem
  import opened SagaViews
  import opened SagaProjection
  import opened SagaSimulation
  import opened SagaRuns
  import opened SagaTheorems
  import opened SagaDisturbances
  import Inventory
  import Orders
  import Payments

  /** Declined, failed and released. */
  const LET_GO: Local := Local(
    true, FAILED, {Reserved, Declined}, {Kind.Created, Declined}, {Reserved}, Some(Inventory.RELEASED),
    Some(Payments.FAILED), 1, 1, 1, false, 1, 0, 0, 1, false, false)

  lemma LetGoView()
    ensures InventorySeesFailure(OrderSeesDeclined(OrderSeesReserved(PaymentSeesReserved(WAITING, false))), Declined) == LET_GO
  {
  }

  /** The decline reaches an order that knows of its reservation: it fails, and says so. */
  lemma DeclinePublishes(db: Orders.Db, e: Event)
    requires e.PaymentFailed? && e.order < |db.orders| && db.orders[e.order].status == INVENTORY_RESERVED
    ensures var next := Orders.Handle(db, e, 0).value;
      |next.outbox| == |db.outbox| + 1 && Is(next.outbox[|db.outbox|], Cancelled, e.order)
  {
  }

  lemma DeclineNames(steps: seq<Step>, id: EventId, o: OrderId)
    requires Names(Run(steps), id, Declined, o) && Declined !in View(Run(steps), o).orderSaw
    requires View(Run(steps), o).known && View(Run(steps), o).status == INVENTORY_RESERVED
    ensures Names(Run(steps + [OrderHandles(id, 0)]), NextOrderEvent(Run(steps)), Cancelled, o)
  {
    var sys := Run(steps);
    RunOrder(steps, id);
    NotSeenNotProcessed(BoxesOf(sys), sys.orders.processed, id, Declined, o);
    DeclinePublishes(sys.orders.tables, Lookup(BoxesOf(sys), id).value);
  }

  lemma SameOrderBox(steps: seq<Step>, id: EventId, provider: Payments.Provider)
    ensures NextOrderEvent(Run(steps + [PaymentHandles(id, provider)])) == NextOrderEvent(Run(steps))
  {
    RunPayment(steps, id, provider);
  }

  lemma ReservationPublishesNothing(steps: seq<Step>, id: EventId, o: OrderId)
    requires Names(Run(steps), id, Reserved, o)
    ensures NextOrderEvent(Run(steps + [OrderHandles(id, 0)])) == NextOrderEvent(Run(steps))
    ensures NextResult(Run(steps + [OrderHandles(id, 0)])) == NextResult(Run(steps))
  {
    RunOrder(steps, id);
  }

  /** The decline, and the reservation behind it. */
  lemma DeclineFirst(steps: seq<Step>, o: OrderId, id: EventId, provider: Payments.Provider)
    requires Waiting(Run(steps), o, id) && !Captures(Run(steps), id, provider)
    ensures var result := NextResult(Run(steps));
      var s2 := steps + [PaymentHandles(id, provider)] + [OrderHandles(id, 0)];
      && View(Run(s2), o) == OrderSeesReserved(PaymentSeesReserved(WAITING, false))
      && Names(Run(s2), result, Declined, o) && Names(Run(s2), id, Reserved, o)
      && NextOrderEvent(Run(s2)) == NextOrderEvent(Run(steps))
  {
    var result := NextResult(Run(steps));
    var s1 := steps + [PaymentHandles(id, provider)];
    PaymentCharge(steps, id, provider, o, false);
    PaymentChargeNames(steps, id, provider, o);
    NamesOnward(steps, PaymentHandles(id, provider), id, Reserved, o);
    SameOrderBox(steps, id, provider);
    OrderDelivery(s1, id, Reserved, o);
    NamesOnward(s1, OrderHandles(id, 0), result, Declined, o);
    NamesOnward(s1, OrderHandles(id, 0), id, Reserved, o);
    ReservationPublishesNothing(s1, id, o);
  }

  /** The first half of the story: declined, failed, released. */
  lemma Declining(steps: seq<Step>, o: OrderId, id: EventId, provider: Payments.Provider)
    requires Waiting(Run(steps), o, id) && !Captures(Run(steps), id, provider)
    ensures var result, cancel := NextResult(Run(steps)), NextOrderEvent(Run(steps));
      var s3 := steps + [PaymentHandles(id, provider)] + [OrderHandles(id, 0)] + [OrderHandles(result, 0)];
      && View(Run(s3), o) == OrderSeesDeclined(OrderSeesReserved(PaymentSeesReserved(WAITING, false)))
      && Names(Run(s3), result, Declined, o) && Names(Run(s3), cancel, Cancelled, o)
      && Names(Run(s3), id, Reserved, o)
  {
    var result := NextResult(Run(steps));
    var s2 := steps + [PaymentHandles(id, provider)] + [OrderHandles(id, 0)];
    DeclineFirst(steps, o, id, provider);
    OrderDelivery(s2, result, Declined, o);
    DeclineNames(s2, result, o);
    NamesOnward(s2, OrderHandles(result, 0), result, Declined, o);
    NamesOnward(s2, OrderHandles(result, 0), id, Reserved, o);
  }

  lemma ReservedAt(steps: seq<Step>, id: EventId)
    requires Lookup(BoxesOf(Run(steps)), id).Some?
    ensures ReservedMatches(Run(steps).orders.tables.orders, Lookup(BoxesOf(Run(steps)), id).value)
  {
    EveryRunKeepsInv(steps);
    ReservedIsOk(Run(steps), id);
  }

  /** The payment of a declined order is for the reservation's total, and its owner's. */
  lemma OwedAmount(steps: seq<Step>, o: OrderId, id: EventId)
    requires Names(Run(steps), id, Reserved, o) && o in Run(steps).payments.tables.payments
    ensures var e := Lookup(BoxesOf(Run(steps)), id).value; var p := Run(steps).payments.tables.payments[o];
      p.amount == e.total && p.user == e.user
  {
    PaymentAt(steps, o);
    ReservedAt(steps, id);
  }

  /** The customer tries again with the same card. */
  function RetryOf(sys: System, id: EventId, provider: Payments.Provider, o: OrderId): Step
    requires Names(sys, id, Reserved, o)
  {
    var e := Lookup(BoxesOf(sys), id).value;
    Retry(e.order, e.payment.token, e.user, provider)
  }

  lemma RetryCaptures(db: Payments.Db, step: Step)
    requires step.Retry? && step.order in db.payments
    requires var p := db.payments[step.order];
      && p.status == Payments.FAILED && p.user == step.caller
      && Payments.Charge(p.amount, step.token, step.provider).Captured?
    ensures var next := PaymentRequest(db, step);
      && |next.outbox| == |db.outbox| + 1 && Is(next.outbox[|db.outbox|], Succeeded, step.order)
      && db.outbox <= next.outbox
      && PaymentPartOf(next, step.order)
         == Attempted(PaymentPartOf(db, step.order), true, db.payments[step.order].attempts + 1)
  {
    var p := db.payments[step.order];
    var again := p.(attempts := p.attempts + 1, status := Payments.PENDING, failureCode := None, failureMessage := None);
    AttemptPart(db, step.order, again, step.token, step.provider, step.order);
  }

  lemma RetryMove(l: Local, p: PaymentPart)
    requires p == PaymentPart(l.payment, l.attempts, l.succeeded, l.declined)
    ensures WithPayment(l, Attempted(p, true, p.attempts + 1)) == SagaAutomaton.Retry(l, true)
  {
  }

  lemma LateCapture(steps: seq<Step>, o: OrderId, id: EventId, provider: Payments.Provider)
    requires Names(Run(steps), id, Reserved, o) && Captures(Run(steps), id, provider)
    requires View(Run(steps), o).payment == Some(Payments.FAILED)
    ensures var step := RetryOf(Run(steps), id, provider, o);
      && View(Run(steps + [step]), o) == SagaAutomaton.Retry(View(Run(steps), o), true)
      && Names(Run(steps + [step]), NextResult(Run(steps)), Succeeded, o)
  {
    var step := RetryOf(Run(steps), id, provider, o);
    var db := Run(steps).payments.tables;
    RunSnoc(steps, step);
    OwedAmount(steps, o, id);
    RetryCaptures(db, step);
    RunHandled(steps);
    PaymentRequestView(Run(steps), step, o);
    RetryMove(View(Run(steps), o), PaymentPartOf(db, o));
  }

  /** The late capture, known to everyone and acted on by no one. */
  const TOO_LATE: Local := Local(
    true, FAILED, {Reserved, Declined, Succeeded}, {Kind.Created, Declined, Succeeded}, {Reserved},
    Some(Inventory.RELEASED), Some(Payments.SUCCEEDED), 2, 1, 1, false, 1, 0, 1, 1, false, false)

  lemma TooLateView()
    ensures InventorySeesSucceeded(OrderSeesSucceeded(SagaAutomaton.Retry(LET_GO, true))) == TOO_LATE
  {
  }

  lemma LateCaptureIsDropped(steps: seq<Step>, o: OrderId, result: EventId, cancel: EventId)
    requires View(Run(steps), o) == SagaAutomaton.Retry(LET_GO, true)
    requires Names(Run(steps), result, Succeeded, o) && Names(Run(steps), cancel, Cancelled, o)
    ensures var s2 := steps + [OrderHandles(result, 0)] + [InventoryHandles(result, 0)];
      View(Run(s2), o) == TOO_LATE && Names(Run(s2), cancel, Cancelled, o)
  {
    var s1 := steps + [OrderHandles(result, 0)];
    OrderDelivery(steps, result, Succeeded, o);
    NamesOnward(steps, OrderHandles(result, 0), result, Succeeded, o);
    NamesOnward(steps, OrderHandles(result, 0), cancel, Cancelled, o);
    InventoryDelivery(s1, result, Succeeded, o);
    NamesOnward(s1, InventoryHandles(result, 0), cancel, Cancelled, o);
    TooLateView();
  }

  /** The second half: the cancellation that the decline caused settles too. */
  lemma LateCaptureSettles(steps: seq<Step>, o: OrderId, cancel: EventId, provider: Payments.Provider)
    requires View(Run(steps), o) == TOO_LATE && Names(Run(steps), cancel, Cancelled, o)
    ensures Ends(Run(steps + [InventoryHandles(cancel, 0)] + [PaymentHandles(cancel, provider)]),
                 o, FAILED, Payments.SUCCEEDED, Inventory.RELEASED)
  {
    var s1 := steps + [InventoryHandles(cancel, 0)];
    var s2 := s1 + [PaymentHandles(cancel, provider)];
    InventoryDelivery(steps, cancel, Cancelled, o);
    NamesOnward(steps, InventoryHandles(cancel, 0), cancel, Cancelled, o);
    PaymentCancellation(s1, cancel, provider, o);
    EndsAt(s2, o, View(Run(s2), o));
  }

  /** A decline, and everything that follows from it. */
  function DeclineOf(sys: System, id: EventId, declines: Payments.Provider): seq<Step> {
    [PaymentHandles(id, declines), OrderHandles(id, 0), OrderHandles(NextResult(sys), 0),
     InventoryHandles(NextResult(sys), 0)]
  }

  lemma DeclineLetsGo(steps: seq<Step>, o: OrderId, id: EventId, declines: Payments.Provider)
    requires Waiting(Run(steps), o, id) && !Captures(Run(steps), id, declines)
    ensures var s4 := steps + DeclineOf(Run(steps), id, declines);
      && View(Run(s4), o) == LET_GO
      && Names(Run(s4), id, Reserved, o) && Names(Run(s4), NextOrderEvent(Run(steps)), Cancelled, o)
  {
    var result, cancel := NextResult(Run(steps)), NextOrderEvent(Run(steps));
    var s3 := steps + [PaymentHandles(id, declines)] + [OrderHandles(id, 0)] + [OrderHandles(result, 0)];
    Declining(steps, o, id, declines);
    InventoryDelivery(s3, result, Declined, o);
    NamesOnward(s3, InventoryHandles(result, 0), id, Reserved, o);
    NamesOnward(s3, InventoryHandles(result, 0), cancel, Cancelled, o);
    LetGoView();
    InOneGo(steps, PaymentHandles(id, declines), OrderHandles(id, 0), OrderHandles(result, 0), InventoryHandles(result, 0));
  }

  /** The same charge would still be captured. */
  lemma StillCaptures(steps: seq<Step>, id: EventId, result: EventId, declines: Payments.Provider,
                      accepts: Payments.Provider, o: OrderId)
    requires Names(Run(steps), id, Reserved, o) && Captures(Run(steps), id, accepts)
    ensures Captures(Run(steps + [PaymentHandles(id, declines), OrderHandles(id, 0), OrderHandles(result, 0),
                                  InventoryHandles(result, 0)]), id, accepts)
  {
    var s1 := steps + [PaymentHandles(id, declines)];
    var s2 := s1 + [OrderHandles(id, 0)];
    var s3 := s2 + [OrderHandles(result, 0)];
    SameCapture(steps, PaymentHandles(id, declines), id, accepts, o);
    NamesOnward(steps, PaymentHandles(id, declines), id, Reserved, o);
    SameCapture(s1, OrderHandles(id, 0), id, accepts, o);
    NamesOnward(s1, OrderHandles(id, 0), id, Reserved, o);
    SameCapture(s2, OrderHandles(result, 0), id, accepts, o);
    NamesOnward(s2, OrderHandles(result, 0), id, Reserved, o);
    SameCapture(s3, InventoryHandles(result, 0), id, accepts, o);
    InOneGo(steps, PaymentHandles(id, declines), OrderHandles(id, 0), OrderHandles(result, 0), InventoryHandles(result, 0));
  }

  /** The retry is captured, and the cancellation is still on its way. */
  lemma RetryAfterDecline(steps: seq<Step>, o: OrderId, id: EventId, declines: Payments.Provider, accepts: Payments.Provider)
    requires Waiting(Run(steps), o, id) && !Captures(Run(steps), id, declines)
    requires Captures(Run(steps), id, accepts)
    ensures var s4 := steps + DeclineOf(Run(steps), id, declines);
      && Names(Run(s4), id, Reserved, o)
      && View(Run(s4 + [RetryOf(Run(s4), id, accepts, o)]), o) == SagaAutomaton.Retry(LET_GO, true)
      && Names(Run(s4 + [RetryOf(Run(s4), id, accepts, o)]), NextResult(Run(s4)), Succeeded, o)
      && Names(Run(s4 + [RetryOf(Run(s4), id, accepts, o)]), NextOrderEvent(Run(steps)), Cancelled, o)
  {
    var s4 := steps + DeclineOf(Run(steps), id, declines);
    DeclineLetsGo(steps, o, id, declines);
    StillCaptures(steps, id, NextResult(Run(steps)), declines, accepts, o);
    LateCapture(s4, o, id, accepts);
    NamesOnward(s4, RetryOf(Run(s4), id, accepts, o), NextOrderEvent(Run(steps)), Cancelled, o);
  }

  /** Everyone hears of the late capture, and then of the cancellation. */
  lemma LateCaptureIsKept(steps: seq<Step>, o: OrderId, result: EventId, cancel: EventId, provider: Payments.Provider)
    requires View(Run(steps), o) == SagaAutomaton.Retry(LET_GO, true)
    requires Names(Run(steps), result, Succeeded, o) && Names(Run(steps), cancel, Cancelled, o)
    ensures Ends(Run(steps + [OrderHandles(result, 0)] + [InventoryHandles(result, 0)] + [InventoryHandles(cancel, 0)]
                     + [PaymentHandles(cancel, provider)]),
                 o, FAILED, Payments.SUCCEEDED, Inventory.RELEASED)
  {
    LateCaptureIsDropped(steps, o, result, cancel);
    LateCaptureSettles(steps + [OrderHandles(result, 0)] + [InventoryHandles(result, 0)], o, cancel, provider);
  }

  /** A retry after the decline has been acted on: the money is taken for a failed order whose stock is
      back on sale, and nothing will refund it. */
  lemma LateRetryIsNotUndone(steps: seq<Step>, o: OrderId, id: EventId, declines: Payments.Provider, accepts: Payments.Provider)
    requires Waiting(Run(steps), o, id) && !Captures(Run(steps), id, declines)
    requires Captures(Run(steps), id, accepts)
    ensures var s4 := steps + DeclineOf(Run(steps), id, declines);
      var cancel, result := NextOrderEvent(Run(steps)), NextResult(Run(s4));
      && Names(Run(s4), id, Reserved, o)
      && Ends(Run(s4 + [RetryOf(Run(s4), id, accepts, o)] + [OrderHandles(result, 0)] + [InventoryHandles(result, 0)]
                  + [InventoryHandles(cancel, 0)] + [PaymentHandles(cancel, accepts)]),
              o, FAILED, Payments.SUCCEEDED, Inventory.RELEASED)
  {
    var s4 := steps + DeclineOf(Run(steps), id, declines);
    RetryAfterDecline(steps, o, id, declines, accepts);
    LateCaptureIsKept(s4 + [RetryOf(Run(s4), id, accepts, o)], o, NextResult(Run(s4)), NextOrderEvent(Run(steps)), accepts);
  }
}
