/** Three of the ways agreement is lost, each from every reachable state in which an order waits for its
    charge: the conditions of `SagaTheorems.AgreementIff` cannot be dropped. */
module SagaDisturbances {
  import opened Prelude
  import opened Events
  import opened OrderStatuses
  import opened SagaAutomaton
  import opened SagaSystem
  import opened SagaViews
  import opened SagaProjection
  import opened SagaSimulation
  import opened SagaRuns
  import opened SagaTheorems
  import Delivery
  import Inventory
  import InventoryInvariants
  import Orders
  import OrderInvariants
  import Payments

  // ------------------------------------------------------------ what each delivery does, exactly

  function OrderSeesKind(l: Local, k: Kind): Local {
    match k
    case Reserved => OrderSeesReserved(l)
    case Refused => OrderSeesRefused(l)
    case Succeeded => OrderSeesSucceeded(l)
    case _ => OrderSeesDeclined(l)
  }

  function InventorySeesKind(l: Local, k: Kind): Local {
    match k
    case Succeeded => InventorySeesSucceeded(l)
    case _ => InventorySeesFailure(l, k)
  }

  /** `id` is an event of kind `k` about `o`. */
  predicate Names(sys: System, id: EventId, k: Kind, o: OrderId) {
    Lookup(BoxesOf(sys), id).Some? && Is(Lookup(BoxesOf(sys), id).value, k, o)
  }

  lemma NamesStays(a: System, b: System, id: EventId, k: Kind, o: OrderId)
    requires Names(a, id, k, o) && Extends(BoxesOf(a), BoxesOf(b))
    ensures Names(b, id, k, o) && Lookup(BoxesOf(b), id) == Lookup(BoxesOf(a), id)
  {
    KindsStay(BoxesOf(a), BoxesOf(b), id, o);
  }

  lemma NotSeenNotProcessed(b: Boxes, processed: seq<EventId>, id: EventId, k: Kind, o: OrderId)
    requires Lookup(b, id).Some? && Is(Lookup(b, id).value, k, o) && k !in Seen(b, processed, o)
    ensures id !in processed
  {
    if id in processed {
      SeenContains(b, processed, id, k, o);
    }
  }

  /** Names carry over to longer runs. */
  lemma NamesOnward(steps: seq<Step>, step: Step, id: EventId, k: Kind, o: OrderId)
    requires Names(Run(steps), id, k, o)
    ensures Names(Run(steps + [step]), id, k, o)
  {
    RunSnoc(steps, step);
    EveryRunKeepsInv(steps);
    NextExtends(Run(steps), step);
    NamesStays(Run(steps), Run(steps + [step]), id, k, o);
  }

  // The exact view lemmas of `SagaSimulation`, stated of runs.

  lemma RunKnown(steps: seq<Step>, id: EventId, k: Kind, o: OrderId)
    requires Names(Run(steps), id, k, o) && k != Confirmed && k != Refunded
    ensures View(Run(steps), o).known
  {
    EveryRunKeepsInv(steps);
    PublishedMeansKnown(Run(steps), id, o);
  }

  lemma RunHandled(steps: seq<Step>)
    ensures HandledIsPublished(Run(steps))
  {
    EveryRunKeepsInv(steps);
  }

  lemma RunOrderView(steps: seq<Step>, id: EventId, o: OrderId)
    requires Delivers(BoxesOf(Run(steps)), Run(steps).orders.processed, id)
    requires Orders.Subscribes(KindOf(Lookup(BoxesOf(Run(steps)), id).value))
    requires Lookup(BoxesOf(Run(steps)), id).value.order == o
    ensures var e := Lookup(BoxesOf(Run(steps)), id).value; var l := View(Run(steps), o);
      View(OrderConsumes(Run(steps), id, 0), o)
      == WithOrder(l, OrderPartOf(Orders.Handle(Run(steps).orders.tables, e, 0).value, o))
         .(orderSaw := l.orderSaw + {KindOf(e)},
           overtaken := l.overtaken || (KindOf(e) == Succeeded && Reserved !in l.orderSaw))
  {
    RunHandled(steps);
    OrderConsumesView(Run(steps), id, 0, o);
  }

  lemma RunInventoryView(steps: seq<Step>, id: EventId, o: OrderId)
    requires Delivers(BoxesOf(Run(steps)), Run(steps).inventory.processed, id)
    requires Inventory.Subscribes(KindOf(Lookup(BoxesOf(Run(steps)), id).value))
    requires Lookup(BoxesOf(Run(steps)), id).value.order == o
    requires Inventory.Handle(Run(steps).inventory.tables, Lookup(BoxesOf(Run(steps)), id).value, 0).Some?
    ensures var e := Lookup(BoxesOf(Run(steps)), id).value; var l := View(Run(steps), o);
      View(InventoryConsumes(Run(steps), id, 0), o)
      == WithInventory(l, InventoryPartOf(Inventory.Handle(Run(steps).inventory.tables, e, 0).value, o))
         .(inventorySaw := l.inventorySaw + {KindOf(e)},
           premature := l.premature || (KindOf(e) == Cancelled && Kind.Created !in l.inventorySaw))
  {
    RunHandled(steps);
    InventoryConsumesView(Run(steps), id, 0, o);
  }

  lemma RunPaymentsOk(steps: seq<Step>, id: EventId, provider: Payments.Provider)
    requires Lookup(BoxesOf(Run(steps)), id).Some?
    ensures Payments.Inv(Run(steps).payments.tables)
    ensures Payments.Handle(Run(steps).payments.tables, Lookup(BoxesOf(Run(steps)), id).value, provider).Some?
  {
    EveryRunKeepsInv(steps);
    HandlersNeverRaise(Run(steps), id, 0, provider);
  }

  lemma RunPaymentView(steps: seq<Step>, id: EventId, provider: Payments.Provider, o: OrderId)
    requires Delivers(BoxesOf(Run(steps)), Run(steps).payments.processed, id)
    requires Payments.Subscribes(KindOf(Lookup(BoxesOf(Run(steps)), id).value))
    requires Lookup(BoxesOf(Run(steps)), id).value.order == o
    ensures var e := Lookup(BoxesOf(Run(steps)), id).value; var l := View(Run(steps), o);
      && Payments.Handle(Run(steps).payments.tables, e, provider).Some?
      && View(PaymentConsumes(Run(steps), id, provider), o)
         == WithPayment(l, PaymentPartOf(Payments.Handle(Run(steps).payments.tables, e, provider).value, o))
            .(paymentSaw := l.paymentSaw + {KindOf(e)})
  {
    RunHandled(steps);
    RunPaymentsOk(steps, id, provider);
    PaymentConsumesView(Run(steps), id, provider, o);
  }

  lemma OrderSeesExactly(l: Local, k: Kind, p: OrderPart)
    requires Orders.Subscribes(k) && OrderStep(OrderPartIn(l), k, p)
    ensures WithOrder(l, p).(orderSaw := l.orderSaw + {k},
                             overtaken := l.overtaken || (k == Succeeded && Reserved !in l.orderSaw))
         == OrderSeesKind(l, k)
  {
  }

  lemma InventorySeesExactly(l: Local, k: Kind, p: InventoryPart)
    requires Inventory.Subscribes(k) && k != Kind.Created && InventoryStep(InventoryPartIn(l), k, p)
    ensures WithInventory(l, p).(inventorySaw := l.inventorySaw + {k},
                                 premature := l.premature || (k == Cancelled && Kind.Created !in l.inventorySaw))
         == InventorySeesKind(l, k)
  {
  }

  /** A first delivery to the order service. */
  lemma OrderDelivery(steps: seq<Step>, id: EventId, k: Kind, o: OrderId)
    requires Names(Run(steps), id, k, o) && Orders.Subscribes(k) && k !in View(Run(steps), o).orderSaw
    ensures View(Run(steps + [OrderHandles(id, 0)]), o) == OrderSeesKind(View(Run(steps), o), k)
  {
    var sys := Run(steps);
    var e := Lookup(BoxesOf(sys), id).value;
    RunOrder(steps, id);
    NotSeenNotProcessed(BoxesOf(sys), sys.orders.processed, id, k, o);
    RunKnown(steps, id, k, o);
    OrderHandleGrows(sys.orders.tables, e, 0);
    OrderHandlePart(sys.orders.tables, e, 0, o);
    RunOrderView(steps, id, o);
    OrderSeesExactly(View(sys, o), k, OrderPartOf(Orders.Handle(sys.orders.tables, e, 0).value, o));
  }

  /** A first delivery to inventory of anything but the creation. */
  lemma InventoryDelivery(steps: seq<Step>, id: EventId, k: Kind, o: OrderId)
    requires Names(Run(steps), id, k, o) && Inventory.Subscribes(k) && k != Kind.Created
    requires k !in View(Run(steps), o).inventorySaw
    ensures View(Run(steps + [InventoryHandles(id, 0)]), o) == InventorySeesKind(View(Run(steps), o), k)
  {
    var sys := Run(steps);
    var e := Lookup(BoxesOf(sys), id).value;
    RunInventory(steps, id);
    NotSeenNotProcessed(BoxesOf(sys), sys.inventory.processed, id, k, o);
    InventoryHandlePart(sys.inventory.tables, e, 0, o);
    RunInventoryView(steps, id, o);
    InventorySeesExactly(View(sys, o), k, InventoryPartOf(Inventory.Handle(sys.inventory.tables, e, 0).value, o));
  }

  lemma RunPaymentPart(steps: seq<Step>, e: Event, provider: Payments.Provider, o: OrderId)
    requires e.OrderCancelled? && e.order == o && Payments.Handle(Run(steps).payments.tables, e, provider).Some?
    ensures var p := PaymentPartOf(Run(steps).payments.tables, o);
      PaymentPartOf(Payments.Handle(Run(steps).payments.tables, e, provider).value, o)
      == if e.wasPaid && p.payment == Some(Payments.SUCCEEDED) then p.(payment := Some(Payments.REFUNDED)) else p
  {
    EveryRunKeepsInv(steps);
    PaymentHandlePart(Run(steps).payments.tables, e, provider, o);
  }

  lemma RunPaidFlag(steps: seq<Step>, id: EventId, o: OrderId)
    requires Names(Run(steps), id, Cancelled, o)
    ensures View(Run(steps), o).cancelledPaid == Lookup(BoxesOf(Run(steps)), id).value.wasPaid
  {
    EveryRunKeepsInv(steps);
    ProducerIsRight(BoxesOf(Run(steps)), id);
    PublishedMeansKnown(Run(steps), id, o);
    PaidCancelIs(BoxesOf(Run(steps)).orders, id.index, o);
  }

  /** A cancellation reaches payment. */
  lemma PaymentCancellation(steps: seq<Step>, id: EventId, provider: Payments.Provider, o: OrderId)
    requires Names(Run(steps), id, Cancelled, o) && Cancelled !in View(Run(steps), o).paymentSaw
    ensures View(Run(steps + [PaymentHandles(id, provider)]), o) == PaymentSeesCancelled(View(Run(steps), o))
  {
    var sys := Run(steps);
    RunPayment(steps, id, provider);
    NotSeenNotProcessed(BoxesOf(sys), sys.payments.processed, id, Cancelled, o);
    RunPaidFlag(steps, id, o);
    RunPaymentView(steps, id, provider, o);
    RunPaymentPart(steps, Lookup(BoxesOf(sys), id).value, provider, o);
  }

  /** Does the provider capture the reservation's total? */
  predicate Captures(sys: System, id: EventId, provider: Payments.Provider) {
    var e := Lookup(BoxesOf(sys), id);
    e.Some? && e.value.InventoryReserved? && Payments.Charge(e.value.total, e.value.payment.token, provider).Captured?
  }

  /** The id that payment's next event will have. */
  function NextResult(sys: System): EventId {
    EventId(PaymentSide, |sys.payments.tables.outbox|)
  }

  /** The id that the order service's next event will have. */
  function NextOrderEvent(sys: System): EventId {
    EventId(OrderSide, |sys.orders.tables.outbox|)
  }

  lemma PaymentChargePublishes(sys: System, id: EventId, provider: Payments.Provider, o: OrderId)
    requires Names(sys, id, Reserved, o) && o !in sys.payments.tables.payments && id !in sys.payments.processed
    ensures Names(PaymentConsumes(sys, id, provider), NextResult(sys),
                  if Captures(sys, id, provider) then Succeeded else Declined, o)
  {
  }

  lemma NotYetCharged(steps: seq<Step>, id: EventId, o: OrderId)
    requires Names(Run(steps), id, Reserved, o) && View(Run(steps), o).payment == None
    ensures id !in Run(steps).payments.processed
  {
    LocalAt(steps, o);
    NotSeenNotProcessed(BoxesOf(Run(steps)), Run(steps).payments.processed, id, Reserved, o);
  }

  lemma RunAttempt(steps: seq<Step>, id: EventId, provider: Payments.Provider, o: OrderId)
    requires Names(Run(steps), id, Reserved, o) && o !in Run(steps).payments.tables.payments
    ensures var e := Lookup(BoxesOf(Run(steps)), id).value;
      && Payments.Handle(Run(steps).payments.tables, e, provider).Some?
      && PaymentPartOf(Payments.Handle(Run(steps).payments.tables, e, provider).value, o)
         == Attempted(PaymentPartOf(Run(steps).payments.tables, o), Captures(Run(steps), id, provider), 1)
  {
    var q := Payments.RequestOf(Lookup(BoxesOf(Run(steps)), id).value);
    AttemptPart(Run(steps).payments.tables, o, Payments.NewPayment(q), q.payment.token, provider, o);
  }

  lemma ChargeMove(l: Local, p: PaymentPart, captured: bool)
    requires p == PaymentPartIn(l)
    ensures WithPayment(l, Attempted(p, captured, 1)).(paymentSaw := l.paymentSaw + {Reserved})
         == PaymentSeesReserved(l, captured)
  {
  }

  lemma RunChargeView(steps: seq<Step>, id: EventId, provider: Payments.Provider, o: OrderId)
    requires Names(Run(steps), id, Reserved, o) && View(Run(steps), o).payment == None
    ensures View(PaymentConsumes(Run(steps), id, provider), o)
         == PaymentSeesReserved(View(Run(steps), o), Captures(Run(steps), id, provider))
  {
    NotYetCharged(steps, id, o);
    RunAttempt(steps, id, provider, o);
    RunPaymentView(steps, id, provider, o);
    ChargeMove(View(Run(steps), o), PaymentPartOf(Run(steps).payments.tables, o), Captures(Run(steps), id, provider));
  }

  /** The reservation reaches payment, which charges. */
  lemma PaymentCharge(steps: seq<Step>, id: EventId, provider: Payments.Provider, o: OrderId, captured: bool)
    requires Names(Run(steps), id, Reserved, o) && View(Run(steps), o).payment == None
    requires captured == Captures(Run(steps), id, provider)
    ensures View(Run(steps + [PaymentHandles(id, provider)]), o) == PaymentSeesReserved(View(Run(steps), o), captured)
  {
    var sys := Run(steps);
    RunChargeView(steps, id, provider, o);
    var next := PaymentConsumes(sys, id, provider);
    assert View(next, o) == PaymentSeesReserved(View(sys, o), captured);
    RunPayment(steps, id, provider);
  }

  /** The charge's result is payment's next event. */
  lemma PaymentChargeNames(steps: seq<Step>, id: EventId, provider: Payments.Provider, o: OrderId)
    requires Names(Run(steps), id, Reserved, o) && View(Run(steps), o).payment == None
    ensures Names(Run(steps + [PaymentHandles(id, provider)]), NextResult(Run(steps)),
                  if Captures(Run(steps), id, provider) then Succeeded else Declined, o)
  {
    RunPayment(steps, id, provider);
    NotYetCharged(steps, id, o);
    PaymentChargePublishes(Run(steps), id, provider, o);
    assert Names(PaymentConsumes(Run(steps), id, provider), NextResult(Run(steps)),
                 if Captures(Run(steps), id, provider) then Succeeded else Declined, o);
  }

  // ------------------------------------------------------------ quiet means quiescent

  /** An event that is the only one of its kind and has been seen has been handled under its own id. */
  lemma SeenIsHandled(b: Boxes, processed: seq<EventId>, id: EventId, k: Kind, o: OrderId)
    requires Produced(b) && Lookup(b, id).Some? && Is(Lookup(b, id).value, k, o)
    requires Count(Box(b, ProducerOf(k)), k, o) <= 1 && k in Seen(b, processed, o)
    ensures id in processed
  {
    if id !in processed {
      FirstSight(b, processed, id, k, o);
    }
  }

  lemma OnlyOneOf(l: Local, k: Kind)
    requires LocalInv(l) && l.declined <= 1
    ensures l.created <= 1 && l.cancelled <= 1 && l.reserved <= 1 && l.refused <= 1 && l.succeeded <= 1
  {
  }

  /** An event of a kind there is one of, seen by everyone it is for, is settled. */
  lemma SeenIsSettled(sys: System, id: EventId, k: Kind, o: OrderId)
    requires Produced(BoxesOf(sys)) && Names(sys, id, k, o) && Count(Box(BoxesOf(sys), ProducerOf(k)), k, o) <= 1
    requires Orders.Subscribes(k) ==> k in View(sys, o).orderSaw
    requires Inventory.Subscribes(k) ==> k in View(sys, o).inventorySaw
    requires Payments.Subscribes(k) ==> k in View(sys, o).paymentSaw
    ensures Settled(sys, id)
  {
    var b := BoxesOf(sys);
    if Orders.Subscribes(k) { SeenIsHandled(b, sys.orders.processed, id, k, o); }
    if Inventory.Subscribes(k) { SeenIsHandled(b, sys.inventory.processed, id, k, o); }
    if Payments.Subscribes(k) { SeenIsHandled(b, sys.payments.processed, id, k, o); }
  }

  /** What a quiet local state says of one kind. */
  lemma QuietSees(sys: System, id: EventId, k: Kind, o: OrderId)
    requires Produced(BoxesOf(sys)) && LocalsOk(sys) && Names(sys, id, k, o) && k != Confirmed && k != Refunded
    requires Quiet(View(sys, o)) && View(sys, o).declined <= 1
    ensures Count(Box(BoxesOf(sys), ProducerOf(k)), k, o) <= 1
    ensures Orders.Subscribes(k) ==> k in View(sys, o).orderSaw
    ensures Inventory.Subscribes(k) ==> k in View(sys, o).inventorySaw
    ensures Payments.Subscribes(k) ==> k in View(sys, o).paymentSaw
  {
    OnlyOneOf(View(sys, o), k);
    PublishedMeansKnown(sys, id, o);
  }

  lemma QuietIsQuiescent(sys: System, o: OrderId)
    requires Produced(BoxesOf(sys)) && LocalsOk(sys) && Quiet(View(sys, o)) && View(sys, o).declined <= 1
    ensures Quiescent(sys, o)
  {
    forall id: EventId |
      Lookup(BoxesOf(sys), id).Some? && Is(Lookup(BoxesOf(sys), id).value, KindOf(Lookup(BoxesOf(sys), id).value), o)
      ensures Settled(sys, id)
    {
      var k := KindOf(Lookup(BoxesOf(sys), id).value);
      if k != Confirmed && k != Refunded {
        QuietSees(sys, id, k, o);
        SeenIsSettled(sys, id, k, o);
      }
    }
  }

  // ------------------------------------------------------------ where every story starts

  const WAITING: Local := Local(
    true, PENDING, {}, {Kind.Created}, {}, Some(Inventory.HELD), None, 0, 1, 0, false, 1, 0, 0, 0,
    false, false)

  /** Order `o` is PENDING, its stock is held, and nobody has handled `id`, the reservation, yet. */
  predicate Waiting(sys: System, o: OrderId, id: EventId) {
    View(sys, o) == WAITING && Names(sys, id, Reserved, o)
  }

  /** What the three databases say about the order, with every event about it settled. */
  ghost predicate Ends(sys: System, o: OrderId, status: OrderStatus, payment: PaymentStatus,
                       reservation: Inventory.ReservationStatus) {
    && Quiescent(sys, o)
    && o < |sys.orders.tables.orders|
    && StatusOf(sys, o) == status
    && PaymentStatusOf(sys, o) == Some(payment)
    && HeldStatusOf(sys, o) == Some(reservation)
  }

  lemma EndsAt(steps: seq<Step>, o: OrderId, l: Local)
    requires l == View(Run(steps), o) && Quiet(l) && l.declined <= 1
    requires l.known && l.payment.Some? && l.reservation.Some?
    ensures Ends(Run(steps), o, l.status, l.payment.value, l.reservation.value)
  {
    EveryRunKeepsInv(steps);
    QuietIsQuiescent(Run(steps), o);
  }

  lemma InOneGo(steps: seq<Step>, a: Step, b: Step, c: Step, d: Step)
    ensures steps + [a, b, c, d] == steps + [a] + [b] + [c] + [d]
  {
  }

  // ------------------------------------------------------------ the capture overtakes the reservation

  /** The order service hears of the capture first, and of the reservation second. */
  function Overtaking(sys: System, id: EventId, provider: Payments.Provider): seq<Step> {
    [PaymentHandles(id, provider), OrderHandles(NextResult(sys), 0), OrderHandles(id, 0),
     InventoryHandles(NextResult(sys), 0)]
  }

  /** Delivery order alone: the order service drops a capture that reaches it while the order is
      PENDING, and the order is stuck with its money taken and its stock deducted. */
  lemma OvertakingCaptureIsLost(steps: seq<Step>, o: OrderId, id: EventId, provider: Payments.Provider)
    requires Waiting(Run(steps), o, id) && Captures(Run(steps), id, provider)
    ensures Ends(Run(steps + Overtaking(Run(steps), id, provider)), o,
                 INVENTORY_RESERVED, Payments.SUCCEEDED, Inventory.COMMITTED)
  {
    var result := NextResult(Run(steps));
    var s1 := steps + [PaymentHandles(id, provider)];
    var s2 := s1 + [OrderHandles(result, 0)];
    var s3 := s2 + [OrderHandles(id, 0)];
    var s4 := s3 + [InventoryHandles(result, 0)];
    InOneGo(steps, PaymentHandles(id, provider), OrderHandles(result, 0), OrderHandles(id, 0), InventoryHandles(result, 0));
    PaymentCharge(steps, id, provider, o, true);
    PaymentChargeNames(steps, id, provider, o);
    NamesOnward(steps, PaymentHandles(id, provider), id, Reserved, o);
    OrderDelivery(s1, result, Succeeded, o);
    NamesOnward(s1, OrderHandles(result, 0), id, Reserved, o);
    NamesOnward(s1, OrderHandles(result, 0), result, Succeeded, o);
    OrderDelivery(s2, id, Reserved, o);
    NamesOnward(s2, OrderHandles(id, 0), result, Succeeded, o);
    InventoryDelivery(s3, result, Succeeded, o);
    EndsAt(s4, o, View(Run(s4), o));
  }

  /** The run has settled everything about the order, and the services disagree about it. */
  ghost predicate Disagrees(steps: seq<Step>, o: OrderId) {
    Quiescent(Run(steps), o) && o < |Run(steps).orders.tables.orders| && !ServicesAgree(Run(steps), o)
  }

  /** From any calm run with an order waiting for its charge, a calm continuation settles everything
      and leaves the services in disagreement. */
  lemma CalmRunsCanDisagree(steps: seq<Step>, o: OrderId, id: EventId, provider: Payments.Provider) returns (r: seq<Step>)
    requires AllCalm(steps, o) && Waiting(Run(steps), o, id) && Captures(Run(steps), id, provider)
    ensures steps <= r && AllCalm(r, o) && Disagrees(r, o)
  {
    r := steps + Overtaking(Run(steps), id, provider);
    OvertakingCaptureIsLost(steps, o, id, provider);
    CalmAppend(steps, Overtaking(Run(steps), id, provider), o);
  }

  lemma CalmAppend(steps: seq<Step>, more: seq<Step>, o: OrderId)
    requires AllCalm(steps, o) && AllCalm(more, o)
    ensures AllCalm(steps + more, o)
  {
  }

  // ------------------------------------------------------------ a cancellation races the charge

  /** Cancelling a PENDING order. */
  lemma PendingCancellation(steps: seq<Step>, o: OrderId, reason: string)
    requires View(Run(steps), o).known && View(Run(steps), o).status == PENDING
    ensures View(Run(steps + [CancelOrder(o, 0, true, reason, 0)]), o) == Cancel(View(Run(steps), o))
    ensures Names(Run(steps + [CancelOrder(o, 0, true, reason, 0)]), NextOrderEvent(Run(steps)), Cancelled, o)
  {
    var db := Run(steps).orders.tables;
    var step := CancelOrder(o, 0, true, reason, 0);
    RunSnoc(steps, step);
    CancelPart(db, o, reason, "admin", 0, o);
    RunHandled(steps);
    OrderRequestView(Run(steps), step, o);
    CancelPublishes(db, o, reason);
  }

  lemma CancelPublishes(db: Orders.Db, o: OrderId, reason: string)
    requires o < |db.orders| && db.orders[o].status == PENDING
    ensures var next := OrderRequest(db, CancelOrder(o, 0, true, reason, 0));
      && next == Orders.Cancel(db, o, reason, "admin", 0)
      && |next.outbox| == |db.outbox| + 1 && Is(next.outbox[|db.outbox|], Cancelled, o)
  {
  }

  /** The customer cancels, and then the charge that was on its way goes through. */
  function Racing(sys: System, o: OrderId, id: EventId, reason: string, provider: Payments.Provider): seq<Step> {
    [CancelOrder(o, 0, true, reason, 0), PaymentHandles(id, provider), OrderHandles(id, 0),
     OrderHandles(NextResult(sys), 0)]
    + [InventoryHandles(NextOrderEvent(sys), 0), InventoryHandles(NextResult(sys), 0),
       PaymentHandles(NextOrderEvent(sys), provider)]
  }

  lemma ThreeMore(steps: seq<Step>, four: seq<Step>, a: Step, b: Step, c: Step)
    ensures steps + (four + [a, b, c]) == steps + four + [a] + [b] + [c]
  {
  }

  lemma RequestsPublishNothingElse(steps: seq<Step>, o: OrderId, reason: string)
    ensures NextResult(Run(steps + [CancelOrder(o, 0, true, reason, 0)])) == NextResult(Run(steps))
    ensures forall id: EventId, provider | id.producer == InventorySide ::
      Captures(Run(steps + [CancelOrder(o, 0, true, reason, 0)]), id, provider) == Captures(Run(steps), id, provider)
  {
    RunSnoc(steps, CancelOrder(o, 0, true, reason, 0));
  }

  lemma RacingStart(steps: seq<Step>, o: OrderId, id: EventId, reason: string, provider: Payments.Provider)
    requires Waiting(Run(steps), o, id) && Captures(Run(steps), id, provider)
    ensures var s2 := steps + [CancelOrder(o, 0, true, reason, 0)] + [PaymentHandles(id, provider)];
      && View(Run(s2), o) == PaymentSeesReserved(Cancel(WAITING), true)
      && Names(Run(s2), id, Reserved, o)
      && Names(Run(s2), NextResult(Run(steps)), Succeeded, o)
      && Names(Run(s2), NextOrderEvent(Run(steps)), Cancelled, o)
  {
    var cancel := NextOrderEvent(Run(steps));
    var s1 := steps + [CancelOrder(o, 0, true, reason, 0)];
    RunProducer(steps, id);
    PendingCancellation(steps, o, reason);
    NamesOnward(steps, CancelOrder(o, 0, true, reason, 0), id, Reserved, o);
    RequestsPublishNothingElse(steps, o, reason);
    PaymentCharge(s1, id, provider, o, true);
    PaymentChargeNames(s1, id, provider, o);
    NamesOnward(s1, PaymentHandles(id, provider), id, Reserved, o);
    NamesOnward(s1, PaymentHandles(id, provider), cancel, Cancelled, o);
  }

  lemma RunProducer(steps: seq<Step>, id: EventId)
    requires Lookup(BoxesOf(Run(steps)), id).Some?
    ensures id.producer == ProducerOf(KindOf(Lookup(BoxesOf(Run(steps)), id).value))
  {
    EveryRunKeepsInv(steps);
    ProducerIsRight(BoxesOf(Run(steps)), id);
  }

  lemma RacingOrder(steps: seq<Step>, o: OrderId, id: EventId, result: EventId, cancel: EventId)
    requires View(Run(steps), o) == PaymentSeesReserved(Cancel(WAITING), true)
    requires Names(Run(steps), id, Reserved, o) && Names(Run(steps), result, Succeeded, o)
    requires Names(Run(steps), cancel, Cancelled, o)
    ensures var s2 := steps + [OrderHandles(id, 0)] + [OrderHandles(result, 0)];
      && View(Run(s2), o) == OrderSeesSucceeded(OrderSeesReserved(PaymentSeesReserved(Cancel(WAITING), true)))
      && Names(Run(s2), result, Succeeded, o) && Names(Run(s2), cancel, Cancelled, o)
  {
    var s1 := steps + [OrderHandles(id, 0)];
    OrderDelivery(steps, id, Reserved, o);
    NamesOnward(steps, OrderHandles(id, 0), result, Succeeded, o);
    NamesOnward(steps, OrderHandles(id, 0), cancel, Cancelled, o);
    OrderDelivery(s1, result, Succeeded, o);
    NamesOnward(s1, OrderHandles(result, 0), result, Succeeded, o);
    NamesOnward(s1, OrderHandles(result, 0), cancel, Cancelled, o);
  }

  /** Cancelled unpaid, charged all the same, and known so to the order service. */
  const RACED: Local := Local(
    true, CANCELLED, {Reserved, Succeeded}, {Kind.Created}, {Reserved}, Some(Inventory.HELD), Some(Payments.SUCCEEDED),
    1, 1, 1, false, 1, 0, 1, 0, false, false)

  lemma RacedView()
    ensures OrderSeesSucceeded(OrderSeesReserved(PaymentSeesReserved(Cancel(WAITING), true))) == RACED
  {
  }

  lemma RacingEnd(steps: seq<Step>, o: OrderId, result: EventId, cancel: EventId, provider: Payments.Provider)
    requires View(Run(steps), o) == RACED
    requires Names(Run(steps), result, Succeeded, o) && Names(Run(steps), cancel, Cancelled, o)
    ensures Ends(Run(steps + [InventoryHandles(cancel, 0)] + [InventoryHandles(result, 0)] + [PaymentHandles(cancel, provider)]),
                 o, CANCELLED, Payments.SUCCEEDED, Inventory.RELEASED)
  {
    var s1 := steps + [InventoryHandles(cancel, 0)];
    var s2 := s1 + [InventoryHandles(result, 0)];
    var s3 := s2 + [PaymentHandles(cancel, provider)];
    InventoryDelivery(steps, cancel, Cancelled, o);
    NamesOnward(steps, InventoryHandles(cancel, 0), result, Succeeded, o);
    NamesOnward(steps, InventoryHandles(cancel, 0), cancel, Cancelled, o);
    InventoryDelivery(s1, result, Succeeded, o);
    NamesOnward(s1, InventoryHandles(result, 0), cancel, Cancelled, o);
    PaymentCancellation(s2, cancel, provider, o);
    EndsAt(s3, o, View(Run(s3), o));
  }

  /** Cancelling an order whose charge is on its way leaves the money taken: the cancellation says the
      order was not paid, so nothing refunds it. */
  lemma CancellationRacesCharge(steps: seq<Step>, o: OrderId, id: EventId, reason: string, provider: Payments.Provider)
    requires Waiting(Run(steps), o, id) && Captures(Run(steps), id, provider)
    ensures Ends(Run(steps + Racing(Run(steps), o, id, reason, provider)), o,
                 CANCELLED, Payments.SUCCEEDED, Inventory.RELEASED)
  {
    var result, cancel := NextResult(Run(steps)), NextOrderEvent(Run(steps));
    var s2 := steps + [CancelOrder(o, 0, true, reason, 0)] + [PaymentHandles(id, provider)];
    RacingStart(steps, o, id, reason, provider);
    RacingOrder(s2, o, id, result, cancel);
    RacedView();
    RacingEnd(s2 + [OrderHandles(id, 0)] + [OrderHandles(result, 0)], o, result, cancel, provider);
    InOneGo(steps, CancelOrder(o, 0, true, reason, 0), PaymentHandles(id, provider), OrderHandles(id, 0),
            OrderHandles(result, 0));
    ThreeMore(steps, [CancelOrder(o, 0, true, reason, 0), PaymentHandles(id, provider), OrderHandles(id, 0),
                      OrderHandles(result, 0)],
              InventoryHandles(cancel, 0), InventoryHandles(result, 0), PaymentHandles(cancel, provider));
  }

  // ------------------------------------------------------------ expiry races the charge

  lemma {:induction false} StaleRowsBound(reservations: seq<Inventory.Reservation>, now: int)
    ensures |Inventory.StaleRows(reservations, now)| <= |reservations|
  {
    if |reservations| > 0 {
      StaleRowsBound(reservations[..|reservations| - 1], now);
    }
  }

  /** A batch with room for every stale row takes each of them. */
  lemma BatchTakesAll(reservations: seq<Inventory.Reservation>, now: int, limit: nat, i: nat)
    requires i < |reservations| && Inventory.IsStale(reservations[i], now) && |reservations| <= limit
    ensures Inventory.Stale(i, reservations[i].expiresAt) in Inventory.Batch(reservations, now, limit)
  {
    var rows := Inventory.StaleRows(reservations, now);
    InventoryInvariants.StaleRowsPicked(reservations, now);
    StaleRowsBound(reservations, now);
    SortByIsSort(rows, (row: Inventory.Stale) => row.expiresAt);
    assert Inventory.Stale(i, reservations[i].expiresAt) in multiset(rows);
  }

  /** A sweep with room for every reservation takes each one that is stale. */
  lemma SweepTakes(db: Inventory.Db, o: OrderId, now: int, limit: nat)
    requires Inventory.HasReservation(db, o) && Inventory.IsStale(Inventory.ReservationOf(db, o), now)
    requires |db.reservations| <= limit
    ensures ReservationStatusOf(Inventory.ExpireStale(db, now, limit), o) == Some(Inventory.EXPIRED)
  {
    var i := Inventory.Find(db.reservations, o);
    BatchTakesAll(db.reservations, now, limit, i);
    Inventory.BatchInRange(db.reservations, now, limit);
    InventoryInvariants.ExpireRowsTouch(db, Inventory.Batch(db.reservations, now, limit));
    InventoryInvariants.FindSame(db.reservations, Inventory.ExpireStale(db, now, limit).reservations, o);
  }

  /** Late enough for every reservation of `db` to be stale. */
  function Latest(reservations: seq<Inventory.Reservation>): (now: int)
    ensures forall i :: 0 <= i < |reservations| ==> reservations[i].expiresAt < now
  {
    if |reservations| == 0 then 0
    else
      var before := Latest(reservations[..|reservations| - 1]);
      var last := reservations[|reservations| - 1].expiresAt;
      if last < before then before else last + 1
  }

  /** The sweep that finds everything stale. */
  function LateSweep(sys: System): Step {
    Sweep(Latest(sys.inventory.tables.reservations), |sys.inventory.tables.reservations|)
  }

  lemma SweepExpires(steps: seq<Step>, o: OrderId)
    requires View(Run(steps), o).reservation == Some(Inventory.HELD)
    ensures View(Run(steps + [LateSweep(Run(steps))]), o) == Expire(View(Run(steps), o))
    ensures NextResult(Run(steps + [LateSweep(Run(steps))])) == NextResult(Run(steps))
  {
    var db := Run(steps).inventory.tables;
    var step := LateSweep(Run(steps));
    RunSnoc(steps, step);
    RunHandled(steps);
    InventoryRequestView(Run(steps), step, o);
    SweepPart(db, step.now, step.limit, o);
    SweepTakes(db, o, step.now, step.limit);
  }

  /** The hold runs out, and then the charge that was on its way goes through. */
  function Expiring(sys: System, id: EventId, provider: Payments.Provider): seq<Step> {
    [LateSweep(sys), PaymentHandles(id, provider), OrderHandles(id, 0), OrderHandles(NextResult(sys), 0)]
    + [InventoryHandles(NextResult(sys), 0)]
  }

  lemma OneMoreStep(steps: seq<Step>, four: seq<Step>, a: Step)
    ensures steps + (four + [a]) == steps + four + [a]
  {
  }

  lemma SameCapture(steps: seq<Step>, step: Step, id: EventId, provider: Payments.Provider, o: OrderId)
    requires Names(Run(steps), id, Reserved, o) && Captures(Run(steps), id, provider)
    ensures Captures(Run(steps + [step]), id, provider)
  {
    RunSnoc(steps, step);
    EveryRunKeepsInv(steps);
    NextExtends(Run(steps), step);
    NamesStays(Run(steps), Run(steps + [step]), id, Reserved, o);
  }

  /** An order whose hold expired before its charge ends up confirmed and paid, with its units back on
      sale and nothing deducted. */
  lemma ExpiryRacesCharge(steps: seq<Step>, o: OrderId, id: EventId, provider: Payments.Provider)
    requires Waiting(Run(steps), o, id) && Captures(Run(steps), id, provider)
    ensures Ends(Run(steps + Expiring(Run(steps), id, provider)), o, CONFIRMED, Payments.SUCCEEDED, Inventory.EXPIRED)
  {
    var sweep, result := LateSweep(Run(steps)), NextResult(Run(steps));
    var s1 := steps + [sweep];
    var s2 := s1 + [PaymentHandles(id, provider)];
    SweepExpires(steps, o);
    NamesOnward(steps, sweep, id, Reserved, o);
    SameCapture(steps, sweep, id, provider, o);
    PaymentCharge(s1, id, provider, o, true);
    PaymentChargeNames(s1, id, provider, o);
    NamesOnward(s1, PaymentHandles(id, provider), id, Reserved, o);
    ExpiringEnd(s2, o, id, result);
    InOneGo(steps, sweep, PaymentHandles(id, provider), OrderHandles(id, 0), OrderHandles(result, 0));
    OneMoreStep(steps, [sweep, PaymentHandles(id, provider), OrderHandles(id, 0), OrderHandles(result, 0)],
                InventoryHandles(result, 0));
  }

  lemma ExpiringEnd(steps: seq<Step>, o: OrderId, id: EventId, result: EventId)
    requires View(Run(steps), o) == PaymentSeesReserved(Expire(WAITING), true)
    requires Names(Run(steps), id, Reserved, o) && Names(Run(steps), result, Succeeded, o)
    ensures Ends(Run(steps + [OrderHandles(id, 0)] + [OrderHandles(result, 0)] + [InventoryHandles(result, 0)]),
                 o, CONFIRMED, Payments.SUCCEEDED, Inventory.EXPIRED)
  {
    var s1 := steps + [OrderHandles(id, 0)];
    var s2 := s1 + [OrderHandles(result, 0)];
    var s3 := s2 + [InventoryHandles(result, 0)];
    OrderDelivery(steps, id, Reserved, o);
    NamesOnward(steps, OrderHandles(id, 0), result, Succeeded, o);
    OrderDelivery(s1, result, Succeeded, o);
    NamesOnward(s1, OrderHandles(result, 0), result, Succeeded, o);
    InventoryDelivery(s2, result, Succeeded, o);
    EndsAt(s3, o, View(Run(s3), o));
  }
}
