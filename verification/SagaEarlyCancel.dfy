/** The fifth way agreement is lost: inventory hears of the cancellation before it hears of the order. */
module SagaEarlyCancel {
  import opened Prelude
  import opened Events
  import opened OrderStatuses
  import opened SagaAutomaton
  import opened SagaSystem
  import opened SagaViews
  import opened SagaProjection
  import opened SagaSimulation
  import opened SagaRuns
  import opened SagaTheorems
  import opened SagaDisturbances
  import Inventory
  import Orders
  import Payments

  // ------------------------------------------------------------ where the story starts

  const PLACED: Local := Local(
    true, PENDING, {}, {}, {}, None, None, 0, 1, 0, false, 0, 0, 0, 0, false, false)

  /** Order `o` has just been placed, and inventory has not handled `id`, its creation. */
  predicate Unheard(sys: System, o: OrderId, id: EventId) {
    View(sys, o) == PLACED && Names(sys, id, Kind.Created, o)
  }

  /** The request that the creation makes of inventory. */
  function Asks(sys: System, id: EventId): Inventory.ReserveRequest
    requires Lookup(BoxesOf(sys), id).Some? && Lookup(BoxesOf(sys), id).value.OrderCreated?
  {
    Inventory.RequestOf(Lookup(BoxesOf(sys), id).value)
  }

  /** Is there stock for the order, and would the provider capture its total? */
  predicate Affordable(sys: System, id: EventId, provider: Payments.Provider) {
    && Lookup(BoxesOf(sys), id).Some? && Lookup(BoxesOf(sys), id).value.OrderCreated?
    && Inventory.Decide(sys.inventory.tables, Asks(sys, id)) == Inventory.Granted
    && Payments.Charge(Asks(sys, id).total, Asks(sys, id).payment.token, provider).Captured?
  }

  /** The id that the reservation event will have: it follows the stock events of the hold. */
  function ReservedId(sys: System, id: EventId): EventId
    requires Lookup(BoxesOf(sys), id).Some? && Lookup(BoxesOf(sys), id).value.OrderCreated?
  {
    EventId(InventorySide, |Inventory.Hold(sys.inventory.tables, Asks(sys, id), Inventory.RESERVATION_TTL).outbox|)
  }

  // ------------------------------------------------------------ a reservation is granted

  lemma GrantMove(l: Local, p: InventoryPart)
    requires p == Answered(InventoryPartIn(l), Inventory.Granted)
    ensures WithInventory(l, p).(inventorySaw := l.inventorySaw + {Kind.Created},
                                 premature := l.premature || (Kind.Created == Cancelled && Kind.Created !in l.inventorySaw))
         == InventorySeesCreated(l, true)
  {
  }

  lemma GrantPublishes(db: Inventory.Db, e: Event)
    requires e.OrderCreated? && Inventory.Decide(db, Inventory.RequestOf(e)) == Inventory.Granted
    ensures var next := Inventory.Handle(db, e, 0); var q := Inventory.RequestOf(e);
      var n := |Inventory.Hold(db, q, Inventory.RESERVATION_TTL).outbox|;
      && next.Some? && |next.value.outbox| == n + 1
      && next.value.outbox[n] == Inventory.ReservedEvent(q, Inventory.RESERVATION_TTL)
  {
  }

  lemma GrantedPart(db: Inventory.Db, e: Event)
    requires e.OrderCreated? && Inventory.Decide(db, Inventory.RequestOf(e)) == Inventory.Granted
    ensures Inventory.Handle(db, e, 0).Some?
    ensures InventoryPartOf(Inventory.Handle(db, e, 0).value, e.order)
         == Answered(InventoryPartOf(db, e.order), Inventory.Granted)
  {
    GrantPart(db, Inventory.RequestOf(e), Inventory.RESERVATION_TTL, e.order);
  }

  lemma NotYetReserved(steps: seq<Step>, id: EventId, o: OrderId)
    requires Names(Run(steps), id, Kind.Created, o) && Kind.Created !in View(Run(steps), o).inventorySaw
    ensures Delivers(BoxesOf(Run(steps)), Run(steps).inventory.processed, id)
  {
    NotSeenNotProcessed(BoxesOf(Run(steps)), Run(steps).inventory.processed, id, Kind.Created, o);
  }

  lemma GrantView(steps: seq<Step>, id: EventId, e: Event, o: OrderId)
    requires Names(Run(steps), id, Kind.Created, o) && Kind.Created !in View(Run(steps), o).inventorySaw
    requires Lookup(BoxesOf(Run(steps)), id) == Some(e) && e.OrderCreated?
    requires Inventory.Decide(Run(steps).inventory.tables, Inventory.RequestOf(e)) == Inventory.Granted
    ensures View(InventoryConsumes(Run(steps), id, 0), o) == InventorySeesCreated(View(Run(steps), o), true)
  {
    var db := Run(steps).inventory.tables;
    NotYetReserved(steps, id, o);
    GrantedPart(db, e);
    RunInventoryView(steps, id, o);
    GrantMove(View(Run(steps), o), InventoryPartOf(Inventory.Handle(db, e, 0).value, o));
  }

  lemma GrantNames(sys: System, id: EventId, o: OrderId, provider: Payments.Provider)
    requires Names(sys, id, Kind.Created, o) && id !in sys.inventory.processed && Affordable(sys, id, provider)
    ensures Names(InventoryConsumes(sys, id, 0), ReservedId(sys, id), Reserved, o)
    ensures Captures(InventoryConsumes(sys, id, 0), ReservedId(sys, id), provider)
  {
    GrantPublishes(sys.inventory.tables, Lookup(BoxesOf(sys), id).value);
  }

  /** The creation reaches inventory, and there is stock for it. */
  lemma InventoryGrants(steps: seq<Step>, id: EventId, o: OrderId, provider: Payments.Provider)
    requires Names(Run(steps), id, Kind.Created, o) && Affordable(Run(steps), id, provider)
    requires Kind.Created !in View(Run(steps), o).inventorySaw
    ensures View(Run(steps + [InventoryHandles(id, 0)]), o) == InventorySeesCreated(View(Run(steps), o), true)
    ensures Names(Run(steps + [InventoryHandles(id, 0)]), ReservedId(Run(steps), id), Reserved, o)
    ensures Captures(Run(steps + [InventoryHandles(id, 0)]), ReservedId(Run(steps), id), provider)
  {
    RunInventory(steps, id);
    NotYetReserved(steps, id, o);
    GrantView(steps, id, Lookup(BoxesOf(Run(steps)), id).value, o);
    GrantNames(Run(steps), id, o, provider);
  }

  // ------------------------------------------------------------ the cancellation comes first

  lemma NothingToRelease(db: Inventory.Db, e: Event)
    requires e.OrderCancelled? && !Inventory.HasReservation(db, e.order)
    ensures Inventory.Handle(db, e, 0) == Some(db)
  {
  }

  /** Inventory's tables do not change when a cancellation finds no reservation. */
  lemma EarlyRelease(steps: seq<Step>, cancel: EventId, o: OrderId)
    requires Names(Run(steps), cancel, Cancelled, o) && View(Run(steps), o).reservation == None
    ensures var next := Run(steps + [InventoryHandles(cancel, 0)]);
      && next.inventory.tables == Run(steps).inventory.tables
      && next.orders == Run(steps).orders && next.payments == Run(steps).payments
  {
    var sys := Run(steps);
    RunInventory(steps, cancel);
    NothingToRelease(sys.inventory.tables, Lookup(BoxesOf(sys), cancel).value);
  }

  lemma StaysAffordable(a: System, b: System, id: EventId, provider: Payments.Provider, o: OrderId)
    requires Names(a, id, Kind.Created, o) && Affordable(a, id, provider)
    requires Extends(BoxesOf(a), BoxesOf(b)) && b.inventory.tables == a.inventory.tables
    ensures Affordable(b, id, provider) && ReservedId(b, id) == ReservedId(a, id)
  {
    NamesStays(a, b, id, Kind.Created, o);
  }

  lemma CancelStep(steps: seq<Step>, o: OrderId, reason: string)
    ensures var next := Run(steps + [CancelOrder(o, 0, true, reason, 0)]);
      && Extends(BoxesOf(Run(steps)), BoxesOf(next))
      && next.inventory == Run(steps).inventory && next.payments == Run(steps).payments
  {
    var step := CancelOrder(o, 0, true, reason, 0);
    RunSnoc(steps, step);
    EveryRunKeepsInv(steps);
    NextExtends(Run(steps), step);
  }

  /** Cancelled, and inventory had nothing to release. */
  const TOLD_EARLY: Local := Local(
    true, CANCELLED, {}, {Cancelled}, {}, None, None, 0, 1, 1, false, 0, 0, 0, 0, false, true)

  lemma ToldEarlyView()
    ensures InventorySeesFailure(Cancel(PLACED), Cancelled) == TOLD_EARLY
  {
  }

  lemma Telling(steps: seq<Step>, o: OrderId, id: EventId, reason: string, provider: Payments.Provider)
    requires Unheard(Run(steps), o, id) && Affordable(Run(steps), id, provider)
    ensures var cancel := NextOrderEvent(Run(steps));
      var s2 := steps + [CancelOrder(o, 0, true, reason, 0)] + [InventoryHandles(cancel, 0)];
      && View(Run(s2), o) == TOLD_EARLY
      && Names(Run(s2), id, Kind.Created, o) && Names(Run(s2), cancel, Cancelled, o)
      && Affordable(Run(s2), id, provider) && ReservedId(Run(s2), id) == ReservedId(Run(steps), id)
      && NextResult(Run(s2)) == NextResult(Run(steps))
  {
    var cancel := NextOrderEvent(Run(steps));
    var step := CancelOrder(o, 0, true, reason, 0);
    var s1 := steps + [step];
    PendingCancellation(steps, o, reason);
    CancelStep(steps, o, reason);
    NamesOnward(steps, step, id, Kind.Created, o);
    StaysAffordable(Run(steps), Run(s1), id, provider, o);
    InventoryDelivery(s1, cancel, Cancelled, o);
    EarlyRelease(s1, cancel, o);
    NamesOnward(s1, InventoryHandles(cancel, 0), id, Kind.Created, o);
    NamesOnward(s1, InventoryHandles(cancel, 0), cancel, Cancelled, o);
    StaysAffordable(Run(s1), Run(s1 + [InventoryHandles(cancel, 0)]), id, provider, o);
    ToldEarlyView();
  }

  // ------------------------------------------------------------ the rest goes through

  lemma HoldingAndCharging(steps: seq<Step>, o: OrderId, id: EventId, cancel: EventId, provider: Payments.Provider)
    requires View(Run(steps), o) == TOLD_EARLY && Affordable(Run(steps), id, provider)
    requires Names(Run(steps), id, Kind.Created, o) && Names(Run(steps), cancel, Cancelled, o)
    ensures var reserved, result := ReservedId(Run(steps), id), NextResult(Run(steps));
      var s2 := steps + [InventoryHandles(id, 0)] + [PaymentHandles(reserved, provider)];
      && View(Run(s2), o) == PaymentSeesReserved(InventorySeesCreated(TOLD_EARLY, true), true)
      && Names(Run(s2), reserved, Reserved, o) && Names(Run(s2), result, Succeeded, o)
      && Names(Run(s2), cancel, Cancelled, o)
  {
    var reserved, result := ReservedId(Run(steps), id), NextResult(Run(steps));
    var s1 := steps + [InventoryHandles(id, 0)];
    InventoryGrants(steps, id, o, provider);
    RunInventory(steps, id);
    NamesOnward(steps, InventoryHandles(id, 0), cancel, Cancelled, o);
    PaymentCharge(s1, reserved, provider, o, true);
    PaymentChargeNames(s1, reserved, provider, o);
    NamesOnward(s1, PaymentHandles(reserved, provider), reserved, Reserved, o);
    NamesOnward(s1, PaymentHandles(reserved, provider), cancel, Cancelled, o);
  }

  lemma OrderHears(steps: seq<Step>, o: OrderId, reserved: EventId, result: EventId, cancel: EventId)
    requires View(Run(steps), o) == PaymentSeesReserved(InventorySeesCreated(TOLD_EARLY, true), true)
    requires Names(Run(steps), reserved, Reserved, o) && Names(Run(steps), result, Succeeded, o)
    requires Names(Run(steps), cancel, Cancelled, o)
    ensures var s2 := steps + [OrderHandles(reserved, 0)] + [OrderHandles(result, 0)];
      && View(Run(s2), o)
         == OrderSeesSucceeded(OrderSeesReserved(PaymentSeesReserved(InventorySeesCreated(TOLD_EARLY, true), true)))
      && Names(Run(s2), result, Succeeded, o) && Names(Run(s2), cancel, Cancelled, o)
  {
    var s1 := steps + [OrderHandles(reserved, 0)];
    OrderDelivery(steps, reserved, Reserved, o);
    NamesOnward(steps, OrderHandles(reserved, 0), result, Succeeded, o);
    NamesOnward(steps, OrderHandles(reserved, 0), cancel, Cancelled, o);
    OrderDelivery(s1, result, Succeeded, o);
    NamesOnward(s1, OrderHandles(result, 0), result, Succeeded, o);
    NamesOnward(s1, OrderHandles(result, 0), cancel, Cancelled, o);
  }

  /** Cancelled, held and charged all the same, and known so to the order service. */
  const CHARGED: Local := Local(
    true, CANCELLED, {Reserved, Succeeded}, {Kind.Created, Cancelled}, {Reserved}, Some(Inventory.HELD),
    Some(Payments.SUCCEEDED), 1, 1, 1, false, 1, 0, 1, 0, false, true)

  lemma ChargedView()
    ensures OrderSeesSucceeded(OrderSeesReserved(PaymentSeesReserved(InventorySeesCreated(TOLD_EARLY, true), true))) == CHARGED
  {
  }

  lemma Deducting(steps: seq<Step>, o: OrderId, result: EventId, cancel: EventId, provider: Payments.Provider)
    requires View(Run(steps), o) == CHARGED
    requires Names(Run(steps), result, Succeeded, o) && Names(Run(steps), cancel, Cancelled, o)
    ensures Ends(Run(steps + [InventoryHandles(result, 0)] + [PaymentHandles(cancel, provider)]),
                 o, CANCELLED, Payments.SUCCEEDED, Inventory.COMMITTED)
  {
    var s1 := steps + [InventoryHandles(result, 0)];
    var s2 := s1 + [PaymentHandles(cancel, provider)];
    InventoryDelivery(steps, result, Succeeded, o);
    NamesOnward(steps, InventoryHandles(result, 0), cancel, Cancelled, o);
    PaymentCancellation(s1, cancel, provider, o);
    EndsAt(s2, o, View(Run(s2), o));
  }

  /** A customer cancels at once. Inventory, reading two topics, handles the cancellation before the
      creation; everything else arrives in order. */
  function Hasty(sys: System, o: OrderId, id: EventId, reason: string, provider: Payments.Provider): seq<Step>
    requires Lookup(BoxesOf(sys), id).Some? && Lookup(BoxesOf(sys), id).value.OrderCreated?
  {
    var cancel, reserved, result := NextOrderEvent(sys), ReservedId(sys, id), NextResult(sys);
    [CancelOrder(o, 0, true, reason, 0), InventoryHandles(cancel, 0),
     InventoryHandles(id, 0), PaymentHandles(reserved, provider)]
    + [OrderHandles(reserved, 0), OrderHandles(result, 0),
       InventoryHandles(result, 0), PaymentHandles(cancel, provider)]
  }

  lemma InTwoGoes(steps: seq<Step>, first: seq<Step>, second: seq<Step>)
    ensures steps + (first + second) == steps + first + second
  {
  }

  /** From every reachable state in which inventory has not heard of an order that it could hold and
      that could be charged: the order ends cancelled, with its money taken and its stock deducted. */
  lemma EarlyCancellationIsLost(steps: seq<Step>, o: OrderId, id: EventId, reason: string, provider: Payments.Provider)
    requires Unheard(Run(steps), o, id) && Affordable(Run(steps), id, provider)
    ensures Ends(Run(steps + Hasty(Run(steps), o, id, reason, provider)), o,
                 CANCELLED, Payments.SUCCEEDED, Inventory.COMMITTED)
  {
    var cancel, reserved, result := NextOrderEvent(Run(steps)), ReservedId(Run(steps), id), NextResult(Run(steps));
    var a, b, c, d := CancelOrder(o, 0, true, reason, 0), InventoryHandles(cancel, 0),
                      InventoryHandles(id, 0), PaymentHandles(reserved, provider);
    Telling(steps, o, id, reason, provider);
    HoldingAndCharging(steps + [a] + [b], o, id, cancel, provider);
    var s4 := steps + [a] + [b] + [c] + [d];
    OrderHears(s4, o, reserved, result, cancel);
    ChargedView();
    Deducting(s4 + [OrderHandles(reserved, 0)] + [OrderHandles(result, 0)], o, result, cancel, provider);
    InOneGo(steps, a, b, c, d);
    InOneGo(s4, OrderHandles(reserved, 0), OrderHandles(result, 0), InventoryHandles(result, 0), PaymentHandles(cancel, provider));
    InTwoGoes(steps, [a, b, c, d], [OrderHandles(reserved, 0), OrderHandles(result, 0),
                                    InventoryHandles(result, 0), PaymentHandles(cancel, provider)]);
  }
}
