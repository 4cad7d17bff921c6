/** The system invariant over every run: each service's own, and what they copy from one another. */
module SagaRuns {
  import opened Prelude
  import opened Events
  import opened OrderStatuses
  import opened SagaAutomaton
  import opened SagaSystem
  import opened SagaViews
  import opened SagaProjection
  import opened SagaSimulation
  import Delivery
  import Inventory
  import InventoryLedger
  import InventoryInvariants
  import Orders
  import OrderInvariants
  import OrderTheorems
  import Payments

  // ------------------------------------------------------------ orders

  lemma OrderRequestKeeps(db: Orders.Db, step: Step)
    requires OrderInvariants.Inv(db)
    ensures OrderInvariants.Inv(OrderRequest(db, step))
  {
    match step {
      case Place(user, body, key, seen, contended) =>
        OrderInvariants.CreateKeepsInv(db, user, body, key, Orders.Visible(db, seen), contended);
      case CancelOrder(o, caller, isAdmin, reason, now) =>
        OrderInvariants.CancelOrderKeepsInv(db, o, caller, isAdmin, reason, now);
      case Ship(o, now) => OrderInvariants.AdvanceKeepsInv(db, o, SHIPPED, "dispatched", now);
      case Deliver(o, now) => OrderInvariants.AdvanceKeepsInv(db, o, DELIVERED, "delivered", now);
      case Reprice(p, s) => OrderTheorems.SnapshotKeepsInv(db, p, s);
      case _ =>
    }
  }

  lemma OrderRequestAdds(db: Orders.Db, step: Step)
    ensures Adds(db.outbox, OrderRequest(db, step).outbox, OrderSide)
    ensures OrderTheorems.Keeps(db, OrderRequest(db, step))
  {
  }

  lemma OrderHandleKeeps(db: Orders.Db, e: Event, now: int)
    requires Orders.Handle(db, e, now).Some?
    ensures OrderTheorems.Keeps(db, Orders.Handle(db, e, now).value)
  {
  }

  /** Orders never change what was copied from them. */
  lemma CopiesStay(a: Orders.Db, b: Orders.Db, inventory: Inventory.Db, payments: Payments.Db)
    requires OrderTheorems.Keeps(a, b) && InventoryMatches(a.orders, inventory) && PaymentsMatch(a.orders, payments)
    ensures InventoryMatches(b.orders, inventory) && PaymentsMatch(b.orders, payments)
  {
    forall i | 0 <= i < |inventory.outbox|
      ensures ReservedMatches(b.orders, inventory.outbox[i])
    {
      assert ReservedMatches(a.orders, inventory.outbox[i]);
    }
    forall i | 0 <= i < |inventory.reservations|
      ensures ReservationMatches(b.orders, inventory.reservations[i])
    {
      assert ReservationMatches(a.orders, inventory.reservations[i]);
    }
  }

  // ------------------------------------------------------------ inventory

  /** Only statuses of reservations change, and only stock events are added. */
  ghost predicate OnlyStock(a: Inventory.Db, b: Inventory.Db) {
    && AddsStock(a.outbox, b.outbox)
    && |a.reservations| == |b.reservations|
    && forall i :: 0 <= i < |a.reservations| ==>
      b.reservations[i] == a.reservations[i].(status := b.reservations[i].status)
  }

  lemma OnlyStockMatches(orders: seq<Orders.OrderRow>, a: Inventory.Db, b: Inventory.Db)
    requires InventoryMatches(orders, a) && OnlyStock(a, b)
    ensures InventoryMatches(orders, b)
    ensures Adds(a.outbox, b.outbox, InventorySide)
  {
    forall i | 0 <= i < |b.outbox|
      ensures ReservedMatches(orders, b.outbox[i])
    {
      if i < |a.outbox| {
        assert ReservedMatches(orders, a.outbox[i]);
      }
    }
  }

  lemma CommitOnlyStock(db: Inventory.Db, o: OrderId)
    ensures OnlyStock(db, Inventory.Commit(db, o))
  {
    CommitPart(db, o, o);
  }

  lemma ReleaseOnlyStock(db: Inventory.Db, o: OrderId)
    ensures OnlyStock(db, Inventory.Release(db, o))
  {
    ReleasePart(db, o, o);
  }

  lemma InventoryRequestOnlyStock(db: Inventory.Db, step: Step)
    requires step.Sweep? || step.Restock? || step.Recount?
    ensures OnlyStock(db, InventoryRequest(db, step))
  {
    if step.Sweep? {
      SweepPart(db, step.now, step.limit, 0);
      Inventory.BatchInRange(db.reservations, step.now, step.limit);
      InventoryInvariants.ExpireRowsTouch(db, Inventory.Batch(db.reservations, step.now, step.limit));
    } else {
      UpsertPart(db, step, 0);
    }
  }

  lemma InventoryRequestKeeps(db: Inventory.Db, step: Step)
    requires InventoryLedger.Inv(db) && (step.Sweep? || step.Restock? || step.Recount?)
    ensures InventoryLedger.Inv(InventoryRequest(db, step))
  {
    match step {
      case Sweep(now, limit) => InventoryInvariants.ExpireStaleKeepsInv(db, now, limit);
      case Restock(p, sku, quantity, threshold) => InventoryInvariants.UpsertKeepsInv(db, p, sku, quantity, threshold);
      case Recount(p, available, threshold) => InventoryInvariants.AdjustKeepsInv(db, p, available, threshold);
      case _ =>
    }
  }

  /** A reservation copies the order it answers. */
  lemma ReserveMatches(orders: seq<Orders.OrderRow>, db: Inventory.Db, o: OrderId, expiresAt: int)
    requires InventoryMatches(orders, db) && o < |orders|
    ensures var q := Inventory.RequestOf(Orders.CreatedEvent(o, orders[o]));
      && InventoryMatches(orders, Inventory.Reserve(db, q, expiresAt))
      && Adds(db.outbox, Inventory.Reserve(db, q, expiresAt).outbox, InventorySide)
  {
    var q := Inventory.RequestOf(Orders.CreatedEvent(o, orders[o]));
    ReservePart(db, q, expiresAt, o);
    if Inventory.Decide(db, q) == Inventory.Granted {
      var r := InventoryInvariants.HeldRow(q, expiresAt);
      var start := db.(reservations := db.reservations + [r]);
      var held := Inventory.Hold(db, q, expiresAt);
      MoveLinesAddsStock(start, r.items, RESERVE, q.order);
      assert InventoryMatches(orders, start);
      OnlyStockMatches(orders, start, held);
    }
  }

  lemma InventoryHandleMatches(orders: Orders.Db, db: Inventory.Db, e: Event, now: int)
    requires InventoryMatches(orders.orders, db) && Inventory.Subscribes(KindOf(e))
    requires e.OrderCreated? ==> OrderInvariants.EventOk(orders, e)
    requires Inventory.Handle(db, e, now).Some?
    ensures InventoryMatches(orders.orders, Inventory.Handle(db, e, now).value)
    ensures Adds(db.outbox, Inventory.Handle(db, e, now).value.outbox, InventorySide)
  {
    match e {
      case OrderCreated(o, _, _, _, _, _) => ReserveMatches(orders.orders, db, o, now + Inventory.RESERVATION_TTL);
      case PaymentSucceeded(o, _, _, _, _) =>
        CommitOnlyStock(db, o);
        OnlyStockMatches(orders.orders, db, Inventory.Commit(db, o));
      case PaymentFailed(o, _, _, _, _, _, _) =>
        ReleaseOnlyStock(db, o);
        OnlyStockMatches(orders.orders, db, Inventory.Release(db, o));
      case OrderCancelled(o, _, _, _, _) =>
        ReleaseOnlyStock(db, o);
        OnlyStockMatches(orders.orders, db, Inventory.Release(db, o));
      case _ =>
    }
  }

  // ------------------------------------------------------------ payments

  lemma PaymentHandleMatches(orders: seq<Orders.OrderRow>, db: Payments.Db, e: Event, provider: Payments.Provider)
    requires PaymentsMatch(orders, db) && Payments.Subscribes(KindOf(e)) && ReservedMatches(orders, e)
    requires Payments.Handle(db, e, provider).Some?
    ensures PaymentsMatch(orders, Payments.Handle(db, e, provider).value)
  {
  }

  lemma PaymentRequestMatches(orders: seq<Orders.OrderRow>, db: Payments.Db, step: Step)
    requires PaymentsMatch(orders, db)
    ensures PaymentsMatch(orders, PaymentRequest(db, step))
  {
  }

  lemma PaymentRequestKeeps(db: Payments.Db, step: Step)
    requires Payments.Inv(db) && (step.Retry? || step.AdminRefund?)
    ensures Payments.Inv(PaymentRequest(db, step))
  {
    match step {
      case Retry(o, token, caller, provider) => Payments.RetryKeepsInv(db, o, token, caller, provider);
      case AdminRefund(o, reason, amount) => Payments.RefundKeepsInv(db, o, reason, amount);
      case _ =>
    }
  }

  // ------------------------------------------------------------ what was handled stays published

  /** More events from their own producers, and one more marker for an event that is published. */
  lemma BoxesGrow(a: System, b: System)
    requires Produced(BoxesOf(a)) && HandledIsPublished(a)
    requires Adds(BoxesOf(a).orders, BoxesOf(b).orders, OrderSide)
    requires Adds(BoxesOf(a).inventory, BoxesOf(b).inventory, InventorySide)
    requires Adds(BoxesOf(a).payments, BoxesOf(b).payments, PaymentSide)
    requires MarksPublished(a, a.orders.processed, b.orders.processed)
    requires MarksPublished(a, a.inventory.processed, b.inventory.processed)
    requires MarksPublished(a, a.payments.processed, b.payments.processed)
    ensures Produced(BoxesOf(b)) && HandledIsPublished(b)
  {
    KnownStays(BoxesOf(a), BoxesOf(b), a.orders.processed, b.orders.processed);
    KnownStays(BoxesOf(a), BoxesOf(b), a.inventory.processed, b.inventory.processed);
    KnownStays(BoxesOf(a), BoxesOf(b), a.payments.processed, b.payments.processed);
  }

  ghost predicate MarksPublished(a: System, before: seq<EventId>, after: seq<EventId>) {
    after == before || (|after| > 0 && after[..|after| - 1] == before && Lookup(BoxesOf(a), after[|after| - 1]).Some?)
  }

  lemma KnownStays(a: Boxes, b: Boxes, before: seq<EventId>, after: seq<EventId>)
    requires Extends(a, b) && Known(a, before)
    requires after == before || (|after| > 0 && after[..|after| - 1] == before && Lookup(a, after[|after| - 1]).Some?)
    ensures Known(b, after)
  {
    forall i | 0 <= i < |after|
      ensures Lookup(b, after[i]).Some?
    {
      assert i < |before| ==> after[i] == before[i];
      KindsStay(a, b, after[i], 0);
    }
  }

  // ------------------------------------------------------------ every step

  lemma OrderConsumesKeeps(sys: System, id: EventId, now: int)
    requires ServicesOk(sys)
    ensures ServicesOk(OrderConsumes(sys, id, now))
  {
    var b := BoxesOf(sys);
    var next := OrderConsumes(sys, id, now);
    if Delivers(b, sys.orders.processed, id) && Orders.Subscribes(KindOf(Lookup(b, id).value)) {
      var e := Lookup(b, id).value;
      OrderHandleGrows(sys.orders.tables, e, now);
      OrderInvariants.HandleKeepsInv(sys.orders.tables, e, now);
      OrderHandleKeeps(sys.orders.tables, e, now);
      CopiesStay(sys.orders.tables, next.orders.tables, sys.inventory.tables, sys.payments.tables);
      BoxesGrow(sys, next);
    }
  }

  lemma InventoryConsumesKeeps(sys: System, id: EventId, now: int)
    requires ServicesOk(sys)
    ensures ServicesOk(InventoryConsumes(sys, id, now))
  {
    var b := BoxesOf(sys);
    var next := InventoryConsumes(sys, id, now);
    if Delivers(b, sys.inventory.processed, id) && Inventory.Subscribes(KindOf(Lookup(b, id).value)) {
      var e := Lookup(b, id).value;
      if Inventory.Handle(sys.inventory.tables, e, now).Some? {
        InventoryInvariants.HandleKeepsInv(sys.inventory.tables, e, now);
        CreatedIsOk(sys, id);
        InventoryHandleMatches(sys.orders.tables, sys.inventory.tables, e, now);
        BoxesGrow(sys, next);
      }
    }
  }

  lemma CreatedIsOk(sys: System, id: EventId)
    requires ServicesOk(sys) && Lookup(BoxesOf(sys), id).Some?
    ensures Lookup(BoxesOf(sys), id).value.OrderCreated? ==>
      OrderInvariants.EventOk(sys.orders.tables, Lookup(BoxesOf(sys), id).value)
  {
    ProducerIsRight(BoxesOf(sys), id);
  }

  lemma ReservedIsOk(sys: System, id: EventId)
    requires ServicesOk(sys) && Lookup(BoxesOf(sys), id).Some?
    ensures ReservedMatches(sys.orders.tables.orders, Lookup(BoxesOf(sys), id).value)
  {
    ProducerIsRight(BoxesOf(sys), id);
    var e := Lookup(BoxesOf(sys), id).value;
    if e.InventoryReserved? {
      assert sys.inventory.tables.outbox[id.index] == e;
    }
  }

  lemma PaymentConsumesKeeps(sys: System, id: EventId, provider: Payments.Provider)
    requires ServicesOk(sys)
    ensures ServicesOk(PaymentConsumes(sys, id, provider))
  {
    var b := BoxesOf(sys);
    var next := PaymentConsumes(sys, id, provider);
    if Delivers(b, sys.payments.processed, id) && Payments.Subscribes(KindOf(Lookup(b, id).value)) {
      var e := Lookup(b, id).value;
      if Payments.Handle(sys.payments.tables, e, provider).Some? {
        Payments.HandleKeepsInv(sys.payments.tables, e, provider);
        PaymentHandleGrows(sys.payments.tables, e, provider);
        ReservedIsOk(sys, id);
        PaymentHandleMatches(sys.orders.tables.orders, sys.payments.tables, e, provider);
        BoxesGrow(sys, next);
      }
    }
  }

  lemma RequestKeeps(sys: System, step: Step)
    requires ServicesOk(sys) && IsRequest(step)
    ensures ServicesOk(Next(sys, step))
  {
    var next := Next(sys, step);
    if step.Sweep? || step.Restock? || step.Recount? {
      InventoryRequestKeeps(sys.inventory.tables, step);
      InventoryRequestOnlyStock(sys.inventory.tables, step);
      OnlyStockMatches(sys.orders.tables.orders, sys.inventory.tables, next.inventory.tables);
    } else if step.Retry? || step.AdminRefund? {
      PaymentRequestKeeps(sys.payments.tables, step);
      PaymentRequestPart(sys.payments.tables, step, 0);
      PaymentRequestMatches(sys.orders.tables.orders, sys.payments.tables, step);
    } else {
      OrderRequestKeeps(sys.orders.tables, step);
      OrderRequestAdds(sys.orders.tables, step);
      CopiesStay(sys.orders.tables, next.orders.tables, sys.inventory.tables, sys.payments.tables);
    }
    BoxesGrow(sys, next);
  }

  lemma DeliveryKeeps(sys: System, step: Step, next: System)
    requires ServicesOk(sys) && !IsRequest(step)
    requires step.OrderHandles? ==> next == OrderConsumes(sys, step.id, step.now)
    requires step.InventoryHandles? ==> next == InventoryConsumes(sys, step.id, step.now)
    requires step.PaymentHandles? ==> next == PaymentConsumes(sys, step.id, step.provider)
    ensures ServicesOk(next)
  {
    if step.OrderHandles? {
      OrderConsumesKeeps(sys, step.id, step.now);
    } else if step.InventoryHandles? {
      InventoryConsumesKeeps(sys, step.id, step.now);
    } else {
      PaymentConsumesKeeps(sys, step.id, step.provider);
    }
  }

  lemma ServicesStayOk(sys: System, step: Step)
    requires ServicesOk(sys)
    ensures ServicesOk(Next(sys, step))
  {
    if IsRequest(step) {
      RequestKeeps(sys, step);
    } else {
      DeliveryIs(sys, step);
      DeliveryKeeps(sys, step, Next(sys, step));
    }
  }

  lemma NextKeepsInv(sys: System, step: Step)
    requires SysInv(sys)
    ensures SysInv(Next(sys, step))
  {
    ServicesStayOk(sys, step);
    forall o: OrderId
      ensures LocalInv(View(Next(sys, step), o))
    {
      StepMoves(sys, step, o);
      MovesKeepInv(View(sys, o), View(Next(sys, step), o), DisturbanceOf(step, o));
    }
  }

  /** The invariant holds after any interleaving of requests, sweeps and deliveries. */
  lemma {:induction false} EveryRunKeepsInv(steps: seq<Step>)
    ensures SysInv(Run(steps))
  {
    if |steps| == 0 {
      StartInv();
    } else {
      EveryRunKeepsInv(steps[..|steps| - 1]);
      NextKeepsInv(Run(steps[..|steps| - 1]), steps[|steps| - 1]);
    }
  }

  // ------------------------------------------------------------ longer runs

  lemma OrderConsumesExtends(sys: System, id: EventId, now: int)
    ensures Extends(BoxesOf(sys), BoxesOf(OrderConsumes(sys, id, now)))
  {
    var b := BoxesOf(sys);
    if Delivers(b, sys.orders.processed, id) && Orders.Subscribes(KindOf(Lookup(b, id).value)) {
      OrderHandleGrows(sys.orders.tables, Lookup(b, id).value, now);
    }
  }

  lemma InventoryConsumesExtends(sys: System, id: EventId, now: int)
    ensures Extends(BoxesOf(sys), BoxesOf(InventoryConsumes(sys, id, now)))
  {
    var b := BoxesOf(sys);
    if Delivers(b, sys.inventory.processed, id) && Inventory.Subscribes(KindOf(Lookup(b, id).value))
      && Inventory.Handle(sys.inventory.tables, Lookup(b, id).value, now).Some? {
      InventoryHandleGrows(sys.inventory.tables, Lookup(b, id).value, now);
    }
  }

  lemma PaymentConsumesExtends(sys: System, id: EventId, provider: Payments.Provider)
    requires Payments.Inv(sys.payments.tables)
    ensures Extends(BoxesOf(sys), BoxesOf(PaymentConsumes(sys, id, provider)))
  {
    var b := BoxesOf(sys);
    if Delivers(b, sys.payments.processed, id) && Payments.Subscribes(KindOf(Lookup(b, id).value))
      && Payments.Handle(sys.payments.tables, Lookup(b, id).value, provider).Some? {
      PaymentHandleGrows(sys.payments.tables, Lookup(b, id).value, provider);
    }
  }

  lemma RequestExtends(sys: System, step: Step)
    requires Payments.Inv(sys.payments.tables) && IsRequest(step)
    ensures Extends(BoxesOf(sys), BoxesOf(Next(sys, step)))
  {
    if step.Sweep? || step.Restock? || step.Recount? {
      InventoryRequestOnlyStock(sys.inventory.tables, step);
    } else if step.Retry? || step.AdminRefund? {
      PaymentRequestPart(sys.payments.tables, step, 0);
    } else {
      OrderRequestGrows(sys.orders.tables, step);
    }
  }

  /** Every step extends the outboxes. */
  lemma NextExtends(sys: System, step: Step)
    requires Payments.Inv(sys.payments.tables)
    ensures Extends(BoxesOf(sys), BoxesOf(Next(sys, step)))
  {
    if step.OrderHandles? {
      OrderConsumesExtends(sys, step.id, step.now);
    } else if step.InventoryHandles? {
      InventoryConsumesExtends(sys, step.id, step.now);
    } else if step.PaymentHandles? {
      PaymentConsumesExtends(sys, step.id, step.provider);
    } else {
      RequestExtends(sys, step);
    }
  }

  lemma RunSnoc(steps: seq<Step>, step: Step)
    ensures Run(steps + [step]) == Next(Run(steps), step)
  {
    assert (steps + [step])[..|steps|] == steps;
  }

  lemma RunPayment(steps: seq<Step>, id: EventId, provider: Payments.Provider)
    ensures Run(steps + [PaymentHandles(id, provider)]) == PaymentConsumes(Run(steps), id, provider)
  {
    RunSnoc(steps, PaymentHandles(id, provider));
  }

  lemma RunOrder(steps: seq<Step>, id: EventId)
    ensures Run(steps + [OrderHandles(id, 0)]) == OrderConsumes(Run(steps), id, 0)
  {
    RunSnoc(steps, OrderHandles(id, 0));
  }

  lemma RunInventory(steps: seq<Step>, id: EventId)
    ensures Run(steps + [InventoryHandles(id, 0)]) == InventoryConsumes(Run(steps), id, 0)
  {
    RunSnoc(steps, InventoryHandles(id, 0));
  }
}
