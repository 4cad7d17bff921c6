/** Every step of the system moves each order's `Local` by one move of the automaton, or not at all. */
module SagaSimulation {
  import opened Prelude
  import opened Events
  import opened OrderStatuses
  import opened SagaAutomaton
  import opened SagaSystem
  import opened SagaViews
  import opened SagaProjection
  import Delivery
  import Inventory
  import InventoryLedger
  import InventoryInvariants
  import Orders
  import OrderInvariants
  import Payments

  // ------------------------------------------------------------ frames

  /** Publishing changes nobody's record of what was handled. */
  lemma SeenFrame(a: System, b: System, o: OrderId)
    requires Extends(BoxesOf(a), BoxesOf(b)) && HandledIsPublished(a)
    ensures Seen(BoxesOf(b), a.orders.processed, o) == Seen(BoxesOf(a), a.orders.processed, o)
    ensures Seen(BoxesOf(b), a.inventory.processed, o) == Seen(BoxesOf(a), a.inventory.processed, o)
    ensures Seen(BoxesOf(b), a.payments.processed, o) == Seen(BoxesOf(a), a.payments.processed, o)
    ensures HeardFirst(BoxesOf(b), a.orders.processed, o, Succeeded, Reserved)
         == HeardFirst(BoxesOf(a), a.orders.processed, o, Succeeded, Reserved)
    ensures HeardFirst(BoxesOf(b), a.inventory.processed, o, Cancelled, Kind.Created)
         == HeardFirst(BoxesOf(a), a.inventory.processed, o, Cancelled, Kind.Created)
  {
    HeardStays(BoxesOf(a), BoxesOf(b), a.orders.processed, o, Succeeded, Reserved);
    HeardStays(BoxesOf(a), BoxesOf(b), a.inventory.processed, o, Cancelled, Kind.Created);
    SeenStays(BoxesOf(a), BoxesOf(b), a.orders.processed, o);
    SeenStays(BoxesOf(a), BoxesOf(b), a.inventory.processed, o);
    SeenStays(BoxesOf(a), BoxesOf(b), a.payments.processed, o);
  }

  /** What a step may do to order `o` besides moving its saga on. */
  function DisturbanceOf(step: Step, o: OrderId): Disturbance {
    match step
    case CancelOrder(x, _, _, _, _) => if x == o then Cancels else Calm
    case Retry(x, _, _, _) => if x == o then Retries else Calm
    case AdminRefund(x, _, _) => if x == o then Repays else Calm
    case Sweep(_, _) => Expires
    case _ => Calm
  }

  function WithOrder(l: Local, p: OrderPart): Local {
    l.(known := p.known, status := p.status, created := p.created, cancelled := p.cancelled,
       cancelledPaid := p.cancelledPaid)
  }

  function WithInventory(l: Local, p: InventoryPart): Local {
    l.(reservation := p.reservation, reserved := p.reserved, refused := p.refused)
  }

  function WithPayment(l: Local, p: PaymentPart): Local {
    l.(payment := p.payment, attempts := p.attempts, succeeded := p.succeeded, declined := p.declined)
  }

  // ------------------------------------------------------------ requests

  lemma OrderRequestGrows(db: Orders.Db, step: Step)
    ensures db.outbox <= OrderRequest(db, step).outbox
  {
  }

  lemma OrderRequestPart(db: Orders.Db, step: Step, o: OrderId)
    ensures var p := OrderPartOf(db, o); var q := OrderPartOf(OrderRequest(db, step), o);
      || q == p
      || (!p.known && q == p.(known := true, status := PENDING, created := p.created + 1))
      || (p.known && p.status == CONFIRMED && q == p.(status := SHIPPED))
      || (p.known && p.status == SHIPPED && q == p.(status := DELIVERED))
      || (&& DisturbanceOf(step, o) == Cancels && p.known && p.status in CUSTOMER_CANCELLABLE
          && q == p.(status := CANCELLED, cancelled := p.cancelled + 1,
                     cancelledPaid := p.cancelledPaid || p.status in PAID_STATUSES))
  {
    match step {
      case Place(user, body, key, seen, contended) => CreatePart(db, user, body, key, Orders.Visible(db, seen), contended, o);
      case CancelOrder(x, caller, isAdmin, reason, now) =>
        if x < |db.orders| {
          CancelPart(db, x, reason, if isAdmin then "admin" else "customer", now, o);
        }
      case Ship(x, now) => AdvancePart(db, x, SHIPPED, "dispatched", now, o);
      case Deliver(x, now) => AdvancePart(db, x, DELIVERED, "delivered", now, o);
      case _ =>
    }
  }

  lemma OrderRequestView(sys: System, step: Step, o: OrderId)
    requires HandledIsPublished(sys)
    requires Next(sys, step) == sys.(orders := sys.orders.(tables := OrderRequest(sys.orders.tables, step)))
    ensures View(Next(sys, step), o) == WithOrder(View(sys, o), OrderPartOf(OrderRequest(sys.orders.tables, step), o))
  {
    OrderRequestGrows(sys.orders.tables, step);
    SeenFrame(sys, Next(sys, step), o);
  }

  lemma OrderRequestMoves(sys: System, step: Step, o: OrderId, l: Local)
    requires HandledIsPublished(sys) && l == View(sys, o) && LocalInv(l)
    requires Next(sys, step) == sys.(orders := sys.orders.(tables := OrderRequest(sys.orders.tables, step)))
    ensures Moves(l, View(Next(sys, step), o), DisturbanceOf(step, o))
  {
    OrderRequestView(sys, step, o);
    OrderRequestPart(sys.orders.tables, step, o);
  }

  lemma UpsertPart(db: Inventory.Db, step: Step, o: OrderId)
    requires step.Restock? || step.Recount?
    ensures AddsStock(db.outbox, InventoryRequest(db, step).outbox)
    ensures InventoryRequest(db, step).reservations == db.reservations
    ensures InventoryPartOf(InventoryRequest(db, step), o) == InventoryPartOf(db, o)
  {
    SupplyPart(db, InventoryRequest(db, step), o);
  }

  lemma InventoryRequestView(sys: System, step: Step, o: OrderId)
    requires HandledIsPublished(sys) && (step.Sweep? || step.Restock? || step.Recount?)
    ensures View(Next(sys, step), o)
         == WithInventory(View(sys, o), InventoryPartOf(InventoryRequest(sys.inventory.tables, step), o))
  {
    if step.Sweep? {
      SweepPart(sys.inventory.tables, step.now, step.limit, o);
    } else {
      UpsertPart(sys.inventory.tables, step, o);
    }
    SeenFrame(sys, Next(sys, step), o);
  }

  lemma SweptMove(l: Local, p: InventoryPart, q: InventoryPart)
    requires LocalInv(l) && p == InventoryPartIn(l)
    requires q == p || (p.reservation == Some(Inventory.HELD) && q == p.(reservation := Some(Inventory.EXPIRED)))
    ensures Moves(l, WithInventory(l, q), Expires)
    ensures q == p ==> WithInventory(l, q) == l
  {
  }

  lemma InventoryRequestMoves(sys: System, step: Step, o: OrderId, l: Local)
    requires HandledIsPublished(sys) && l == View(sys, o) && LocalInv(l) && (step.Sweep? || step.Restock? || step.Recount?)
    ensures Moves(l, View(Next(sys, step), o), DisturbanceOf(step, o))
  {
    var p, q := InventoryPartOf(sys.inventory.tables, o), InventoryPartOf(InventoryRequest(sys.inventory.tables, step), o);
    InventoryRequestView(sys, step, o);
    if step.Sweep? {
      SweepPart(sys.inventory.tables, step.now, step.limit, o);
    } else {
      UpsertPart(sys.inventory.tables, step, o);
    }
    SweptMove(l, p, q);
  }

  lemma RetryPart(db: Payments.Db, step: Step, o: OrderId)
    requires Payments.Inv(db) && step.Retry?
    ensures Adds(db.outbox, PaymentRequest(db, step).outbox, PaymentSide)
    ensures var p := PaymentPartOf(db, o); var q := PaymentPartOf(PaymentRequest(db, step), o);
      q == p || (o == step.order && p.payment == Some(Payments.FAILED)
                 && (q == Attempted(p, true, p.attempts + 1) || q == Attempted(p, false, p.attempts + 1)))
  {
    var r := Payments.RetryPayment(db, step.order, step.token, step.caller, step.provider);
    if r.Done? {
      var p := db.payments[step.order];
      assert Payments.PaymentOk(p);
      var again := p.(attempts := p.attempts + 1, status := Payments.PENDING, failureCode := None, failureMessage := None);
      AttemptPart(db, step.order, again, step.token, step.provider, o);
    }
  }

  lemma PaymentRequestView(sys: System, step: Step, o: OrderId)
    requires HandledIsPublished(sys) && (step.Retry? || step.AdminRefund?)
    requires sys.payments.tables.outbox <= PaymentRequest(sys.payments.tables, step).outbox
    ensures View(Next(sys, step), o)
         == WithPayment(View(sys, o), PaymentPartOf(PaymentRequest(sys.payments.tables, step), o))
  {
    SeenFrame(sys, Next(sys, step), o);
  }

  lemma PaymentRequestPart(db: Payments.Db, step: Step, o: OrderId)
    requires Payments.Inv(db) && (step.Retry? || step.AdminRefund?)
    ensures Adds(db.outbox, PaymentRequest(db, step).outbox, PaymentSide)
    ensures PaymentDisturbed(PaymentPartOf(db, o), PaymentPartOf(PaymentRequest(db, step), o), DisturbanceOf(step, o))
  {
    if step.Retry? {
      RetryPart(db, step, o);
    } else {
      RefundPart(db, step.order, step.reason, step.amount, o);
    }
  }

  predicate PaymentDisturbed(p: PaymentPart, q: PaymentPart, d: Disturbance) {
    || q == p
    || (d == Retries && p.payment == Some(Payments.FAILED)
        && (q == Attempted(p, true, p.attempts + 1) || q == Attempted(p, false, p.attempts + 1)))
    || (d == Repays && p.payment == Some(Payments.SUCCEEDED) && q == p.(payment := Some(Payments.REFUNDED)))
  }

  lemma PaymentDisturbs(l: Local, q: PaymentPart, d: Disturbance)
    requires (l.known || NothingYet(l)) && PaymentDisturbed(PaymentPartIn(l), q, d)
    ensures Moves(l, WithPayment(l, q), d)
  {
  }

  lemma PaymentRequestMoves(sys: System, step: Step, o: OrderId, l: Local)
    requires HandledIsPublished(sys) && l == View(sys, o) && LocalInv(l) && Payments.Inv(sys.payments.tables)
    requires step.Retry? || step.AdminRefund?
    ensures Moves(l, View(Next(sys, step), o), DisturbanceOf(step, o))
  {
    PaymentRequestPart(sys.payments.tables, step, o);
    PaymentRequestView(sys, step, o);
    PaymentDisturbs(View(sys, o), PaymentPartOf(PaymentRequest(sys.payments.tables, step), o), DisturbanceOf(step, o));
  }

  // ------------------------------------------------------------ handling

  lemma OrderHandleGrows(db: Orders.Db, e: Event, now: int)
    requires Orders.Subscribes(KindOf(e))
    ensures Orders.Handle(db, e, now).Some?
    ensures Adds(db.outbox, Orders.Handle(db, e, now).value.outbox, OrderSide)
  {
  }

  /** From `p` to `q` by handling an event of kind `k` about the order. */
  predicate OrderStep(p: OrderPart, k: Kind, q: OrderPart) {
    var open := p.status == PENDING || p.status == INVENTORY_RESERVED;
    match k
    case Reserved => q == (if p.status == PENDING then p.(status := INVENTORY_RESERVED) else p)
    case Refused => q == (if open then p.(status := FAILED) else p)
    case Succeeded => q == (if p.status == INVENTORY_RESERVED then p.(status := CONFIRMED) else p)
    case Declined => q == (if open then p.(status := FAILED, cancelled := p.cancelled + 1) else p)
    case _ => true
  }

  predicate InventoryStep(p: InventoryPart, k: Kind, q: InventoryPart) {
    match k
    case Created => p.reservation == None ==>
      (q == p.(reservation := Some(Inventory.HELD), reserved := p.reserved + 1) || q == p.(refused := p.refused + 1))
    case Succeeded =>
      q == (if p.reservation == Some(Inventory.HELD) then p.(reservation := Some(Inventory.COMMITTED)) else p)
    case _ =>
      q == (if p.reservation == Some(Inventory.HELD) || p.reservation == Some(Inventory.COMMITTED)
            then p.(reservation := Some(Inventory.RELEASED)) else p)
  }

  predicate PaymentStep(p: PaymentPart, k: Kind, paid: bool, q: PaymentPart) {
    match k
    case Reserved => if p.payment == None then q == Attempted(p, true, 1) || q == Attempted(p, false, 1) else q == p
    case _ => q == (if paid && p.payment == Some(Payments.SUCCEEDED) then p.(payment := Some(Payments.REFUNDED)) else p)
  }

  function OrderPartIn(l: Local): OrderPart {
    OrderPart(l.known, l.status, l.created, l.cancelled, l.cancelledPaid)
  }

  function InventoryPartIn(l: Local): InventoryPart {
    InventoryPart(l.reservation, l.reserved, l.refused)
  }

  function PaymentPartIn(l: Local): PaymentPart {
    PaymentPart(l.payment, l.attempts, l.succeeded, l.declined)
  }

  /** The share of an order in the order database after handling `e`. */
  lemma OrderHandlePart(db: Orders.Db, e: Event, now: int, o: OrderId)
    requires Orders.Subscribes(KindOf(e)) && Orders.Handle(db, e, now).Some?
    ensures var p := OrderPartOf(db, o); var q := OrderPartOf(Orders.Handle(db, e, now).value, o);
      if e.order != o || !p.known then q == p else OrderStep(p, KindOf(e), q)
  {
    match e {
      case InventoryReserved(x, _, _, _, _, _, _) => OnInventoryReservedPart(db, x, now, o);
      case ReservationFailed(x, _, reason, _) => OnReservationFailedPart(db, x, reason, now, o);
      case PaymentSucceeded(x, _, _, _, _) => OnPaymentSucceededPart(db, x, now, o);
      case PaymentFailed(x, _, _, _, code, message, _) => OnPaymentFailedPart(db, x, code, message, now, o);
      case _ =>
    }
  }

  /** The event is handled now: it is published, subscribed to, and not marked yet. */
  predicate Delivers(b: Boxes, processed: seq<EventId>, id: EventId) {
    Lookup(b, id).Some? && id !in processed
  }

  lemma OrderConsumesView(sys: System, id: EventId, now: int, o: OrderId)
    requires HandledIsPublished(sys) && Delivers(BoxesOf(sys), sys.orders.processed, id)
    requires Orders.Subscribes(KindOf(Lookup(BoxesOf(sys), id).value))
    ensures var e := Lookup(BoxesOf(sys), id).value; var l := View(sys, o);
      var m := WithOrder(l, OrderPartOf(Orders.Handle(sys.orders.tables, e, now).value, o));
      View(OrderConsumes(sys, id, now), o) ==
        if e.order == o
        then m.(orderSaw := l.orderSaw + {KindOf(e)},
                overtaken := l.overtaken || (KindOf(e) == Succeeded && Reserved !in l.orderSaw))
        else m
  {
    var next := OrderConsumes(sys, id, now);
    OrderHandleGrows(sys.orders.tables, Lookup(BoxesOf(sys), id).value, now);
    SeenFrame(sys, next, o);
    SeenMark(BoxesOf(next), sys.orders.processed, id, o);
    HeardMark(BoxesOf(next), sys.orders.processed, id, o, Succeeded, Reserved);
    KindsStay(BoxesOf(sys), BoxesOf(next), id, o);
  }

  /** What handling an event about the order does to its local state, service by service. */
  lemma OrderSees(l: Local, k: Kind, p: OrderPart)
    requires Orders.Subscribes(k) && l.known
    requires k == Reserved ==> l.reserved > 0
    requires k == Refused ==> l.refused > 0
    requires k == Succeeded ==> l.succeeded > 0 && Succeeded !in l.orderSaw
    requires k == Declined ==> l.declined > 0
    requires OrderStep(OrderPartIn(l), k, p)
    ensures OrderMoves(l, WithOrder(l, p).(orderSaw := l.orderSaw + {k},
                                           overtaken := l.overtaken || (k == Succeeded && Reserved !in l.orderSaw)))
  {
  }

  /** An event about an order means the order is known and the event is counted. */
  lemma PublishedMeansKnown(sys: System, id: EventId, o: OrderId)
    requires Produced(BoxesOf(sys)) && (View(sys, o).known || NothingYet(View(sys, o))) && Lookup(BoxesOf(sys), id).Some?
    requires KindOf(Lookup(BoxesOf(sys), id).value) != Stock && Lookup(BoxesOf(sys), id).value.order == o
    requires KindOf(Lookup(BoxesOf(sys), id).value) !in {Confirmed, Refunded}
    ensures var l := View(sys, o); var k := KindOf(Lookup(BoxesOf(sys), id).value);
      && l.known
      && (k == Kind.Created ==> l.created > 0)
      && (k == Cancelled ==> l.cancelled > 0)
      && (k == Reserved ==> l.reserved > 0)
      && (k == Refused ==> l.refused > 0)
      && (k == Succeeded ==> l.succeeded > 0)
      && (k == Declined ==> l.declined > 0)
  {
    PublishedIsCounted(BoxesOf(sys), id, KindOf(Lookup(BoxesOf(sys), id).value), o);
  }

  lemma OrderConsumesOwn(sys: System, id: EventId, now: int, o: OrderId, l: Local)
    requires HandledIsPublished(sys) && Produced(BoxesOf(sys)) && l == View(sys, o) && LocalInv(l)
    requires Delivers(BoxesOf(sys), sys.orders.processed, id)
    requires var e := Lookup(BoxesOf(sys), id).value; Orders.Subscribes(KindOf(e)) && e.order == o
    ensures l.known && OrderMoves(l, View(OrderConsumes(sys, id, now), o))
  {
    var e := Lookup(BoxesOf(sys), id).value;
    OrderHandleGrows(sys.orders.tables, e, now);
    OrderHandlePart(sys.orders.tables, e, now, o);
    OrderConsumesView(sys, id, now, o);
    PublishedMeansKnown(sys, id, o);
    if KindOf(e) == Succeeded {
      FirstSight(BoxesOf(sys), sys.orders.processed, id, Succeeded, o);
    }
    OrderSees(View(sys, o), KindOf(e), OrderPartOf(Orders.Handle(sys.orders.tables, e, now).value, o));
  }

  lemma OrderConsumesMoves(sys: System, id: EventId, now: int, o: OrderId, l: Local)
    requires HandledIsPublished(sys) && Produced(BoxesOf(sys)) && l == View(sys, o) && LocalInv(l)
    ensures Moves(l, View(OrderConsumes(sys, id, now), o), Calm)
  {
    var b := BoxesOf(sys);
    if Delivers(b, sys.orders.processed, id) && Orders.Subscribes(KindOf(Lookup(b, id).value)) {
      var e := Lookup(b, id).value;
      if e.order == o {
        OrderConsumesOwn(sys, id, now, o, l);
      } else {
        OrderHandleGrows(sys.orders.tables, e, now);
        OrderHandlePart(sys.orders.tables, e, now, o);
        OrderConsumesView(sys, id, now, o);
      }
    }
  }

  lemma InventoryHandleGrows(db: Inventory.Db, e: Event, now: int)
    requires Inventory.Subscribes(KindOf(e)) && Inventory.Handle(db, e, now).Some?
    ensures Adds(db.outbox, Inventory.Handle(db, e, now).value.outbox, InventorySide)
  {
    match e {
      case OrderCreated(_, _, _, _, _, _) =>
        ReservePart(db, Inventory.RequestOf(e), now + Inventory.RESERVATION_TTL, e.order);
      case PaymentSucceeded(o, _, _, _, _) => CommitPart(db, o, o);
      case PaymentFailed(o, _, _, _, _, _, _) => ReleasePart(db, o, o);
      case OrderCancelled(o, _, _, _, _) => ReleasePart(db, o, o);
      case _ =>
    }
  }

  lemma InventoryHandlePart(db: Inventory.Db, e: Event, now: int, o: OrderId)
    requires Inventory.Subscribes(KindOf(e)) && Inventory.Handle(db, e, now).Some?
    ensures var p := InventoryPartOf(db, o); var q := InventoryPartOf(Inventory.Handle(db, e, now).value, o);
      if e.order != o then q == p else InventoryStep(p, KindOf(e), q)
  {
    match e {
      case OrderCreated(_, _, _, _, _, _) =>
        ReservePart(db, Inventory.RequestOf(e), now + Inventory.RESERVATION_TTL, o);
      case PaymentSucceeded(x, _, _, _, _) => CommitPart(db, x, o);
      case PaymentFailed(x, _, _, _, _, _, _) => ReleasePart(db, x, o);
      case OrderCancelled(x, _, _, _, _) => ReleasePart(db, x, o);
      case _ =>
    }
  }

  lemma InventoryConsumesView(sys: System, id: EventId, now: int, o: OrderId)
    requires HandledIsPublished(sys) && Delivers(BoxesOf(sys), sys.inventory.processed, id)
    requires Inventory.Subscribes(KindOf(Lookup(BoxesOf(sys), id).value))
    requires Inventory.Handle(sys.inventory.tables, Lookup(BoxesOf(sys), id).value, now).Some?
    ensures var e := Lookup(BoxesOf(sys), id).value; var l := View(sys, o);
      var m := WithInventory(l, InventoryPartOf(Inventory.Handle(sys.inventory.tables, e, now).value, o));
      View(InventoryConsumes(sys, id, now), o) ==
        if e.order == o
        then m.(inventorySaw := l.inventorySaw + {KindOf(e)},
                premature := l.premature || (KindOf(e) == Cancelled && Kind.Created !in l.inventorySaw))
        else m
  {
    var next := InventoryConsumes(sys, id, now);
    InventoryHandleGrows(sys.inventory.tables, Lookup(BoxesOf(sys), id).value, now);
    SeenFrame(sys, next, o);
    SeenMark(BoxesOf(next), sys.inventory.processed, id, o);
    HeardMark(BoxesOf(next), sys.inventory.processed, id, o, Cancelled, Kind.Created);
    KindsStay(BoxesOf(sys), BoxesOf(next), id, o);
  }

  lemma InventorySees(l: Local, k: Kind, p: InventoryPart)
    requires Inventory.Subscribes(k) && l.known
    requires k == Kind.Created ==> Kind.Created !in l.inventorySaw && l.reservation == None
    requires k == Succeeded ==> l.succeeded > 0
    requires k == Declined ==> l.declined > 0
    requires k == Cancelled ==> l.cancelled > 0 && Cancelled !in l.inventorySaw
    requires InventoryStep(InventoryPartIn(l), k, p)
    ensures InventoryMoves(l, WithInventory(l, p).(inventorySaw := l.inventorySaw + {k},
                                                   premature := l.premature
                                                     || (k == Cancelled && Kind.Created !in l.inventorySaw)))
  {
  }

  lemma InventoryConsumesOwn(sys: System, id: EventId, now: int, o: OrderId, l: Local)
    requires HandledIsPublished(sys) && Produced(BoxesOf(sys)) && l == View(sys, o) && LocalInv(l)
    requires Delivers(BoxesOf(sys), sys.inventory.processed, id)
    requires var e := Lookup(BoxesOf(sys), id).value;
      Inventory.Subscribes(KindOf(e)) && e.order == o && Inventory.Handle(sys.inventory.tables, e, now).Some?
    ensures l.known && InventoryMoves(l, View(InventoryConsumes(sys, id, now), o))
  {
    var e := Lookup(BoxesOf(sys), id).value;
    InventoryHandlePart(sys.inventory.tables, e, now, o);
    InventoryConsumesView(sys, id, now, o);
    PublishedMeansKnown(sys, id, o);
    if KindOf(e) == Kind.Created || KindOf(e) == Cancelled {
      FirstSight(BoxesOf(sys), sys.inventory.processed, id, KindOf(e), o);
    }
    InventorySees(View(sys, o), KindOf(e), InventoryPartOf(Inventory.Handle(sys.inventory.tables, e, now).value, o));
  }

  lemma InventoryConsumesMoves(sys: System, id: EventId, now: int, o: OrderId, l: Local)
    requires HandledIsPublished(sys) && Produced(BoxesOf(sys)) && l == View(sys, o) && LocalInv(l)
    ensures Moves(l, View(InventoryConsumes(sys, id, now), o), Calm)
  {
    var b := BoxesOf(sys);
    if Delivers(b, sys.inventory.processed, id) && Inventory.Subscribes(KindOf(Lookup(b, id).value)) {
      var e := Lookup(b, id).value;
      if Inventory.Handle(sys.inventory.tables, e, now).Some? {
        if e.order == o {
          InventoryConsumesOwn(sys, id, now, o, l);
        } else {
          InventoryHandlePart(sys.inventory.tables, e, now, o);
          InventoryConsumesView(sys, id, now, o);
        }
      }
    }
  }

  lemma PaymentHandleGrows(db: Payments.Db, e: Event, provider: Payments.Provider)
    requires Payments.Inv(db) && Payments.Subscribes(KindOf(e)) && Payments.Handle(db, e, provider).Some?
    ensures Adds(db.outbox, Payments.Handle(db, e, provider).value.outbox, PaymentSide)
  {
    match e {
      case InventoryReserved(o, _, _, _, _, _, _) =>
        var q := Payments.RequestOf(e);
        AttemptPart(db, o, Payments.NewPayment(q), q.payment.token, provider, o);
      case OrderCancelled(o, _, reason, _, _) => RefundPart(db, o, "order cancelled: " + reason, None, o);
      case _ =>
    }
  }

  lemma PaymentHandlePart(db: Payments.Db, e: Event, provider: Payments.Provider, o: OrderId)
    requires Payments.Inv(db) && Payments.Subscribes(KindOf(e)) && Payments.Handle(db, e, provider).Some?
    ensures var p := PaymentPartOf(db, o); var q := PaymentPartOf(Payments.Handle(db, e, provider).value, o);
      if e.order != o then q == p else PaymentStep(p, KindOf(e), e.OrderCancelled? && e.wasPaid, q)
  {
    match e {
      case InventoryReserved(x, _, _, _, _, _, _) =>
        var q := Payments.RequestOf(e);
        AttemptPart(db, x, Payments.NewPayment(q), q.payment.token, provider, o);
      case OrderCancelled(x, _, reason, _, _) =>
        RefundPart(db, x, "order cancelled: " + reason, None, o);
        if x in db.payments && db.payments[x].status == Payments.SUCCEEDED {
          Payments.FullRefundGoesThrough(db, x, "order cancelled: " + reason);
        }
      case _ =>
    }
  }

  /** There is one cancellation event per order, so its flag is the recorded one. */
  lemma {:induction false} PaidCancelIs(outbox: seq<Event>, i: nat, o: OrderId)
    requires i < |outbox| && Is(outbox[i], Cancelled, o) && Count(outbox, Cancelled, o) <= 1
    ensures PaidCancel(outbox, o) == outbox[i].wasPaid
  {
    var init := outbox[..|outbox| - 1];
    if i < |init| {
      CountAtLeast(init, Cancelled, o, i, i);
      PaidCancelIs(init, i, o);
    } else if PaidCancel(init, o) {
      PaidCancelCounts(init, o);
    }
  }

  lemma {:induction false} PaidCancelCounts(outbox: seq<Event>, o: OrderId)
    requires PaidCancel(outbox, o)
    ensures Count(outbox, Cancelled, o) > 0
  {
    var init := outbox[..|outbox| - 1];
    if PaidCancel(init, o) {
      PaidCancelCounts(init, o);
    }
  }

  lemma PaymentConsumesView(sys: System, id: EventId, provider: Payments.Provider, o: OrderId)
    requires HandledIsPublished(sys) && Delivers(BoxesOf(sys), sys.payments.processed, id)
    requires Payments.Inv(sys.payments.tables) && Payments.Subscribes(KindOf(Lookup(BoxesOf(sys), id).value))
    requires Payments.Handle(sys.payments.tables, Lookup(BoxesOf(sys), id).value, provider).Some?
    ensures var e := Lookup(BoxesOf(sys), id).value; var l := View(sys, o);
      var m := WithPayment(l, PaymentPartOf(Payments.Handle(sys.payments.tables, e, provider).value, o));
      View(PaymentConsumes(sys, id, provider), o) ==
        if e.order == o then m.(paymentSaw := l.paymentSaw + {KindOf(e)}) else m
  {
    var next := PaymentConsumes(sys, id, provider);
    PaymentHandleGrows(sys.payments.tables, Lookup(BoxesOf(sys), id).value, provider);
    SeenFrame(sys, next, o);
    SeenMark(BoxesOf(next), sys.payments.processed, id, o);
    KindsStay(BoxesOf(sys), BoxesOf(next), id, o);
  }

  lemma PaymentSees(l: Local, k: Kind, p: PaymentPart)
    requires Payments.Subscribes(k) && l.known && (l.payment.Some? ==> Reserved in l.paymentSaw)
    requires k == Reserved ==> l.reserved > 0
    requires k == Cancelled ==> l.cancelled > 0
    requires PaymentStep(PaymentPartIn(l), k, l.cancelledPaid, p)
    ensures Moves(l, WithPayment(l, p).(paymentSaw := l.paymentSaw + {k}), Calm)
  {
    if k == Reserved && l.payment.Some? {
      assert l.paymentSaw + {k} == l.paymentSaw;
    }
  }

  lemma PaymentConsumesOwn(sys: System, id: EventId, provider: Payments.Provider, o: OrderId, l: Local)
    requires HandledIsPublished(sys) && Produced(BoxesOf(sys)) && l == View(sys, o) && LocalInv(l) && Payments.Inv(sys.payments.tables)
    requires Delivers(BoxesOf(sys), sys.payments.processed, id)
    requires var e := Lookup(BoxesOf(sys), id).value;
      Payments.Subscribes(KindOf(e)) && e.order == o && Payments.Handle(sys.payments.tables, e, provider).Some?
    ensures Moves(l, View(PaymentConsumes(sys, id, provider), o), Calm)
  {
    var b := BoxesOf(sys);
    var e := Lookup(b, id).value;
    PaymentHandlePart(sys.payments.tables, e, provider, o);
    PaymentConsumesView(sys, id, provider, o);
    PublishedMeansKnown(sys, id, o);
    if KindOf(e) == Cancelled {
      ProducerIsRight(b, id);
      PaidCancelIs(b.orders, id.index, o);
    }
    PaymentSees(View(sys, o), KindOf(e), PaymentPartOf(Payments.Handle(sys.payments.tables, e, provider).value, o));
  }

  lemma PaymentConsumesMoves(sys: System, id: EventId, provider: Payments.Provider, o: OrderId, l: Local)
    requires HandledIsPublished(sys) && Produced(BoxesOf(sys)) && l == View(sys, o) && LocalInv(l)
    requires Payments.Inv(sys.payments.tables)
    ensures Moves(l, View(PaymentConsumes(sys, id, provider), o), Calm)
  {
    var b := BoxesOf(sys);
    if Delivers(b, sys.payments.processed, id) && Payments.Subscribes(KindOf(Lookup(b, id).value)) {
      var e := Lookup(b, id).value;
      if Payments.Handle(sys.payments.tables, e, provider).Some? {
        if e.order == o {
          PaymentConsumesOwn(sys, id, provider, o, l);
        } else {
          PaymentHandlePart(sys.payments.tables, e, provider, o);
          PaymentConsumesView(sys, id, provider, o);
        }
      }
    }
  }

  lemma RequestMoves(sys: System, step: Step, o: OrderId, l: Local)
    requires HandledIsPublished(sys) && l == View(sys, o) && LocalInv(l) && Payments.Inv(sys.payments.tables) && IsRequest(step)
    ensures Moves(l, View(Next(sys, step), o), DisturbanceOf(step, o))
  {
    if step.Sweep? || step.Restock? || step.Recount? {
      InventoryRequestMoves(sys, step, o, l);
    } else if step.Retry? || step.AdminRefund? {
      PaymentRequestMoves(sys, step, o, l);
    } else {
      OrderRequestMoves(sys, step, o, l);
    }
  }

  lemma DeliveryIs(sys: System, step: Step)
    ensures step.OrderHandles? ==> Next(sys, step) == OrderConsumes(sys, step.id, step.now)
    ensures step.InventoryHandles? ==> Next(sys, step) == InventoryConsumes(sys, step.id, step.now)
    ensures step.PaymentHandles? ==> Next(sys, step) == PaymentConsumes(sys, step.id, step.provider)
  {
  }

  lemma DeliveryMoves(sys: System, step: Step, next: System, o: OrderId, l: Local)
    requires HandledIsPublished(sys) && Produced(BoxesOf(sys)) && l == View(sys, o) && LocalInv(l)
    requires Payments.Inv(sys.payments.tables) && !IsRequest(step)
    requires step.OrderHandles? ==> next == OrderConsumes(sys, step.id, step.now)
    requires step.InventoryHandles? ==> next == InventoryConsumes(sys, step.id, step.now)
    requires step.PaymentHandles? ==> next == PaymentConsumes(sys, step.id, step.provider)
    ensures Moves(l, View(next, o), Calm)
  {
    if step.OrderHandles? {
      OrderConsumesMoves(sys, step.id, step.now, o, l);
    } else if step.InventoryHandles? {
      InventoryConsumesMoves(sys, step.id, step.now, o, l);
    } else {
      PaymentConsumesMoves(sys, step.id, step.provider, o, l);
    }
  }

  /** The simulation. */
  lemma StepMoves(sys: System, step: Step, o: OrderId)
    requires SysInv(sys)
    ensures Moves(View(sys, o), View(Next(sys, step), o), DisturbanceOf(step, o))
  {
    var l := View(sys, o);
    assert LocalInv(l);
    if IsRequest(step) {
      RequestMoves(sys, step, o, l);
    } else {
      DeliveryIs(sys, step);
      DeliveryMoves(sys, step, Next(sys, step), o, l);
    }
  }
}
