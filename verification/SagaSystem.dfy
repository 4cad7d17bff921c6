/** The three services together: one transaction of one of them per step, no coordinator.

    A service learns of an event by handling it, in any order and at any time after it was published;
    `processed_events` makes a second handling a no-op. How records get from an outbox to a handler is
    `SagaNetwork`'s business. */
module SagaSystem {
  import opened Prelude
  import opened Events
  import opened OrderStatuses
  import Delivery
  import Orders
  import Inventory
  import Payments

  datatype System = System(orders: Delivery.Database<Orders.Db>,
                           inventory: Delivery.Database<Inventory.Db>,
                           payments: Delivery.Database<Payments.Db>)

  const START: System := System(Delivery.Database(Orders.EMPTY, []),
                                Delivery.Database(Inventory.EMPTY, []),
                                Delivery.Database(Payments.EMPTY, []))

  // ------------------------------------------------------------ what has been published

  datatype Boxes = Boxes(orders: seq<Event>, inventory: seq<Event>, payments: seq<Event>)

  function BoxesOf(sys: System): Boxes {
    Boxes(sys.orders.tables.outbox, sys.inventory.tables.outbox, sys.payments.tables.outbox)
  }

  function Box(b: Boxes, s: Service): seq<Event> {
    match s
    case OrderSide => b.orders
    case InventorySide => b.inventory
    case PaymentSide => b.payments
  }

  /** The event with this id, once its transaction has committed. */
  function Lookup(b: Boxes, id: EventId): Option<Event> {
    var box := Box(b, id.producer);
    if id.index < |box| then Some(box[id.index]) else None
  }

  // ------------------------------------------------------------ steps

  datatype Step =
    | Place(user: UserId, body: Orders.CreateRequest, key: string, seen: nat, contended: bool)
    | CancelOrder(order: OrderId, caller: UserId, isAdmin: bool, reason: string, now: int)
    | Ship(order: OrderId, now: int)
    | Deliver(order: OrderId, now: int)
    | Reprice(product: ProductId, snapshot: Orders.Snapshot)
    | Retry(order: OrderId, token: string, caller: UserId, provider: Payments.Provider)
    | AdminRefund(order: OrderId, reason: string, amount: Option<Money>)
    | Sweep(now: int, limit: nat)
    | Restock(product: ProductId, sku: string, quantity: nat, threshold: Option<int>)
    | Recount(product: ProductId, available: nat, threshold: Option<int>)
    | OrderHandles(id: EventId, now: int)
    | InventoryHandles(id: EventId, now: int)
    | PaymentHandles(id: EventId, provider: Payments.Provider)

  /** Not a delivery. */
  predicate IsRequest(step: Step) {
    !step.OrderHandles? && !step.InventoryHandles? && !step.PaymentHandles?
  }

  /** A request-driven order transaction; one that raises is rolled back. */
  function OrderRequest(db: Orders.Db, step: Step): Orders.Db {
    match step
    case Place(user, body, key, seen, contended) =>
      (match Orders.CreateOrder(db, user, body, key, Orders.Visible(db, seen), contended)
       case Done(c) => c.db
       case Raised(_) => db)
    case CancelOrder(o, caller, isAdmin, reason, now) =>
      (match Orders.CancelOrder(db, o, caller, isAdmin, reason, now)
       case Done(next) => next
       case Raised(_) => db)
    case Ship(o, now) =>
      (match Orders.Advance(db, o, SHIPPED, "dispatched", now)
       case Done(next) => next
       case Raised(_) => db)
    case Deliver(o, now) =>
      (match Orders.Advance(db, o, DELIVERED, "delivered", now)
       case Done(next) => next
       case Raised(_) => db)
    case Reprice(p, s) => Orders.UpsertSnapshot(db, p, s)
    case _ => db
  }

  function InventoryRequest(db: Inventory.Db, step: Step): Inventory.Db {
    match step
    case Sweep(now, limit) => Inventory.ExpireStale(db, now, limit)
    case Restock(p, sku, quantity, threshold) =>
      (match Inventory.Upsert(db, p, sku, quantity, threshold)
       case Some(next) => next
       case None => db)
    case Recount(p, available, threshold) =>
      (match Inventory.Adjust(db, p, available, threshold)
       case Some(next) => next
       case None => db)
    case _ => db
  }

  function PaymentRequest(db: Payments.Db, step: Step): Payments.Db {
    match step
    case Retry(o, token, caller, provider) =>
      (match Payments.RetryPayment(db, o, token, caller, provider)
       case Done(next) => next
       case Raised(_) => db)
    case AdminRefund(o, reason, amount) =>
      (match Payments.RefundForOrder(db, o, reason, amount)
       case Done(next) => if next.Some? then next.value else db
       case Raised(_) => db)
    case _ => db
  }

  function OrderConsumes(sys: System, id: EventId, now: int): System {
    match Lookup(BoxesOf(sys), id)
    case None => sys
    case Some(e) =>
      if Orders.Subscribes(KindOf(e))
      then sys.(orders := Delivery.Dispatch(sys.orders, id, Orders.Handle(sys.orders.tables, e, now)))
      else sys
  }

  function InventoryConsumes(sys: System, id: EventId, now: int): System {
    match Lookup(BoxesOf(sys), id)
    case None => sys
    case Some(e) =>
      if Inventory.Subscribes(KindOf(e))
      then sys.(inventory := Delivery.Dispatch(sys.inventory, id, Inventory.Handle(sys.inventory.tables, e, now)))
      else sys
  }

  function PaymentConsumes(sys: System, id: EventId, provider: Payments.Provider): System {
    match Lookup(BoxesOf(sys), id)
    case None => sys
    case Some(e) =>
      if Payments.Subscribes(KindOf(e))
      then sys.(payments := Delivery.Dispatch(sys.payments, id, Payments.Handle(sys.payments.tables, e, provider)))
      else sys
  }

  function Next(sys: System, step: Step): System {
    match step
    case OrderHandles(id, now) => OrderConsumes(sys, id, now)
    case InventoryHandles(id, now) => InventoryConsumes(sys, id, now)
    case PaymentHandles(id, provider) => PaymentConsumes(sys, id, provider)
    case Sweep(_, _) => sys.(inventory := sys.inventory.(tables := InventoryRequest(sys.inventory.tables, step)))
    case Restock(_, _, _, _) => sys.(inventory := sys.inventory.(tables := InventoryRequest(sys.inventory.tables, step)))
    case Recount(_, _, _) => sys.(inventory := sys.inventory.(tables := InventoryRequest(sys.inventory.tables, step)))
    case Retry(_, _, _, _) => sys.(payments := sys.payments.(tables := PaymentRequest(sys.payments.tables, step)))
    case AdminRefund(_, _, _) => sys.(payments := sys.payments.(tables := PaymentRequest(sys.payments.tables, step)))
    case _ => sys.(orders := sys.orders.(tables := OrderRequest(sys.orders.tables, step)))
  }

  function Run(steps: seq<Step>): System {
    if |steps| == 0 then START else Next(Run(steps[..|steps| - 1]), steps[|steps| - 1])
  }
}
