/** Order's transactions: the saga's transitions and the request-driven operations. */
module Orders {
  import opened Prelude
  import opened Events
  import opened OrderStatuses

  datatype HistoryRow = HistoryRow(from: Option<OrderStatus>, to: OrderStatus, reason: string)

  datatype OrderRow = OrderRow(user: UserId, status: OrderStatus, items: seq<OrderLine>, total: Money,
                               currency: string, payment: PaymentMethod, key: string,
                               history: seq<HistoryRow>, failureReason: Option<string>, completedAt: Option<int>)

  datatype Snapshot = Snapshot(sku: string, name: string, price: Money, currency: string, isActive: bool)

  /** An order's id is its position in the orders table: rows are only ever appended. */
  datatype Db = Db(orders: seq<OrderRow>, snapshots: map<ProductId, Snapshot>, outbox: seq<Event>)

  const EMPTY: Db := Db([], map[], [])

  datatype Error =
    | BadRequest | UnknownProducts(missing: seq<ProductId>) | InactiveProducts(inactive: seq<ProductId>)
    | MixedCurrencies | KeyTaken | KeyInFlight | NotFound | Forbidden | NotCancellable | InvalidStateTransition

  datatype Outcome<T> = Done(value: T) | Raised(error: Error)

  // ------------------------------------------------------------ one transition

  /** `transition` moves the row; otherwise it is a no-op or refused. */
  predicate Moves(row: OrderRow, target: OrderStatus) {
    row.status != target && CanTransition(row.status, target)
  }

  /** A strict caller gets an exception instead of a refusal. */
  predicate Raises(row: OrderRow, target: OrderStatus) {
    row.status != target && !CanTransition(row.status, target)
  }

  function Moved(row: OrderRow, target: OrderStatus, reason: string, now: int): OrderRow {
    row.(status := target,
         failureReason := if reason != "" && target == FAILED then Some(reason) else row.failureReason,
         history := row.history + [HistoryRow(Some(row.status), target, reason)],
         completedAt := if row.completedAt == None && IsTerminal(target) then Some(now) else row.completedAt)
  }

  // ------------------------------------------------------------ the saga's steps

  function ConfirmedEvent(o: OrderId, row: OrderRow): Event {
    OrderConfirmed(o, row.user, row.total, row.currency, row.items)
  }

  function CancelledEvent(o: OrderId, row: OrderRow, reason: string, wasPaid: bool): Event {
    OrderCancelled(o, row.user, reason, wasPaid, row.items)
  }

  function OnInventoryReserved(db: Db, o: OrderId, now: int): Db {
    if o < |db.orders| && Moves(db.orders[o], INVENTORY_RESERVED)
    then db.(orders := db.orders[o := Moved(db.orders[o], INVENTORY_RESERVED, "stock reserved", now)])
    else db
  }

  /** PAID and then CONFIRMED, in one transaction. */
  function Confirm(row: OrderRow, now: int): OrderRow {
    Moved(Moved(row, PAID, "payment captured", now), CONFIRMED, "order confirmed", now)
  }

  function OnPaymentSucceeded(db: Db, o: OrderId, now: int): Db {
    if o < |db.orders| && Moves(db.orders[o], PAID)
    then db.(orders := db.orders[o := Confirm(db.orders[o], now)],
             outbox := db.outbox + [ConfirmedEvent(o, db.orders[o])])
    else db
  }

  function PaymentFailure(code: string, message: string): string {
    Truncate("payment failed (" + code + "): " + message, 500)
  }

  function OnPaymentFailed(db: Db, o: OrderId, code: string, message: string, now: int): Db {
    if o < |db.orders| && Moves(db.orders[o], FAILED)
    then db.(orders := db.orders[o := Moved(db.orders[o], FAILED, PaymentFailure(code, message), now)],
             outbox := db.outbox + [CancelledEvent(o, db.orders[o], "payment failed: " + code, false)])
    else db
  }

  function OutOfStock(reason: string): string {
    Truncate("out of stock: " + reason, 500)
  }

  function OnReservationFailed(db: Db, o: OrderId, reason: string, now: int): Db {
    if o < |db.orders| && Moves(db.orders[o], FAILED)
    then db.(orders := db.orders[o := Moved(db.orders[o], FAILED, OutOfStock(reason), now)])
    else db
  }

  function CancelReason(actor: string, reason: string): string {
    Truncate("cancelled by " + actor + ": " + reason, 500)
  }

  /** `saga.cancel` on an order that may move. */
  function Cancel(db: Db, o: OrderId, reason: string, actor: string, now: int): Db
    requires o < |db.orders|
  {
    var row := db.orders[o];
    if Moves(row, CANCELLED)
    then db.(orders := db.orders[o := Moved(row, CANCELLED, CancelReason(actor, reason), now)],
             outbox := db.outbox + [CancelledEvent(o, row, reason, row.status in PAID_STATUSES)])
    else db
  }

  // ------------------------------------------------------------ requests

  function CancelOrder(db: Db, o: OrderId, caller: UserId, isAdmin: bool, reason: string, now: int): Outcome<Db> {
    if o >= |db.orders| then Raised(NotFound)
    else if !isAdmin && db.orders[o].user != caller then Raised(Forbidden)
    else if db.orders[o].status !in CUSTOMER_CANCELLABLE then Raised(NotCancellable)
    else if Raises(db.orders[o], CANCELLED) then Raised(InvalidStateTransition)
    else Done(Cancel(db, o, reason, if isAdmin then "admin" else "customer", now))
  }

  /** `ship_order` and `deliver_order`: a strict transition. */
  function Advance(db: Db, o: OrderId, target: OrderStatus, reason: string, now: int): Outcome<Db> {
    if o >= |db.orders| then Raised(NotFound)
    else if Raises(db.orders[o], target) then Raised(InvalidStateTransition)
    else if !Moves(db.orders[o], target) then Done(db)
    else Done(db.(orders := db.orders[o := Moved(db.orders[o], target, reason, now)]))
  }

  // ------------------------------------------------------------ create

  datatype CreateRequest = CreateRequest(items: seq<Line>, payment: PaymentMethod)

  /** What the request schema lets through: one positive line per product, and at least one. */
  predicate WellFormed(body: CreateRequest) {
    && |body.items| > 0
    && (forall i :: 0 <= i < |body.items| ==> body.items[i].quantity > 0)
    && (forall i, j :: 0 <= i < j < |body.items| ==> body.items[i].product != body.items[j].product)
  }

  /** Position of the order with this idempotency key, or the length. `idempotency_key` is UNIQUE. */
  function FindKey(orders: seq<OrderRow>, key: string): (i: nat)
    ensures i <= |orders|
    ensures i < |orders| ==> orders[i].key == key
    ensures forall j :: 0 <= j < i ==> orders[j].key != key
  {
    FirstIndex(orders, (row: OrderRow) => row.key == key)
  }

  function Missing(snapshots: map<ProductId, Snapshot>, items: seq<Line>): seq<ProductId> {
    if |items| == 0 then []
    else
      var p := items[|items| - 1].product;
      Missing(snapshots, items[..|items| - 1]) + (if p !in snapshots then [p] else [])
  }

  function Inactive(snapshots: map<ProductId, Snapshot>, items: seq<Line>): seq<ProductId> {
    if |items| == 0 then []
    else
      var p := items[|items| - 1].product;
      Inactive(snapshots, items[..|items| - 1]) + (if p in snapshots && !snapshots[p].isActive then [p] else [])
  }

  predicate AllKnown(snapshots: map<ProductId, Snapshot>, items: seq<Line>) {
    forall i :: 0 <= i < |items| ==> items[i].product in snapshots
  }

  predicate OneCurrency(snapshots: map<ProductId, Snapshot>, items: seq<Line>)
    requires AllKnown(snapshots, items) && |items| > 0
  {
    forall i :: 0 <= i < |items| ==>
      snapshots[items[i].product].currency == snapshots[items[0].product].currency
  }

  function PricedLine(s: Snapshot, line: Line): OrderLine {
    OrderLine(line.product, s.sku, s.name, s.price, line.quantity)
  }

  /** The lines at the prices of this moment: copies, not references. */
  function Priced(snapshots: map<ProductId, Snapshot>, items: seq<Line>): seq<OrderLine>
    requires AllKnown(snapshots, items)
  {
    if |items| == 0 then []
    else
      var line := items[|items| - 1];
      Priced(snapshots, items[..|items| - 1]) + [PricedLine(snapshots[line.product], line)]
  }

  function Total(items: seq<OrderLine>): Money {
    if |items| == 0 then 0
    else Total(items[..|items| - 1]) + items[|items| - 1].unitPrice * items[|items| - 1].quantity
  }

  lemma {:induction false} MissingNone(snapshots: map<ProductId, Snapshot>, items: seq<Line>)
    ensures |Missing(snapshots, items)| == 0 <==> AllKnown(snapshots, items)
  {
    if |items| > 0 {
      MissingNone(snapshots, items[..|items| - 1]);
    }
  }

  function NewOrder(db: Db, user: UserId, body: CreateRequest, key: string): OrderRow
    requires AllKnown(db.snapshots, body.items) && |body.items| > 0
  {
    var lines := Priced(db.snapshots, body.items);
    OrderRow(user, PENDING, lines, Total(lines), db.snapshots[body.items[0].product].currency, body.payment, key,
             [HistoryRow(None, PENDING, "order placed")], None, None)
  }

  function CreatedEvent(o: OrderId, row: OrderRow): Event {
    OrderCreated(o, row.user, row.total, row.currency, row.items, row.payment)
  }

  datatype Created = CreatedOrder(order: OrderId, wasCreated: bool, db: Db)

  /** How many orders a lookup that saw `seen` of them can have seen. */
  function Visible(db: Db, seen: nat): (n: nat)
    ensures n <= |db.orders|
  {
    if seen <= |db.orders| then seen else |db.orders|
  }

  /** `create_order`. The first lookup sees the first `seen` orders; a request that raced it may have
      inserted more by the time this one inserts, and then the UNIQUE constraint answers. It answers
      `contended` requests too: their key is held by a request that has not committed. */
  function CreateOrder(db: Db, user: UserId, body: CreateRequest, key: string, seen: nat, contended: bool): Outcome<Created>
    requires seen <= |db.orders|
  {
    MissingNone(db.snapshots, body.items);
    var existing := FindKey(db.orders[..seen], key);
    if !WellFormed(body) then Raised(BadRequest)
    else if existing < seen then
      if db.orders[existing].user != user then Raised(KeyTaken) else Done(CreatedOrder(existing, false, db))
    else if |Missing(db.snapshots, body.items)| > 0 then Raised(UnknownProducts(Missing(db.snapshots, body.items)))
    else if |Inactive(db.snapshots, body.items)| > 0 then
      Raised(InactiveProducts(Inactive(db.snapshots, body.items)))
    else if !OneCurrency(db.snapshots, body.items) then Raised(MixedCurrencies)
    else if FindKey(db.orders, key) < |db.orders| then Done(CreatedOrder(FindKey(db.orders, key), false, db))
    else if contended then Raised(KeyInFlight)
    else
      var row := NewOrder(db, user, body, key);
      Done(CreatedOrder(|db.orders|, true,
        db.(orders := db.orders + [row], outbox := db.outbox + [CreatedEvent(|db.orders|, row)])))
  }

  // ------------------------------------------------------------ the consumer's handlers

  predicate Subscribes(k: Kind) {
    k == Reserved || k == Refused || k == Succeeded || k == Declined
  }

  /** One event handled in one transaction; an event for an unknown order is skipped. */
  function Handle(db: Db, e: Event, now: int): Option<Db> {
    match e
    case InventoryReserved(o, _, _, _, _, _, _) => Some(OnInventoryReserved(db, o, now))
    case ReservationFailed(o, _, reason, _) => Some(OnReservationFailed(db, o, reason, now))
    case PaymentSucceeded(o, _, _, _, _) => Some(OnPaymentSucceeded(db, o, now))
    case PaymentFailed(o, _, _, _, code, message, _) => Some(OnPaymentFailed(db, o, code, message, now))
    case _ => Some(db)
  }

  /** The catalog's price read-model. */
  function UpsertSnapshot(db: Db, product: ProductId, s: Snapshot): Db {
    db.(snapshots := db.snapshots[product := s])
  }
}
