/** Inventory's transactions, each as a function from the committed database to the next one. */
module Inventory {
  import opened Prelude
  import opened Events

  datatype ReservationStatus = HELD | COMMITTED | RELEASED | EXPIRED

  datatype StockItem = StockItem(sku: string, available: int, reserved: int, threshold: int)

  /** `items` are the reservation's rows in `reservation_items`, one per product. */
  datatype Reservation = Reservation(order: OrderId, user: UserId, status: ReservationStatus,
                                     expiresAt: int, items: seq<Line>)

  datatype LedgerRow = LedgerRow(product: ProductId, delta: int, reason: LedgerReason,
                                 ref: Option<OrderId>, balanceAfter: int)

  datatype Db = Db(stock: map<ProductId, StockItem>, reservations: seq<Reservation>,
                   ledger: seq<LedgerRow>, outbox: seq<Event>)

  datatype ReserveRequest = ReserveRequest(order: OrderId, user: UserId, items: seq<Line>, total: Money,
                                           currency: string, payment: PaymentMethod)

  datatype ReserveOutcome = Invalid | Duplicate | Insufficient | Granted

  const EMPTY: Db := Db(map[], [], [], [])

  /** `reservation_ttl_minutes`, in seconds. */
  const RESERVATION_TTL: int := 900

  const DEFAULT_LOW_STOCK_THRESHOLD: int := 10

  // ------------------------------------------------------------ one stock movement

  function StockChangedOf(product: ProductId, row: StockItem, reason: LedgerReason, ref: Option<OrderId>): Event {
    StockChanged(product, row.sku, row.available, row.reserved, reason, ref)
  }

  /** The low-stock alert, when the row is at or below its threshold. */
  function LowStockAlert(product: ProductId, row: StockItem): seq<Event> {
    if row.available <= row.threshold then [LowStock(product, row.sku, row.available, row.threshold)] else []
  }

  /** Only `reserve` and `adjust_stock` look at the threshold. */
  predicate AlertsOn(reason: LedgerReason) {
    reason == RESERVE || reason == ADJUST
  }

  /** Change one row's counters, with the ledger row and the events that go with it. */
  function Move(db: Db, product: ProductId, dAvailable: int, dReserved: int,
                reason: LedgerReason, ref: Option<OrderId>): Db
    requires product in db.stock
  {
    var old_ := db.stock[product];
    var row := old_.(available := old_.available + dAvailable, reserved := old_.reserved + dReserved);
    Db(db.stock[product := row],
       db.reservations,
       db.ledger + [LedgerRow(product, dAvailable, reason, ref, row.available)],
       db.outbox + [StockChangedOf(product, row, reason, ref)]
       + (if AlertsOn(reason) then LowStockAlert(product, row) else []))
  }

  /** Which way a movement takes units in and out of `available_qty`. */
  function AvailableSign(reason: LedgerReason): int {
    match reason
    case RESERVE => -1
    case RELEASE => 1
    case EXPIRE => 1
    case RESTOCK => 1
    case COMMIT => 0
    case ADJUST => 0
  }

  /** Which way a movement takes units in and out of `reserved_qty`. */
  function ReservedSign(reason: LedgerReason): int {
    match reason
    case RESERVE => 1
    case RELEASE => -1
    case EXPIRE => -1
    case COMMIT => -1
    case RESTOCK => 0
    case ADJUST => 0
  }

  /** One iteration of the loops over a reservation's items; a product without a row is passed over. */
  function MoveLine(db: Db, line: Line, reason: LedgerReason, order: OrderId): Db {
    if line.product in db.stock then
      Move(db, line.product, AvailableSign(reason) * line.quantity, ReservedSign(reason) * line.quantity,
           reason, Some(order))
    else
      db
  }

  function MoveLines(db: Db, lines: seq<Line>, reason: LedgerReason, order: OrderId): Db {
    if |lines| == 0 then db
    else MoveLine(MoveLines(db, lines[..|lines| - 1], reason, order), lines[|lines| - 1], reason, order)
  }

  // ------------------------------------------------------------ reserve

  /** Position of the line for `product`, or the length when there is none. */
  function IndexOf(lines: seq<Line>, product: ProductId): (i: nat)
    ensures i <= |lines|
    ensures i < |lines| ==> lines[i].product == product
    ensures forall j :: 0 <= j < i ==> lines[j].product != product
  {
    FirstIndex(lines, (line: Line) => line.product == product)
  }

  /** `wanted[product_id] = wanted.get(product_id, 0) + quantity` on an insertion-ordered dict. */
  function AddLine(wanted: seq<Line>, line: Line): seq<Line> {
    var i := IndexOf(wanted, line.product);
    if i < |wanted| then wanted[i := Line(line.product, wanted[i].quantity + line.quantity)]
    else wanted + [line]
  }

  /** Duplicate lines for one product are checked and reserved as their sum. */
  function Wanted(items: seq<Line>): seq<Line> {
    if |items| == 0 then [] else AddLine(Wanted(items[..|items| - 1]), items[|items| - 1])
  }

  predicate Short(stock: map<ProductId, StockItem>, line: Line) {
    line.product !in stock || stock[line.product].available < line.quantity
  }

  function Shortage(stock: map<ProductId, StockItem>, line: Line): InsufficientItem {
    InsufficientItem(line.product, line.quantity,
                     if line.product in stock then stock[line.product].available else 0)
  }

  function Shortages(stock: map<ProductId, StockItem>, wanted: seq<Line>): seq<InsufficientItem> {
    if |wanted| == 0 then []
    else
      var last := wanted[|wanted| - 1];
      Shortages(stock, wanted[..|wanted| - 1]) + (if Short(stock, last) then [Shortage(stock, last)] else [])
  }

  /** Lines in the order the rows are locked and updated. */
  function InLockOrder(wanted: seq<Line>): seq<Line> {
    SortBy(wanted, (line: Line) => line.product)
  }

  /** Position of the order's reservation, or the length of the table. `order_id` is UNIQUE. */
  function Find(reservations: seq<Reservation>, order: OrderId): (i: nat)
    ensures i <= |reservations|
    ensures i < |reservations| ==> reservations[i].order == order
    ensures forall j :: 0 <= j < i ==> reservations[j].order != order
  {
    FirstIndex(reservations, (r: Reservation) => r.order == order)
  }

  predicate HasReservation(db: Db, order: OrderId) {
    Find(db.reservations, order) < |db.reservations|
  }

  function ReservationOf(db: Db, order: OrderId): Reservation
    requires HasReservation(db, order)
  {
    db.reservations[Find(db.reservations, order)]
  }

  predicate AllPositive(lines: seq<Line>) {
    forall i :: 0 <= i < |lines| ==> lines[i].quantity > 0
  }

  function Decide(db: Db, q: ReserveRequest): ReserveOutcome {
    if |q.items| == 0 then Invalid
    else if HasReservation(db, q.order) then Duplicate
    else if !AllPositive(q.items) then Invalid
    else if |Shortages(db.stock, Wanted(q.items))| > 0 then Insufficient
    else Granted
  }

  /** The database after the movements of a granted request, before its event is queued. */
  function Hold(db: Db, q: ReserveRequest, expiresAt: int): Db {
    var lines := InLockOrder(Wanted(q.items));
    var row := Reservation(q.order, q.user, HELD, expiresAt, lines);
    MoveLines(db.(reservations := db.reservations + [row]), lines, RESERVE, q.order)
  }

  function ReservedEvent(q: ReserveRequest, expiresAt: int): Event {
    InventoryReserved(q.order, q.user, expiresAt, Wanted(q.items), q.total, q.currency, q.payment)
  }

  function RefusedEvent(db: Db, q: ReserveRequest): Event {
    ReservationFailed(q.order, q.user, "insufficient stock", Shortages(db.stock, Wanted(q.items)))
  }

  /** `reserve`. An invalid request raises, so its transaction writes nothing. */
  function Reserve(db: Db, q: ReserveRequest, expiresAt: int): Db {
    match Decide(db, q)
    case Invalid => db
    case Duplicate => db
    case Insufficient => db.(outbox := db.outbox + [RefusedEvent(db, q)])
    case Granted =>
      var held := Hold(db, q, expiresAt);
      held.(outbox := held.outbox + [ReservedEvent(q, expiresAt)])
  }

  // ------------------------------------------------------------ commit, release, expire

  /** Run one reservation's movements and give it its next status. */
  function Settle(db: Db, i: nat, reason: LedgerReason, status: ReservationStatus): Db
    requires i < |db.reservations|
  {
    var r := db.reservations[i];
    var moved := MoveLines(db, r.items, reason, r.order);
    moved.(reservations := db.reservations[i := r.(status := status)])
  }

  /** `commit_reservation`: only a HELD reservation is committed. */
  function Commit(db: Db, order: OrderId): Db {
    if HasReservation(db, order) && ReservationOf(db, order).status == HELD
    then Settle(db, Find(db.reservations, order), COMMIT, COMMITTED)
    else db
  }

  /** `release_reservation`: HELD units return, COMMITTED units are restocked, the rest is a no-op. */
  function Release(db: Db, order: OrderId): Db {
    if !HasReservation(db, order) then db
    else
      match ReservationOf(db, order).status
      case RELEASED => db
      case EXPIRED => db
      case COMMITTED => Settle(db, Find(db.reservations, order), RESTOCK, RELEASED)
      case HELD => Settle(db, Find(db.reservations, order), RELEASE, RELEASED)
  }

  datatype Stale = Stale(index: nat, expiresAt: int)

  predicate IsStale(r: Reservation, now: int) {
    r.status == HELD && r.expiresAt < now
  }

  function StaleRows(reservations: seq<Reservation>, now: int): (rows: seq<Stale>)
    ensures forall k :: 0 <= k < |rows| ==> rows[k].index < |reservations|
  {
    if |reservations| == 0 then []
    else
      var n := |reservations| - 1;
      StaleRows(reservations[..n], now)
      + (if IsStale(reservations[n], now) then [Stale(n, reservations[n].expiresAt)] else [])
  }

  /** The rows one sweep takes: the earliest to expire, at most `limit` of them. */
  function Batch(reservations: seq<Reservation>, now: int, limit: nat): seq<Stale> {
    var sorted := SortBy(StaleRows(reservations, now), (row: Stale) => row.expiresAt);
    if |sorted| <= limit then sorted else sorted[..limit]
  }

  function ExpireRows(db: Db, rows: seq<Stale>): (r: Db)
    requires forall k :: 0 <= k < |rows| ==> rows[k].index < |db.reservations|
    ensures |r.reservations| == |db.reservations|
  {
    if |rows| == 0 then db
    else
      var before := ExpireRows(db, rows[..|rows| - 1]);
      Settle(before, rows[|rows| - 1].index, EXPIRE, EXPIRED)
  }

  lemma BatchInRange(reservations: seq<Reservation>, now: int, limit: nat)
    ensures |Batch(reservations, now, limit)| <= limit
    ensures forall k :: 0 <= k < |Batch(reservations, now, limit)| ==>
      Batch(reservations, now, limit)[k] in StaleRows(reservations, now)
    ensures forall k :: 0 <= k < |Batch(reservations, now, limit)| ==>
      Batch(reservations, now, limit)[k].index < |reservations|
  {
    var rows := StaleRows(reservations, now);
    var key := (row: Stale) => row.expiresAt;
    var sorted := SortBy(rows, key);
    SortByIsSort(rows, key);
    forall k | 0 <= k < |sorted|
      ensures sorted[k] in rows
    {
      assert sorted[k] in multiset(sorted);
    }
  }

  /** `expire_stale_reservations`: one sweep. */
  function ExpireStale(db: Db, now: int, limit: nat): Db {
    BatchInRange(db.reservations, now, limit);
    ExpireRows(db, Batch(db.reservations, now, limit))
  }

  // ------------------------------------------------------------ admin

  function UpperChar(c: char): char {
    if 'a' <= c <= 'z' then c - 'a' + 'A' else c
  }

  /** ASCII `str.upper`. */
  function Upper(s: string): string {
    if |s| == 0 then "" else Upper(s[..|s| - 1]) + [UpperChar(s[|s| - 1])]
  }

  predicate SkuTaken(db: Db, sku: string) {
    exists p :: p in db.stock && db.stock[p].sku == sku
  }

  function NewRow(sku: string, threshold: Option<int>): StockItem {
    StockItem(Upper(sku), 0, 0, if threshold.Some? then threshold.value else DEFAULT_LOW_STOCK_THRESHOLD)
  }

  function WithThreshold(row: StockItem, threshold: Option<int>): StockItem {
    if threshold.Some? then row.(threshold := threshold.value) else row
  }

  /** `upsert_stock_item`. None when the UNIQUE sku belongs to another product. */
  function Upsert(db: Db, product: ProductId, sku: string, quantity: int, threshold: Option<int>): Option<Db> {
    if product in db.stock then
      var row := WithThreshold(db.stock[product], threshold);
      Some(Move(db.(stock := db.stock[product := row]), product, quantity, 0, RESTOCK, None))
    else if SkuTaken(db, Upper(sku)) then None
    else
      Some(Move(db.(stock := db.stock[product := NewRow(sku, threshold)]), product, quantity, 0, RESTOCK, None))
  }

  /** `adjust_stock`: set an absolute count. None when the product has no row. */
  function Adjust(db: Db, product: ProductId, available: int, threshold: Option<int>): Option<Db> {
    if product !in db.stock then None
    else
      var row := WithThreshold(db.stock[product], threshold);
      Some(Move(db.(stock := db.stock[product := row]), product, available - row.available, 0, ADJUST, None))
  }

  // ------------------------------------------------------------ the consumer's handlers

  function Lines(items: seq<OrderLine>): seq<Line> {
    if |items| == 0 then []
    else Lines(items[..|items| - 1]) + [Line(items[|items| - 1].product, items[|items| - 1].quantity)]
  }

  function RequestOf(e: Event): ReserveRequest
    requires e.OrderCreated?
  {
    ReserveRequest(e.order, e.user, Lines(e.items), e.total, e.currency, e.payment)
  }

  predicate Subscribes(k: Kind) {
    k == Created || k == Succeeded || k == Declined || k == Cancelled
  }

  /** One event handled in one transaction; None when the handler raises. */
  function Handle(db: Db, e: Event, now: int): Option<Db> {
    match e
    case OrderCreated(_, _, _, _, _, _) =>
      if Decide(db, RequestOf(e)) == Invalid then None
      else Some(Reserve(db, RequestOf(e), now + RESERVATION_TTL))
    case PaymentSucceeded(o, _, _, _, _) => Some(Commit(db, o))
    case PaymentFailed(o, _, _, _, _, _, _) => Some(Release(db, o))
    case OrderCancelled(o, _, _, _, _) => Some(Release(db, o))
    case _ => Some(db)
  }
}
