/** A concrete run into the situations that the disturbances start from. */
module SagaCounterexamples {
  import opened Prelude
  import opened Events
  import opened OrderStatuses
  import opened SagaSystem
  import opened SagaDisturbances
  import opened SagaEarlyCancel
  import opened SagaPartialRefund
  import opened SagaRefunds
  import opened SagaProjection
  import opened SagaRuns
  import opened SagaViews
  import opened SagaTheorems
  import Delivery
  import Inventory
  import Orders
  import Payments

  // ------------------------------------------------------------ one order for one unit of one product

  const CARD: PaymentMethod := PaymentMethod("card", "tok_visa", None)
  const BODY: Orders.CreateRequest := Orders.CreateRequest([Line(0, 1)], CARD)
  const PRICE: Orders.Snapshot := Orders.Snapshot("A", "a", 100, "INR", true)
  const LINES: seq<OrderLine> := [OrderLine(0, "A", "a", 100, 1)]
  const ACCEPTS: Payments.Provider := Payments.Provider(false, "1")
  const DECLINES: Payments.Provider := Payments.Provider(true, "1")

  const CREATED: EventId := EventId(OrderSide, 0)
  const RESERVED: EventId := EventId(InventorySide, 3)
  const RESULT: EventId := EventId(PaymentSide, 0)

  /** Stock one unit, place an order for it, and hold the unit. */
  const PREFIX: seq<Step> := [
    Reprice(0, PRICE), Restock(0, "a", 1, None), Place(7, BODY, "k", 0, false), InventoryHandles(CREATED, 0)]

  function Row(status: OrderStatus): Orders.OrderRow {
    Orders.OrderRow(7, status, LINES, 100, "INR", CARD, "k", [Orders.HistoryRow(None, PENDING, "order placed")], None, None)
  }

  const PLACED: Orders.Db := Orders.Db([Row(PENDING)], map[0 := PRICE], [OrderCreated(0, 7, 100, "INR", LINES, CARD)])

  const STOCKED: Inventory.Db := Inventory.Db(
    map[0 := Inventory.StockItem("A", 1, 0, 10)], [],
    [Inventory.LedgerRow(0, 1, RESTOCK, None, 1)],
    [StockChanged(0, "A", 1, 0, RESTOCK, None)])

  const HOLDING: Inventory.Db := Inventory.Db(
    map[0 := Inventory.StockItem("A", 0, 1, 10)],
    [Inventory.Reservation(0, 7, Inventory.HELD, 900, [Line(0, 1)])],
    [Inventory.LedgerRow(0, 1, RESTOCK, None, 1), Inventory.LedgerRow(0, -1, RESERVE, Some(0), 0)],
    [StockChanged(0, "A", 1, 0, RESTOCK, None), StockChanged(0, "A", 0, 1, RESERVE, Some(0)), LowStock(0, "A", 0, 10),
     InventoryReserved(0, 7, 900, [Line(0, 1)], 100, "INR", CARD)])

  lemma NothingWrong(snapshots: map<ProductId, Orders.Snapshot>, line: Line)
    requires line.product in snapshots && snapshots[line.product].isActive
    ensures Orders.Missing(snapshots, [line]) == [] && Orders.Inactive(snapshots, [line]) == []
  {
    var items := [line];
    var none: seq<Line> := [];
    assert items[..|items| - 1] == none;
    assert Orders.Missing(snapshots, none) == [] && Orders.Inactive(snapshots, none) == [];
    assert items[|items| - 1].product == line.product;
  }

  lemma PricedOne(snapshots: map<ProductId, Orders.Snapshot>, line: Line)
    requires line.product in snapshots
    ensures var lines := [Orders.PricedLine(snapshots[line.product], line)];
      && Orders.AllKnown(snapshots, [line])
      && Orders.Priced(snapshots, [line]) == lines
      && Orders.Total(lines) == snapshots[line.product].price * line.quantity
  {
    var items := [line];
    var lines := [Orders.PricedLine(snapshots[line.product], line)];
    assert items[..|items| - 1] == [] && lines[..|lines| - 1] == [];
  }

  /** A request for one line, into an empty table. */
  lemma CreateOne(db: Orders.Db, user: UserId, line: Line, payment: PaymentMethod, key: string)
    requires db.orders == [] && line.quantity > 0 && line.product in db.snapshots && db.snapshots[line.product].isActive
    ensures var s := db.snapshots[line.product];
      var row := Orders.OrderRow(user, PENDING, [Orders.PricedLine(s, line)], s.price * line.quantity, s.currency,
                                 payment, key, [Orders.HistoryRow(None, PENDING, "order placed")], None, None);
      Orders.CreateOrder(db, user, Orders.CreateRequest([line], payment), key, 0, false)
      == Orders.Done(Orders.CreatedOrder(0, true, db.(orders := [row], outbox := db.outbox + [Orders.CreatedEvent(0, row)])))
  {
    var body := Orders.CreateRequest([line], payment);
    NothingWrong(db.snapshots, line);
    PricedOne(db.snapshots, line);
    assert Orders.WellFormed(body) && Orders.OneCurrency(db.snapshots, [line]);
    assert db.orders + [Orders.NewOrder(db, user, body, key)] == [Orders.NewOrder(db, user, body, key)];
  }

  lemma PlaceOrder()
    ensures OrderRequest(OrderRequest(Orders.EMPTY, Reprice(0, PRICE)), Place(7, BODY, "k", 0, false)) == PLACED
  {
    CreateOne(OrderRequest(Orders.EMPTY, Reprice(0, PRICE)), 7, Line(0, 1), CARD, "k");
  }

  lemma StockUp()
    ensures InventoryRequest(Inventory.EMPTY, Restock(0, "a", 1, None)) == STOCKED
  {
    assert "a"[..0] == "";
    assert Inventory.Upper("a") == "A";
    assert InventoryRequest(Inventory.EMPTY, Restock(0, "a", 1, None)).stock == STOCKED.stock;
  }

  const REQUEST: Inventory.ReserveRequest := Inventory.ReserveRequest(0, 7, [Line(0, 1)], 100, "INR", CARD)

  lemma OneLine(line: Line)
    ensures Inventory.Wanted([line]) == [line] && Inventory.InLockOrder([line]) == [line]
  {
    var one := [line];
    assert one[..|one| - 1] == [];
    assert Inventory.AddLine([], line) == [] + [line] == one;
    assert Insert(line, [], (l: Line) => l.product) == one;
    assert SortBy(one, (l: Line) => l.product) == one;
  }

  /** A request for one line that is in stock. */
  lemma GrantOne(db: Inventory.Db, q: Inventory.ReserveRequest, line: Line)
    requires q.items == [line] && line.quantity > 0 && db.reservations == []
    requires line.product in db.stock && db.stock[line.product].available >= line.quantity
    ensures Inventory.Decide(db, q) == Inventory.Granted
  {
    OneLine(line);
    var one := [line];
    assert one[..|one| - 1] == [];
    assert Inventory.Shortages(db.stock, one) == [] + [];
  }

  lemma Granted()
    ensures Inventory.Decide(STOCKED, REQUEST) == Inventory.Granted
  {
    GrantOne(STOCKED, REQUEST, Line(0, 1));
  }

  lemma Held()
    ensures Inventory.Hold(STOCKED, REQUEST, 900) == HOLDING.(outbox := HOLDING.outbox[..3])
  {
    var one := [Line(0, 1)];
    OneLine(Line(0, 1));
    var start := STOCKED.(reservations := HOLDING.reservations);
    assert one[..|one| - 1] == one[..0] == [];
    assert Inventory.MoveLines(start, one[..0], RESERVE, 0) == start;
    var held := Inventory.MoveLine(start, Line(0, 1), RESERVE, 0);
    assert held.stock == HOLDING.stock && held.outbox == HOLDING.outbox[..3];
    assert Inventory.MoveLines(start, one, RESERVE, 0) == held;
    assert STOCKED.reservations + [Inventory.Reservation(0, 7, Inventory.HELD, 900, one)] == HOLDING.reservations;
  }

  lemma AskedFor()
    ensures Inventory.RequestOf(OrderCreated(0, 7, 100, "INR", LINES, CARD)) == REQUEST
  {
    assert LINES[..0] == [] && Inventory.Lines(LINES) == [Line(0, 1)];
  }

  lemma HandleGranted(db: Inventory.Db, e: Event, q: Inventory.ReserveRequest, held: Inventory.Db)
    requires e.OrderCreated? && Inventory.RequestOf(e) == q && Inventory.Decide(db, q) == Inventory.Granted
    requires Inventory.Hold(db, q, Inventory.RESERVATION_TTL) == held
    ensures Inventory.Handle(db, e, 0)
         == Some(held.(outbox := held.outbox + [Inventory.ReservedEvent(q, Inventory.RESERVATION_TTL)]))
  {
  }

  lemma HoldPublishes()
    ensures HOLDING.outbox[..3] + [Inventory.ReservedEvent(REQUEST, 900)] == HOLDING.outbox
  {
    OneLine(Line(0, 1));
  }

  lemma HoldUnit()
    ensures Inventory.Handle(STOCKED, OrderCreated(0, 7, 100, "INR", LINES, CARD), 0) == Some(HOLDING)
  {
    AskedFor();
    Granted();
    Held();
    HandleGranted(STOCKED, OrderCreated(0, 7, 100, "INR", LINES, CARD), REQUEST, HOLDING.(outbox := HOLDING.outbox[..3]));
    HoldPublishes();
  }

  /** The system with the unit held and nothing else handled. */
  const HELD_UP: System := System(
    Delivery.Database(PLACED, []), Delivery.Database(HOLDING, [CREATED]), Delivery.Database(Payments.EMPTY, []))

  lemma RunThree(a: Step, b: Step, c: Step)
    ensures Run([a, b, c]) == Next(Next(Next(START, a), b), c)
  {
    RunSnoc([], a);
    RunSnoc([a], b);
    RunSnoc([a, b], c);
    assert [] + [a] == [a] && [a] + [b] == [a, b] && [a, b] + [c] == [a, b, c];
  }

  lemma RunStocked()
    ensures Run(PREFIX[..3]) == HELD_UP.(inventory := Delivery.Database(STOCKED, []))
  {
    PlaceOrder();
    StockUp();
    RunThree(PREFIX[0], PREFIX[1], PREFIX[2]);
    assert PREFIX[..3] == [PREFIX[0], PREFIX[1], PREFIX[2]];
  }

  lemma FirstHandling(sys: System, id: EventId, e: Event, db: Inventory.Db)
    requires Lookup(BoxesOf(sys), id) == Some(e) && Inventory.Subscribes(KindOf(e)) && sys.inventory.processed == []
    requires Inventory.Handle(sys.inventory.tables, e, 0) == Some(db)
    ensures Next(sys, InventoryHandles(id, 0)) == sys.(inventory := Delivery.Database(db, [id]))
  {
  }

  lemma RunPrefix()
    ensures Run(PREFIX) == HELD_UP
  {
    RunStocked();
    HoldUnit();
    FirstHandling(HELD_UP.(inventory := Delivery.Database(STOCKED, [])), CREATED, PLACED.outbox[0], HOLDING);
    RunSnoc(PREFIX[..3], PREFIX[3]);
    assert PREFIX == PREFIX[..3] + [PREFIX[3]];
  }

  lemma HoldingView()
    ensures View(HELD_UP, 0) == WAITING
  {
    var b := BoxesOf(HELD_UP);
    assert [CREATED][..0] == [];
    assert Lookup(b, CREATED) == Some(PLACED.outbox[0]);
    assert Seen(b, [CREATED], 0) == {Kind.Created};
    assert !HeardFirst(b, [CREATED][..0], 0, Cancelled, Kind.Created);
    assert !HeardFirst(b, [CREATED], 0, Cancelled, Kind.Created);
    HoldingCounts(Reserved);
    HoldingCounts(Refused);
    CountOne(PLACED.outbox[0], Kind.Created, 0);
    CountOne(PLACED.outbox[0], Cancelled, 0);
    assert PLACED.outbox == [PLACED.outbox[0]] && PLACED.outbox[..0] == [];
    var placed := PLACED.outbox;
    assert Count(placed, Kind.Created, 0) == 1 && Count(placed, Cancelled, 0) == 0;
    assert !PaidCancel(placed[..0], 0) && !PaidCancel(placed, 0);
    assert PLACED.orders[0].status == PENDING;
    assert Inventory.Find(HOLDING.reservations, 0) == 0;
    assert InventoryPartOf(HOLDING, 0) == InventoryPart(Some(Inventory.HELD), 1, 0);
    assert PaymentPartOf(Payments.EMPTY, 0) == PaymentPart(None, 0, 0, 0);
  }

  lemma HoldingCounts(k: Kind)
    ensures Count(HOLDING.outbox, k, 0) == if k == Reserved then 1 else 0
  {
    var stock, last := HOLDING.outbox[..3], HOLDING.outbox[3];
    assert HOLDING.outbox == stock + [last];
    CountZero(stock, k, 0);
    CountAppend(stock, [last], k, 0);
    CountOne(last, k, 0);
  }

  /** An order that waits for its charge, with its card accepted, is a reachable situation. */
  lemma WaitingIsReachable()
    ensures Waiting(Run(PREFIX), 0, RESERVED)
    ensures Captures(Run(PREFIX), RESERVED, ACCEPTS) && !Captures(Run(PREFIX), RESERVED, DECLINES)
  {
    RunPrefix();
    HoldingView();
    assert Lookup(BoxesOf(HELD_UP), RESERVED) == Some(HOLDING.outbox[3]);
    assert CARD.token[4] == 'v';
  }

  lemma PrefixIsCalm()
    ensures AllCalm(PREFIX, 0)
  {
  }

  /** So a calm run, with everything settled, in which the services disagree does exist. */
  lemma CalmDisagreementExists() returns (r: seq<Step>)
    ensures AllCalm(r, 0) && Disagrees(r, 0)
  {
    PrefixIsCalm();
    WaitingIsReachable();
    r := CalmRunsCanDisagree(PREFIX, 0, RESERVED, ACCEPTS);
  }

  // ------------------------------------------------------------ a cancellation that inventory hears first

  /** The system with the order placed and nothing handled. */
  const JUST_PLACED: System := HELD_UP.(inventory := Delivery.Database(STOCKED, []))

  lemma StockedCounts(k: Kind)
    requires k == Reserved || k == Refused
    ensures Count(STOCKED.outbox, k, 0) == 0
  {
    CountZero(STOCKED.outbox, k, 0);
  }

  lemma PlacedView()
    ensures View(JUST_PLACED, 0) == SagaEarlyCancel.PLACED
  {
    StockedCounts(Reserved);
    StockedCounts(Refused);
    CountOne(PLACED.outbox[0], Kind.Created, 0);
    CountOne(PLACED.outbox[0], Cancelled, 0);
    var placed := PLACED.outbox;
    assert placed == [placed[0]] && placed[..0] == [];
    assert Count(placed, Kind.Created, 0) == 1 && Count(placed, Cancelled, 0) == 0;
    assert !PaidCancel(placed[..0], 0) && !PaidCancel(placed, 0);
    assert InventoryPartOf(STOCKED, 0) == InventoryPart(None, 0, 0);
    assert PaymentPartOf(Payments.EMPTY, 0) == PaymentPart(None, 0, 0, 0);
  }

  lemma CardIsAccepted()
    ensures Payments.Charge(100, CARD.token, ACCEPTS).Captured?
  {
    assert CARD.token[4] == 'v';
  }

  /** What makes an order affordable, for any tables. */
  lemma AffordableBy(sys: System, id: EventId, e: Event, q: Inventory.ReserveRequest, provider: Payments.Provider)
    requires Lookup(BoxesOf(sys), id) == Some(e) && e.OrderCreated? && Inventory.RequestOf(e) == q
    requires Inventory.Decide(sys.inventory.tables, q) == Inventory.Granted
    requires Payments.Charge(q.total, q.payment.token, provider).Captured?
    ensures Affordable(sys, id, provider)
    ensures ReservedId(sys, id)
         == EventId(InventorySide, |Inventory.Hold(sys.inventory.tables, q, Inventory.RESERVATION_TTL).outbox|)
  {
  }

  /** An order that inventory has not heard of, with stock for it and its card accepted. */
  lemma UnheardIsReachable()
    ensures Run(PREFIX[..3]) == JUST_PLACED
    ensures Unheard(JUST_PLACED, 0, CREATED) && Affordable(JUST_PLACED, CREATED, ACCEPTS)
    ensures ReservedId(JUST_PLACED, CREATED) == RESERVED
  {
    RunStocked();
    PlacedView();
    AskedFor();
    CardIsAccepted();
    Granted();
    Held();
    AffordableBy(JUST_PLACED, CREATED, OrderCreated(0, 7, 100, "INR", LINES, CARD), REQUEST, ACCEPTS);
  }

  lemma OneOrderFrom()
    ensures |Run(PREFIX[..3]).orders.tables.orders| == 1
  {
    RunStocked();
  }

  const CANCELLATION: EventId := EventId(OrderSide, 1)

  /** Cancelled at once, heard of by inventory in the wrong order, then held, charged and deducted. */
  const TOO_HASTY: seq<Step> := PREFIX[..3] + (
    [CancelOrder(0, 0, true, "x", 0), InventoryHandles(CANCELLATION, 0),
     InventoryHandles(CREATED, 0), PaymentHandles(RESERVED, ACCEPTS)]
    + [OrderHandles(RESERVED, 0), OrderHandles(RESULT, 0),
       InventoryHandles(RESULT, 0), PaymentHandles(CANCELLATION, ACCEPTS)])

  /** A settled run that leaves a cancelled order charged and its stock deducted for good. */
  lemma CancelledAndDeductedExists()
    ensures Ends(Run(TOO_HASTY), 0, CANCELLED, Payments.SUCCEEDED, Inventory.COMMITTED)
  {
    UnheardIsReachable();
    EarlyCancellationIsLost(PREFIX[..3], 0, CREATED, "x", ACCEPTS);
    assert NextOrderEvent(JUST_PLACED) == CANCELLATION && NextResult(JUST_PLACED) == RESULT;
    assert PREFIX[..3] + Hasty(JUST_PLACED, 0, CREATED, "x", ACCEPTS) == TOO_HASTY;
  }

  // ------------------------------------------------------------ a part of the money given back

  /** The order for one unit, accepted and paid. */
  function Accepting(): seq<Step> {
    PREFIX + InOrder(Run(PREFIX), RESERVED, ACCEPTS)
  }

  lemma PlacedTotal()
    ensures |Run(PREFIX).orders.tables.orders| == 1 && Run(PREFIX).orders.tables.orders[0].total == 100
  {
    RunPrefix();
  }

  lemma AcceptingIsRefundable()
    ensures CanRepayPart(Run(Accepting()), 0, 1) && Run(Accepting()).payments.tables.payments[0].amount == 100
  {
    WaitingIsReachable();
    InOrderIsAccepted(PREFIX, 0, RESERVED, ACCEPTS);
    PlacedTotal();
    OrdersStay(PREFIX, Accepting());
    PaymentAt(Accepting(), 0);
  }

  /** One paisa of a hundred is given back, the order is cancelled, and ninety-nine are kept. */
  lemma NinetyNineAreKept() returns (r: seq<Step>)
    ensures Accepting() + Goodwill(0, "sorry", 1, "x") <= r
    ensures KeepsTheRest(r, 0, 1, 99)
  {
    AcceptingIsRefundable();
    r := PartialRefundIsKept(Accepting(), 0, "sorry", 1, "x", ACCEPTS);
  }
}
