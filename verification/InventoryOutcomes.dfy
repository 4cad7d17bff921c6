/** What each inventory transaction decides and writes, field by field. */
module InventoryOutcomes {
  import opened Prelude
  import opened Events
  import opened Inventory
  import opened InventoryLedger
  import opened InventoryInvariants
  import opened InventoryTheorems

  // ------------------------------------------------------------ sums over lines

  /** With `InventoryLedger.QtyConcat`, this is what a quantity is: the product's quantities, added up. */
  lemma QtyOne(line: Line, p: ProductId)
    ensures Qty([line], p) == if line.product == p then line.quantity else 0
  {
    assert [line][..0] == [];
  }

  predicate Asked(items: seq<Line>, p: ProductId) {
    exists k :: 0 <= k < |items| && items[k].product == p
  }

  /** The product falls short of what the request asks of it. */
  predicate FallsShort(stock: map<ProductId, StockItem>, items: seq<Line>, p: ProductId) {
    Asked(items, p) && (p !in stock || stock[p].available < Qty(items, p))
  }

  predicate AnyShort(stock: map<ProductId, StockItem>, items: seq<Line>) {
    exists k :: 0 <= k < |items| && FallsShort(stock, items, items[k].product)
  }

  predicate HasRow(reservations: seq<Reservation>, o: OrderId) {
    exists i :: 0 <= i < |reservations| && reservations[i].order == o
  }

  predicate Positive(items: seq<Line>) {
    forall i :: 0 <= i < |items| ==> items[i].quantity > 0
  }

  /** The position of the first line for a product. */
  function FirstLine(items: seq<Line>, p: ProductId): nat {
    FirstIndex(items, (line: Line) => line.product == p)
  }

  // ------------------------------------------------------------ aggregation keeps the order of the request

  lemma FirstLineInit(items: seq<Line>, p: ProductId)
    requires |items| > 0
    ensures Asked(items[..|items| - 1], p) ==> FirstLine(items, p) == FirstLine(items[..|items| - 1], p) < |items| - 1
    ensures !Asked(items[..|items| - 1], p) && items[|items| - 1].product == p ==> FirstLine(items, p) == |items| - 1
  {
    var init := items[..|items| - 1];
    var k := FirstLine(init, p);
    assert forall j :: 0 <= j < |init| ==> init[j] == items[j];
    if Asked(init, p) {
      var i :| 0 <= i < |init| && init[i].product == p;
      assert items[i].product == p;
    }
    assert k < |init| ==> items[k].product == p;
    assert items[|items| - 1].product == p ==> Asked(items, p);
  }

  /** The lines are in the order in which the request first mentions their products. */
  ghost predicate InFirstOrder(lines: seq<Line>, items: seq<Line>) {
    forall i, j :: 0 <= i < j < |lines| ==> FirstLine(items, lines[i].product) < FirstLine(items, lines[j].product)
  }

  lemma AskedIsMentioned(items: seq<Line>)
    ensures forall p: ProductId :: Asked(items, p) <==> Mentions(items, p)
  {
  }

  lemma {:induction false} WantedInOrder(items: seq<Line>)
    ensures InFirstOrder(Wanted(items), items)
    ensures forall k :: 0 <= k < |Wanted(items)| ==> Asked(items, Wanted(items)[k].product)
  {
    if |items| > 0 {
      var init, last := items[..|items| - 1], items[|items| - 1];
      var before, after := Wanted(init), Wanted(items);
      WantedInOrder(init);
      var at := IndexOf(before, last.product);
      forall k | 0 <= k < |after|
        ensures Asked(items, after[k].product)
        ensures k < |before| ==> after[k].product == before[k].product && Asked(init, after[k].product)
        ensures k == |before| ==> after[k].product == last.product && !Asked(init, last.product)
      {
        if k < |before| {
          var i :| 0 <= i < |init| && init[i].product == before[k].product;
          assert items[i].product == before[k].product;
        } else {
          assert items[|items| - 1].product == last.product;
          LastIsNew(init, last.product);
        }
      }
      forall i, j | 0 <= i < j < |after|
        ensures FirstLine(items, after[i].product) < FirstLine(items, after[j].product)
      {
        FirstLineInit(items, after[i].product);
        FirstLineInit(items, after[j].product);
      }
    }
  }

  /** A product without an aggregated line was not asked for. */
  lemma LastIsNew(items: seq<Line>, p: ProductId)
    requires IndexOf(Wanted(items), p) == |Wanted(items)|
    ensures !Asked(items, p)
  {
    WantedMentions(items);
    AskedIsMentioned(items);
  }

  /** The aggregated lines: each product asked for, once, with everything asked of it, in the order of its
      first mention. */
  ghost predicate Aggregates(lines: seq<Line>, items: seq<Line>) {
    && (forall p: ProductId :: Asked(lines, p) <==> Asked(items, p))
    && (forall k :: 0 <= k < |lines| ==> lines[k].quantity == Qty(items, lines[k].product))
    && InFirstOrder(lines, items)
  }

  lemma WantedAggregates(items: seq<Line>)
    requires Positive(items)
    ensures Aggregates(Wanted(items), items)
  {
    WantedShape(items);
    WantedMentions(items);
    WantedInOrder(items);
    AskedIsMentioned(items);
    AskedIsMentioned(Wanted(items));
    forall k | 0 <= k < |Wanted(items)|
      ensures Wanted(items)[k].quantity == Qty(items, Wanted(items)[k].product)
    {
      QtyOfLine(Wanted(items), k);
      WantedQty(items, Wanted(items)[k].product);
    }
  }

  // ------------------------------------------------------------ reserve: what is decided

  lemma ShortIffAny(stock: map<ProductId, StockItem>, items: seq<Line>)
    requires Positive(items)
    ensures |Shortages(stock, Wanted(items))| > 0 <==> AnyShort(stock, items)
  {
    var wanted := Wanted(items);
    WantedAggregates(items);
    ShortagesEmpty(stock, wanted);
    if k :| 0 <= k < |wanted| && Short(stock, wanted[k]) {
      assert Asked(wanted, wanted[k].product);
      var i :| 0 <= i < |items| && items[i].product == wanted[k].product;
      assert FallsShort(stock, items, items[i].product);
    }
    if k :| 0 <= k < |items| && FallsShort(stock, items, items[k].product) {
      assert Asked(items, items[k].product);
      var i :| 0 <= i < |wanted| && wanted[i].product == items[k].product;
      assert Short(stock, wanted[i]);
    }
  }

  lemma FoundIffReserved(reservations: seq<Reservation>, o: OrderId)
    ensures Find(reservations, o) < |reservations| <==> HasRow(reservations, o)
  {
  }

  /** The exact verdict on a request. */
  lemma DecideOutcome(db: Db, q: ReserveRequest)
    ensures Decide(db, q) ==
      if |q.items| == 0 then Invalid
      else if HasRow(db.reservations, q.order) then Duplicate
      else if !Positive(q.items) then Invalid
      else if AnyShort(db.stock, q.items) then Insufficient
      else Granted
  {
    FoundIffReserved(db.reservations, q.order);
    if Positive(q.items) {
      ShortIffAny(db.stock, q.items);
    }
  }

  // ------------------------------------------------------------ reserve: what a refusal says

  ghost predicate ItemsInOrder(list: seq<InsufficientItem>, items: seq<Line>) {
    forall i, j :: 0 <= i < j < |list| ==> FirstLine(items, list[i].product) < FirstLine(items, list[j].product)
  }

  /** The list of a refusal: each product that falls short, once, in the order of its first mention, with
      all that was asked of it and what there is. */
  ghost predicate ListsShort(list: seq<InsufficientItem>, stock: map<ProductId, StockItem>, items: seq<Line>) {
    && (forall p: ProductId :: FallsShort(stock, items, p) <==> exists i :: 0 <= i < |list| && list[i].product == p)
    && (forall i :: 0 <= i < |list| ==>
          && list[i].requested == Qty(items, list[i].product)
          && list[i].available == if list[i].product in stock then stock[list[i].product].available else 0)
    && ItemsInOrder(list, items)
  }

  lemma ItemIsBefore(stock: map<ProductId, StockItem>, wanted: seq<Line>, items: seq<Line>, item: InsufficientItem)
    requires |wanted| > 0 && InFirstOrder(wanted, items) && item in Shortages(stock, wanted[..|wanted| - 1])
    ensures FirstLine(items, item.product) < FirstLine(items, wanted[|wanted| - 1].product)
  {
    var init := wanted[..|wanted| - 1];
    ShortagesAreExact(stock, init, item);
    var k :| 0 <= k < |init| && Reports(item, stock, init[k]);
    assert wanted[k] == init[k];
  }

  lemma ItemsAppend(list: seq<InsufficientItem>, more: seq<InsufficientItem>, items: seq<Line>)
    requires ItemsInOrder(list, items) && |more| <= 1
    requires |more| == 1 ==> forall item :: item in list ==> FirstLine(items, item.product) < FirstLine(items, more[0].product)
    ensures ItemsInOrder(list + more, items)
  {
    assert forall i :: 0 <= i < |list| ==> list[i] in list;
  }

  /** Shortages keep the order of the lines they report. */
  lemma {:induction false} ShortagesInOrder(stock: map<ProductId, StockItem>, wanted: seq<Line>, items: seq<Line>)
    requires InFirstOrder(wanted, items)
    ensures ItemsInOrder(Shortages(stock, wanted), items)
  {
    if |wanted| > 0 {
      var init, last := wanted[..|wanted| - 1], wanted[|wanted| - 1];
      ShortagesInOrder(stock, init, items);
      forall item | item in Shortages(stock, init)
        ensures FirstLine(items, item.product) < FirstLine(items, last.product)
      {
        ItemIsBefore(stock, wanted, items, item);
      }
      ItemsAppend(Shortages(stock, init), if Short(stock, last) then [Shortage(stock, last)] else [], items);
    }
  }

  lemma ShortagesList(stock: map<ProductId, StockItem>, items: seq<Line>)
    requires Positive(items)
    ensures ListsShort(Shortages(stock, Wanted(items)), stock, items)
  {
    var wanted := Wanted(items);
    var list := Shortages(stock, wanted);
    WantedAggregates(items);
    ShortagesInOrder(stock, wanted, items);
    forall i | 0 <= i < |list|
      ensures list[i].requested == Qty(items, list[i].product)
      ensures list[i].available == if list[i].product in stock then stock[list[i].product].available else 0
      ensures FallsShort(stock, items, list[i].product)
    {
      ShortagesAreExact(stock, wanted, list[i]);
      var k :| 0 <= k < |wanted| && Reports(list[i], stock, wanted[k]);
      assert Asked(wanted, wanted[k].product);
    }
    forall p: ProductId | FallsShort(stock, items, p)
      ensures exists i :: 0 <= i < |list| && list[i].product == p
    {
      assert Asked(wanted, p);
      var k :| 0 <= k < |wanted| && wanted[k].product == p;
      var item := InsufficientItem(p, Qty(items, p), if p in stock then stock[p].available else 0);
      assert Reports(item, stock, wanted[k]);
      ShortagesAreExact(stock, wanted, item);
    }
  }

  /** A refused request writes one event and nothing else: for the request's own order and user, listing
      exactly what falls short. */
  lemma RefusalOutcome(db: Db, q: ReserveRequest, expiresAt: int)
    requires |q.items| > 0 && !HasRow(db.reservations, q.order) && Positive(q.items) && AnyShort(db.stock, q.items)
    ensures var next := Reserve(db, q, expiresAt); var n := |db.outbox|;
      && next == db.(outbox := next.outbox) && |next.outbox| == n + 1 && next.outbox[..n] == db.outbox
      && next.outbox[n].ReservationFailed?
      && next.outbox[n].order == q.order && next.outbox[n].user == q.user && next.outbox[n].reason == "insufficient stock"
      && ListsShort(next.outbox[n].insufficient, db.stock, q.items)
  {
    DecideOutcome(db, q);
    ShortagesList(db.stock, q.items);
  }

  /** A duplicate or an invalid request writes nothing. */
  lemma IgnoredOutcome(db: Db, q: ReserveRequest, expiresAt: int)
    requires |q.items| == 0 || HasRow(db.reservations, q.order) || !Positive(q.items)
    ensures Reserve(db, q, expiresAt) == db
  {
    DecideOutcome(db, q);
  }

  // ------------------------------------------------------------ reserve: what a grant writes

  /** The same lines in ascending product order, each product once. */
  ghost predicate LockOrder(lines: seq<Line>, items: seq<Line>) {
    && (forall i, j :: 0 <= i < j < |lines| ==> lines[i].product < lines[j].product)
    && (forall p: ProductId :: Asked(lines, p) <==> Asked(items, p))
    && (forall k :: 0 <= k < |lines| ==> lines[k].quantity == Qty(items, lines[k].product))
  }

  lemma SameProducts(lines: seq<Line>, sorted: seq<Line>)
    requires multiset(sorted) == multiset(lines)
    ensures forall p: ProductId :: Asked(sorted, p) <==> Asked(lines, p)
  {
    forall p: ProductId
      ensures Asked(sorted, p) <==> Asked(lines, p)
    {
      if k :| 0 <= k < |sorted| && sorted[k].product == p {
        assert sorted[k] in multiset(lines) && sorted[k] in lines;
      }
      if k :| 0 <= k < |lines| && lines[k].product == p {
        assert lines[k] in multiset(sorted) && lines[k] in sorted;
      }
    }
  }

  lemma SortedAscends(wanted: seq<Line>)
    requires DistinctProducts(wanted) && AllPositive(wanted)
    ensures forall i, j :: 0 <= i < j < |InLockOrder(wanted)| ==> InLockOrder(wanted)[i].product < InLockOrder(wanted)[j].product
    ensures multiset(InLockOrder(wanted)) == multiset(wanted)
    ensures forall k :: 0 <= k < |InLockOrder(wanted)| ==> InLockOrder(wanted)[k] in wanted
  {
    var key := (line: Line) => line.product;
    var lines := InLockOrder(wanted);
    SortByIsSort(wanted, key);
    SortShape(wanted, key);
    forall i, j | 0 <= i < j < |lines|
      ensures lines[i].product < lines[j].product
    {
      assert key(lines[i]) <= key(lines[j]);
    }
  }

  lemma SortedInLockOrder(items: seq<Line>)
    requires Positive(items)
    ensures LockOrder(InLockOrder(Wanted(items)), items)
  {
    var wanted := Wanted(items);
    var lines := InLockOrder(wanted);
    WantedShape(items);
    WantedAggregates(items);
    SortedAscends(wanted);
    SameProducts(wanted, lines);
    forall k | 0 <= k < |lines|
      ensures lines[k].quantity == Qty(items, lines[k].product)
    {
      var i :| 0 <= i < |wanted| && wanted[i] == lines[k];
    }
  }

  /** The counters of every product after so many times what the lines ask for; nothing else of a row. */
  ghost predicate Shifted(before: map<ProductId, StockItem>, after: map<ProductId, StockItem>, lines: seq<Line>,
                          available: int, reserved: int) {
    && after.Keys == before.Keys
    && forall p :: p in before ==>
      after[p] == before[p].(available := before[p].available + available * Qty(lines, p),
                             reserved := before[p].reserved + reserved * Qty(lines, p))
  }

  /** A granted request: one HELD row of the request's own, its units moved from available to reserved, and
      last of all the event with the request's own data and aggregated lines. */
  lemma GrantOutcome(db: Db, q: ReserveRequest, expiresAt: int)
    requires |q.items| > 0 && !HasRow(db.reservations, q.order) && Positive(q.items) && !AnyShort(db.stock, q.items)
    ensures var next := Reserve(db, q, expiresAt); var n := |db.reservations|;
      && |next.reservations| == n + 1 && next.reservations[..n] == db.reservations
      && (var row := next.reservations[n];
          row == Reservation(q.order, q.user, HELD, expiresAt, row.items) && LockOrder(row.items, q.items))
      && Shifted(db.stock, next.stock, q.items, -1, 1)
    ensures var next := Reserve(db, q, expiresAt);
      && |next.outbox| > |db.outbox|
      && var e := next.outbox[|next.outbox| - 1];
         && e.InventoryReserved?
         && e == InventoryReserved(q.order, q.user, expiresAt, e.lines, q.total, q.currency, q.payment)
         && Aggregates(e.lines, q.items)
  {
    DecideOutcome(db, q);
    SortedInLockOrder(q.items);
    WantedAggregates(q.items);
    GrantedRow(db, q, expiresAt);
    GrantedCovers(db, q);
    var r := HeldRow(q, expiresAt);
    MoveLinesExtends(db.(reservations := db.reservations + [r]), r.items, RESERVE, q.order);
  }

  lemma {:induction false} MoveLinesExtends(db: Db, lines: seq<Line>, reason: LedgerReason, order: OrderId)
    ensures db.outbox <= MoveLines(db, lines, reason, order).outbox
  {
    if |lines| > 0 {
      MoveLinesExtends(db, lines[..|lines| - 1], reason, order);
    }
  }

  // ------------------------------------------------------------ one movement

  /** One row's counters change, with one ledger row and one event that say so, and for a reservation or a
      stock take an alert when the row is at or below its threshold. */
  lemma MoveOutcome(db: Db, p: ProductId, dAvailable: int, dReserved: int, reason: LedgerReason, ref: Option<OrderId>)
    requires p in db.stock
    ensures var next := Move(db, p, dAvailable, dReserved, reason, ref);
      var was := db.stock[p];
      var available, reserved := was.available + dAvailable, was.reserved + dReserved;
      var changed := StockChanged(p, was.sku, available, reserved, reason, ref);
      && next.stock == db.stock[p := StockItem(was.sku, available, reserved, was.threshold)]
      && next.reservations == db.reservations
      && next.ledger == db.ledger + [LedgerRow(p, dAvailable, reason, ref, available)]
      && next.outbox == db.outbox +
           if (reason == RESERVE || reason == ADJUST) && available <= was.threshold
           then [changed, LowStock(p, was.sku, available, was.threshold)] else [changed]
  {
    var was := db.stock[p];
    var changed := StockChanged(p, was.sku, was.available + dAvailable, was.reserved + dReserved, reason, ref);
    var low := LowStock(p, was.sku, was.available + dAvailable, was.threshold);
    assert db.outbox + [changed] + [low] == db.outbox + [changed, low];
    assert db.outbox + [changed] + [] == db.outbox + [changed];
  }

  /** Which way the units of a line go. */
  function Direction(reason: LedgerReason): (int, int) {
    match reason
    case RESERVE => (-1, 1)
    case RELEASE => (1, -1)
    case EXPIRE => (1, -1)
    case COMMIT => (0, -1)
    case RESTOCK => (1, 0)
    case ADJUST => (0, 0)
  }

  /** The ledger row of a line. */
  predicate Ledgers(row: LedgerRow, line: Line, reason: LedgerReason, order: OrderId) {
    && row.product == line.product && row.delta == Direction(reason).0 * line.quantity
    && row.reason == reason && row.ref == Some(order)
  }

  /** One row a line behind `start`, in order. */
  ghost predicate LedgeredAs(start: seq<LedgerRow>, after: seq<LedgerRow>, lines: seq<Line>, reason: LedgerReason, order: OrderId) {
    && |after| == |start| + |lines| && after[..|start|] == start
    && forall k :: |start| <= k < |after| ==> Ledgers(after[k], lines[k - |start|], reason, order)
  }

  lemma LedgeredSnoc(start: seq<LedgerRow>, after: seq<LedgerRow>, row: LedgerRow, lines: seq<Line>, reason: LedgerReason,
                     order: OrderId)
    requires |lines| > 0 && LedgeredAs(start, after, lines[..|lines| - 1], reason, order)
    requires Ledgers(row, lines[|lines| - 1], reason, order)
    ensures LedgeredAs(start, after + [row], lines, reason, order)
  {
    var next := after + [row];
    assert next[..|start|] == after[..|start|];
    forall k | |start| <= k < |next|
      ensures Ledgers(next[k], lines[k - |start|], reason, order)
    {
      if k < |after| {
        assert next[k] == after[k] && lines[..|lines| - 1][k - |start|] == lines[k - |start|];
      }
    }
  }

  lemma LineIsLedgered(db: Db, line: Line, reason: LedgerReason, order: OrderId)
    requires line.product in db.stock
    ensures var next := MoveLine(db, line, reason, order);
      |next.ledger| == |db.ledger| + 1 && next.ledger == db.ledger + [next.ledger[|db.ledger|]]
      && Ledgers(next.ledger[|db.ledger|], line, reason, order)
  {
    MoveOutcome(db, line.product, Direction(reason).0 * line.quantity, Direction(reason).1 * line.quantity,
                reason, Some(order));
  }

  /** The ledger rows that a run over lines appends: one a line, in order, for the order and the reason. */
  lemma {:induction false} LinesAreLedgered(db: Db, lines: seq<Line>, reason: LedgerReason, order: OrderId)
    requires InStock(db.stock, lines)
    ensures LedgeredAs(db.ledger, MoveLines(db, lines, reason, order).ledger, lines, reason, order)
  {
    if |lines| > 0 {
      var init, last := lines[..|lines| - 1], lines[|lines| - 1];
      var before := MoveLines(db, init, reason, order);
      LinesAreLedgered(db, init, reason, order);
      MoveLinesStock(db, init, reason, order);
      assert last.product in before.stock;
      LineIsLedgered(before, last, reason, order);
      LedgeredSnoc(db.ledger, before.ledger, MoveLine(before, last, reason, order).ledger[|before.ledger|], lines, reason, order);
    }
  }

  // ------------------------------------------------------------ commit, release, expire

  /** The reservation at `i` is settled: its status, the counters of its products, one ledger row a line. */
  ghost predicate Settles(db: Db, next: Db, i: nat, status: ReservationStatus, reason: LedgerReason)
    requires i < |db.reservations|
  {
    var r := db.reservations[i];
    && next.reservations == db.reservations[i := r.(status := status)]
    && Shifted(db.stock, next.stock, r.items, Direction(reason).0, Direction(reason).1)
    && LedgeredAs(db.ledger, next.ledger, r.items, reason, r.order)
  }

  lemma SettleOutcome(db: Db, i: nat, reason: LedgerReason, status: ReservationStatus)
    requires i < |db.reservations| && InStock(db.stock, db.reservations[i].items)
    ensures Settles(db, Settle(db, i, reason, status), i, status, reason)
  {
    var r := db.reservations[i];
    MoveLinesStock(db, r.items, reason, r.order);
    LinesAreLedgered(db, r.items, reason, r.order);
  }

  /** Row `i` is the reservation of `o`. */
  predicate IsRowOf(db: Db, o: OrderId, i: nat) {
    i < |db.reservations| && db.reservations[i].order == o
  }

  lemma RowIsFound(db: Db, o: OrderId, i: nat)
    requires UniqueOrders(db) && IsRowOf(db, o, i)
    ensures Find(db.reservations, o) == i
  {
  }

  /** The exact effect of a commit: a HELD row is COMMITTED and its units leave the reserved ones; any other
      row, and an order without one, is left alone. */
  lemma CommitOutcome(db: Db, o: OrderId)
    requires Inv(db)
    ensures !HasRow(db.reservations, o) ==> Commit(db, o) == db
    ensures forall i: nat :: IsRowOf(db, o, i) ==>
      if db.reservations[i].status == HELD then Settles(db, Commit(db, o), i, COMMITTED, COMMIT) else Commit(db, o) == db
  {
    FoundIffReserved(db.reservations, o);
    forall i: nat | IsRowOf(db, o, i)
      ensures if db.reservations[i].status == HELD then Settles(db, Commit(db, o), i, COMMITTED, COMMIT)
              else Commit(db, o) == db
    {
      RowIsFound(db, o, i);
      if db.reservations[i].status == HELD {
        SettleOutcome(db, i, COMMIT, COMMITTED);
      }
    }
  }

  /** The exact effect of a release: a HELD row's units go from reserved back to available, a COMMITTED
      row's units come back into available; a row that is RELEASED or EXPIRED is left alone. */
  lemma ReleaseOutcome(db: Db, o: OrderId)
    requires Inv(db)
    ensures !HasRow(db.reservations, o) ==> Release(db, o) == db
    ensures forall i: nat :: IsRowOf(db, o, i) ==>
      match db.reservations[i].status
      case HELD => Settles(db, Release(db, o), i, RELEASED, RELEASE)
      case COMMITTED => Settles(db, Release(db, o), i, RELEASED, RESTOCK)
      case _ => Release(db, o) == db
  {
    FoundIffReserved(db.reservations, o);
    forall i: nat | IsRowOf(db, o, i)
      ensures match db.reservations[i].status
              case HELD => Settles(db, Release(db, o), i, RELEASED, RELEASE)
              case COMMITTED => Settles(db, Release(db, o), i, RELEASED, RESTOCK)
              case _ => Release(db, o) == db
    {
      RowIsFound(db, o, i);
      SettleOutcome(db, i, RELEASE, RELEASED);
      SettleOutcome(db, i, RESTOCK, RELEASED);
    }
  }

  /** The reservations that a sweep at `now` may take. */
  function StaleSet(reservations: seq<Reservation>, now: int): set<nat> {
    set i: nat | i < |reservations| && reservations[i].status == HELD && reservations[i].expiresAt < now
  }

  function Indices(rows: seq<Stale>): set<nat> {
    set row | row in rows :: row.index
  }

  lemma LastIsApart(rows: seq<Stale>)
    requires |rows| > 0 && forall j, k :: 0 <= j < k < |rows| ==> rows[j].index != rows[k].index
    ensures rows[|rows| - 1].index !in Indices(rows[..|rows| - 1])
    ensures Indices(rows) == Indices(rows[..|rows| - 1]) + {rows[|rows| - 1].index}
  {
    var init, last := rows[..|rows| - 1], rows[|rows| - 1];
    assert rows == init + [last];
    forall row | row in init
      ensures row.index != last.index
    {
      var k :| 0 <= k < |init| && init[k] == row;
      assert rows[k] == row;
    }
  }

  lemma {:induction false} IndicesSize(rows: seq<Stale>)
    requires forall j, k :: 0 <= j < k < |rows| ==> rows[j].index != rows[k].index
    ensures |Indices(rows)| == |rows|
  {
    if |rows| > 0 {
      IndicesSize(rows[..|rows| - 1]);
      LastIsApart(rows);
    } else {
      assert Indices(rows) == {};
    }
  }

  lemma StaleRowsAre(reservations: seq<Reservation>, now: int)
    ensures Indices(StaleRows(reservations, now)) == StaleSet(reservations, now)
    ensures |StaleRows(reservations, now)| == |StaleSet(reservations, now)|
  {
    var rows := StaleRows(reservations, now);
    StaleRowsPicked(reservations, now);
    forall i | i in Indices(rows)
      ensures i in StaleSet(reservations, now)
    {
      var row :| row in rows && row.index == i;
      var k :| 0 <= k < |rows| && rows[k] == row;
    }
    forall i | i in StaleSet(reservations, now)
      ensures i in Indices(rows)
    {
      assert IsStale(reservations[i], now);
      assert Stale(i, reservations[i].expiresAt) in rows;
    }
    IndicesSize(rows);
  }

  /** What one sweep does to the reservations, exactly: of the HELD ones that expired before `now` it takes
      as many as it may, those that expired first, and gives them EXPIRED. */
  lemma SweepOutcome(db: Db, now: int, limit: nat) returns (taken: set<nat>)
    ensures var next := ExpireStale(db, now, limit).reservations; var stale := StaleSet(db.reservations, now);
      && |next| == |db.reservations|
      && taken <= stale && |taken| == (if |stale| <= limit then |stale| else limit)
      && (forall i :: 0 <= i < |next| ==>
            next[i] == if i in taken then db.reservations[i].(status := EXPIRED) else db.reservations[i])
      && (forall i, j :: i in taken && j in stale - taken ==> db.reservations[i].expiresAt <= db.reservations[j].expiresAt)
  {
    var batch := Batch(db.reservations, now, limit);
    BatchPicked(db.reservations, now, limit);
    BatchInRange(db.reservations, now, limit);
    StaleRowsAre(db.reservations, now);
    IndicesSize(batch);
    ExpireRowsTouch(db, batch);
    taken := Indices(batch);
    TakenIs(db.reservations, batch, now);
    forall i, j | i in taken && j in StaleSet(db.reservations, now) - taken
      ensures db.reservations[i].expiresAt <= db.reservations[j].expiresAt
    {
      TakenExpiredFirst(db.reservations, now, limit, i, j);
    }
  }

  lemma TakenExpiredFirst(reservations: seq<Reservation>, now: int, limit: nat, i: nat, j: nat)
    requires i in Indices(Batch(reservations, now, limit))
    requires j in StaleSet(reservations, now) - Indices(Batch(reservations, now, limit))
    ensures i < |reservations| && reservations[i].expiresAt <= reservations[j].expiresAt
  {
    var batch := Batch(reservations, now, limit);
    BatchPicked(reservations, now, limit);
    var row :| row in batch && row.index == i;
    var k :| 0 <= k < |batch| && batch[k] == row;
    assert Stale(j, reservations[j].expiresAt) !in batch;
    BatchTakesEarliest(reservations, now, limit, j, k);
  }

  lemma TakenIs(reservations: seq<Reservation>, batch: seq<Stale>, now: int)
    requires Picked(reservations, batch, now)
    ensures Indices(batch) <= StaleSet(reservations, now)
    ensures forall i :: i in Indices(batch) <==> Takes(batch, i)
  {
    forall i | i in Indices(batch)
      ensures Takes(batch, i) && i in StaleSet(reservations, now)
    {
      var row :| row in batch && row.index == i;
      var k :| 0 <= k < |batch| && batch[k] == row;
      assert batch[k].index == i;
    }
    forall i: nat | Takes(batch, i)
      ensures i in Indices(batch)
    {
      var k :| 0 <= k < |batch| && batch[k].index == i;
      assert batch[k] in batch;
    }
  }

  // ------------------------------------------------------------ stock keeping

  lemma {:induction false} UpperIs(s: string)
    ensures |Upper(s)| == |s|
    ensures forall i :: 0 <= i < |s| ==>
      Upper(s)[i] == if 'a' <= s[i] <= 'z' then (s[i] as int - 32) as char else s[i]
  {
    if |s| > 0 {
      UpperIs(s[..|s| - 1]);
    }
  }

  /** The exact effect of a delivery: units and threshold of the product's row, or a new row under a sku that
      no other has, with the default threshold of ten; one ledger row and one event. */
  lemma UpsertOutcome(db: Db, p: ProductId, sku: string, quantity: int, threshold: Option<int>)
    ensures var r := Upsert(db, p, sku, quantity, threshold);
      if p !in db.stock && exists other :: other in db.stock && db.stock[other].sku == Upper(sku) then r == None
      else
        var row := if p in db.stock then db.stock[p] else StockItem(Upper(sku), 0, 0, 10);
        var after := StockItem(row.sku, row.available + quantity, row.reserved,
                               if threshold.Some? then threshold.value else row.threshold);
        r == Some(Db(db.stock[p := after], db.reservations,
                     db.ledger + [LedgerRow(p, quantity, RESTOCK, None, after.available)],
                     db.outbox + [StockChanged(p, after.sku, after.available, after.reserved, RESTOCK, None)]))
  {
    var r := Upsert(db, p, sku, quantity, threshold);
    if r.Some? {
      var row := if p in db.stock then WithThreshold(db.stock[p], threshold) else NewRow(sku, threshold);
      var start := db.(stock := db.stock[p := row]);
      MoveOutcome(start, p, quantity, 0, RESTOCK, None);
      assert start.stock[p := r.value.stock[p]] == db.stock[p := r.value.stock[p]];
    }
  }

  /** The exact effect of a stock take: the count it was given, the difference in the ledger, an alert when
      the count is at or below the threshold. */
  lemma AdjustOutcome(db: Db, p: ProductId, available: int, threshold: Option<int>)
    ensures var r := Adjust(db, p, available, threshold);
      if p !in db.stock then r == None
      else
        var row := db.stock[p];
        var limit := if threshold.Some? then threshold.value else row.threshold;
        var changed := StockChanged(p, row.sku, available, row.reserved, ADJUST, None);
        r == Some(Db(db.stock[p := StockItem(row.sku, available, row.reserved, limit)], db.reservations,
                     db.ledger + [LedgerRow(p, available - row.available, ADJUST, None, available)],
                     db.outbox + if available <= limit then [changed, LowStock(p, row.sku, available, limit)] else [changed]))
  {
    if p in db.stock {
      var start := db.(stock := db.stock[p := WithThreshold(db.stock[p], threshold)]);
      MoveOutcome(start, p, available - db.stock[p].available, 0, ADJUST, None);
      var r := Adjust(db, p, available, threshold);
      assert start.stock[p := r.value.stock[p]] == db.stock[p := r.value.stock[p]];
    }
  }

  // ------------------------------------------------------------ the consumer's handlers

  lemma {:induction false} LinesAre(items: seq<OrderLine>)
    ensures |Lines(items)| == |items|
    ensures forall i :: 0 <= i < |items| ==> Lines(items)[i] == Line(items[i].product, items[i].quantity)
  {
    if |items| > 0 {
      LinesAre(items[..|items| - 1]);
    }
  }

  /** Which transaction each event is: a creation asks for its order's own lines, held for fifteen minutes,
      and raises only when the request is invalid. */
  lemma HandleOutcome(db: Db, e: Event, now: int)
    ensures match e
      case OrderCreated(o, user, total, currency, items, payment) =>
        var q := ReserveRequest(o, user, Lines(items), total, currency, payment);
        Handle(db, e, now) ==
          if |items| == 0 || (!HasRow(db.reservations, o) && !Positive(q.items)) then None
          else Some(Reserve(db, q, now + 15 * 60))
      case PaymentSucceeded(o, _, _, _, _) => Handle(db, e, now) == Some(Commit(db, o))
      case PaymentFailed(o, _, _, _, _, _, _) => Handle(db, e, now) == Some(Release(db, o))
      case OrderCancelled(o, _, _, _, _) => Handle(db, e, now) == Some(Release(db, o))
      case _ => Handle(db, e, now) == Some(db)
  {
    if e.OrderCreated? {
      LinesAre(e.items);
      DecideOutcome(db, RequestOf(e));
    }
  }
}
