/** What every inventory transaction keeps: counters, ledger and conservation agree for ever. */
module InventoryLedger {
  import opened Prelude
  import opened Events
  import opened Inventory

  // ------------------------------------------------------------ sums over the tables

  /** Units of `product` in a list of lines. */
  function Qty(lines: seq<Line>, product: ProductId): int {
    if |lines| == 0 then 0
    else
      var last := lines[|lines| - 1];
      Qty(lines[..|lines| - 1], product) + (if last.product == product then last.quantity else 0)
  }

  /** Units of `product` over all reservations in `status`. */
  function InStatus(reservations: seq<Reservation>, status: ReservationStatus, product: ProductId): int {
    if |reservations| == 0 then 0
    else
      var last := reservations[|reservations| - 1];
      InStatus(reservations[..|reservations| - 1], status, product)
      + (if last.status == status then Qty(last.items, product) else 0)
  }

  /** Which ledger rows a sum ranges over: all, the ones without an order, or one order's. */
  datatype Scope = Every | Unreferenced | OfOrder(order: OrderId)

  predicate InScope(row: LedgerRow, scope: Scope) {
    match scope
    case Every => true
    case Unreferenced => row.ref == None
    case OfOrder(o) => row.ref == Some(o)
  }

  function LedgerSum(ledger: seq<LedgerRow>, product: ProductId, scope: Scope): int {
    if |ledger| == 0 then 0
    else
      var last := ledger[|ledger| - 1];
      LedgerSum(ledger[..|ledger| - 1], product, scope)
      + (if last.product == product && InScope(last, scope) then last.delta else 0)
  }

  /** Units an order has taken out of `available_qty` and not given back. */
  function Outstanding(reservations: seq<Reservation>, order: OrderId, product: ProductId): int {
    var i := Find(reservations, order);
    if i < |reservations| && (reservations[i].status == HELD || reservations[i].status == COMMITTED)
    then Qty(reservations[i].items, product)
    else 0
  }

  /** A stock movement as the ledger and the event stream both record it. */
  datatype Movement = Movement(product: ProductId, reason: LedgerReason, ref: Option<OrderId>, available: int)

  function LedgerMovements(ledger: seq<LedgerRow>): seq<Movement> {
    if |ledger| == 0 then []
    else
      var last := ledger[|ledger| - 1];
      LedgerMovements(ledger[..|ledger| - 1]) + [Movement(last.product, last.reason, last.ref, last.balanceAfter)]
  }

  function PublishedMovements(outbox: seq<Event>): seq<Movement> {
    if |outbox| == 0 then []
    else
      var last := outbox[|outbox| - 1];
      PublishedMovements(outbox[..|outbox| - 1])
      + (if last.StockChanged? then [Movement(last.product, last.cause, last.ref, last.available)] else [])
  }

  // ------------------------------------------------------------ the invariant

  ghost predicate DistinctProducts(lines: seq<Line>) {
    forall i, j :: 0 <= i < j < |lines| ==> lines[i].product != lines[j].product
  }

  /** Every reservation has items, one per product, each with a stock row behind it. */
  ghost predicate ItemsOk(db: Db) {
    forall i :: 0 <= i < |db.reservations| ==>
      && |db.reservations[i].items| > 0
      && AllPositive(db.reservations[i].items)
      && DistinctProducts(db.reservations[i].items)
      && InStock(db.stock, db.reservations[i].items)
  }

  ghost predicate InStock(stock: map<ProductId, StockItem>, lines: seq<Line>) {
    forall k :: 0 <= k < |lines| ==> lines[k].product in stock
  }

  ghost predicate UniqueOrders(db: Db) {
    forall i, j :: 0 <= i < j < |db.reservations| ==> db.reservations[i].order != db.reservations[j].order
  }

  /** The CHECK constraints. */
  ghost predicate NonNegative(db: Db) {
    forall p :: p in db.stock ==> db.stock[p].available >= 0 && db.stock[p].reserved >= 0
  }

  ghost predicate ReservedIsHeld(db: Db) {
    forall p :: p in db.stock ==> db.stock[p].reserved == InStatus(db.reservations, HELD, p)
  }

  /** available + reserved + sold == net supply. */
  ghost predicate Conserved(db: Db) {
    forall p :: p in db.stock ==>
      db.stock[p].available + db.stock[p].reserved + InStatus(db.reservations, COMMITTED, p)
      == LedgerSum(db.ledger, p, Unreferenced)
  }

  ghost predicate AvailableIsLedger(db: Db) {
    forall p :: p in db.stock ==> db.stock[p].available == LedgerSum(db.ledger, p, Every)
  }

  /** Each `balance_after` is the sum of the product's deltas up to and including its row. */
  ghost predicate BalancesAreSums(ledger: seq<LedgerRow>) {
    forall i :: 0 <= i < |ledger| ==>
      ledger[i].balanceAfter == LedgerSum(ledger[..i + 1], ledger[i].product, Every)
  }

  ghost predicate LedgerInStock(db: Db) {
    forall i :: 0 <= i < |db.ledger| ==> db.ledger[i].product in db.stock
  }

  /** An order's deltas undo what it has outstanding: nothing returns twice, nothing is kept. */
  ghost predicate OrdersBalance(db: Db) {
    forall o: OrderId, p: ProductId ::
      LedgerSum(db.ledger, p, OfOrder(o)) == -Outstanding(db.reservations, o, p)
  }

  /** The stock.changed stream is the ledger, row for row. */
  ghost predicate StreamIsLedger(db: Db) {
    PublishedMovements(db.outbox) == LedgerMovements(db.ledger)
  }

  ghost predicate Inv(db: Db) {
    && ItemsOk(db)
    && UniqueOrders(db)
    && NonNegative(db)
    && ReservedIsHeld(db)
    && Conserved(db)
    && AvailableIsLedger(db)
    && BalancesAreSums(db.ledger)
    && LedgerInStock(db)
    && OrdersBalance(db)
    && StreamIsLedger(db)
  }

  // ------------------------------------------------------------ what one movement adds to the sums

  lemma LedgerSumSnoc(ledger: seq<LedgerRow>, row: LedgerRow, product: ProductId, scope: Scope)
    ensures LedgerSum(ledger + [row], product, scope)
         == LedgerSum(ledger, product, scope)
            + (if row.product == product && InScope(row, scope) then row.delta else 0)
  {
    assert (ledger + [row])[..|ledger|] == ledger;
  }

  lemma {:induction false} LedgerSumAbsent(ledger: seq<LedgerRow>, product: ProductId, scope: Scope)
    requires forall i :: 0 <= i < |ledger| ==> ledger[i].product != product
    ensures LedgerSum(ledger, product, scope) == 0
  {
    if |ledger| > 0 {
      LedgerSumAbsent(ledger[..|ledger| - 1], product, scope);
    }
  }

  lemma {:induction false} PublishedAppend(outbox: seq<Event>, more: seq<Event>)
    ensures PublishedMovements(outbox + more) == PublishedMovements(outbox) + PublishedMovements(more)
  {
    if |more| == 0 {
      assert outbox + more == outbox;
    } else {
      var all := outbox + more;
      assert all[..|all| - 1] == outbox + more[..|more| - 1];
      PublishedAppend(outbox, more[..|more| - 1]);
    }
  }

  /** The parts of the invariant that are about the ledger alone. */
  ghost predicate LedgerOk(db: Db) {
    && AvailableIsLedger(db)
    && BalancesAreSums(db.ledger)
    && LedgerInStock(db)
    && StreamIsLedger(db)
  }

  lemma MoveStream(db: Db, product: ProductId, dAvailable: int, dReserved: int, reason: LedgerReason, ref: Option<OrderId>)
    requires product in db.stock && StreamIsLedger(db)
    ensures StreamIsLedger(Move(db, product, dAvailable, dReserved, reason, ref))
  {
    var next := Move(db, product, dAvailable, dReserved, reason, ref);
    var row := next.stock[product];
    var changed := [StockChangedOf(product, row, reason, ref)];
    var alert := if AlertsOn(reason) then LowStockAlert(product, row) else [];
    assert changed[..0] == [] && (|alert| > 0 ==> alert[..0] == []);
    PublishedAppend(changed, alert);
    PublishedAppend(db.outbox, changed + alert);
    assert next.outbox == db.outbox + (changed + alert);
    assert next.ledger[..|db.ledger|] == db.ledger;
  }

  /** One more row, whose balance is the sum up to and including it. */
  lemma BalanceSnoc(ledger: seq<LedgerRow>, row: LedgerRow)
    requires BalancesAreSums(ledger) && row.balanceAfter == LedgerSum(ledger + [row], row.product, Every)
    ensures BalancesAreSums(ledger + [row])
  {
    var next := ledger + [row];
    forall i | 0 <= i < |next|
      ensures next[i].balanceAfter == LedgerSum(next[..i + 1], next[i].product, Every)
    {
      if i < |ledger| {
        assert next[..i + 1] == ledger[..i + 1];
      } else {
        assert next[..i + 1] == next;
      }
    }
  }

  lemma MoveLedger(db: Db, product: ProductId, dAvailable: int, dReserved: int, reason: LedgerReason, ref: Option<OrderId>)
    requires product in db.stock && LedgerOk(db)
    ensures LedgerOk(Move(db, product, dAvailable, dReserved, reason, ref))
  {
    var next := Move(db, product, dAvailable, dReserved, reason, ref);
    var added := next.ledger[|db.ledger|];
    MoveStream(db, product, dAvailable, dReserved, reason, ref);
    forall p | p in next.stock
      ensures next.stock[p].available == LedgerSum(next.ledger, p, Every)
    {
      LedgerSumSnoc(db.ledger, added, p, Every);
    }
    BalanceSnoc(db.ledger, added);
  }

  // ------------------------------------------------------------ what a run over lines adds up to

  /** The counters after moving `lines`, in closed form. */
  ghost predicate Moved(before: map<ProductId, StockItem>, after: map<ProductId, StockItem>,
                        lines: seq<Line>, reason: LedgerReason) {
    && after.Keys == before.Keys
    && forall p :: p in before ==>
      && after[p].available == before[p].available + AvailableSign(reason) * Qty(lines, p)
      && after[p].reserved == before[p].reserved + ReservedSign(reason) * Qty(lines, p)
      && after[p].sku == before[p].sku
      && after[p].threshold == before[p].threshold
  }

  lemma MoveLineStock(db: Db, line: Line, reason: LedgerReason, order: OrderId, start: map<ProductId, StockItem>, done: seq<Line>)
    requires Moved(start, db.stock, done, reason) && line.product in db.stock
    ensures Moved(start, MoveLine(db, line, reason, order).stock, done + [line], reason)
  {
    assert (done + [line])[..|done|] == done;
    var q := if line.product in start then Qty(done, line.product) else 0;
    SignedSum(AvailableSign(reason), q, line.quantity);
    SignedSum(ReservedSign(reason), q, line.quantity);
    var after := MoveLine(db, line, reason, order).stock;
    forall p | p in start
      ensures after[p].available == start[p].available + AvailableSign(reason) * Qty(done + [line], p)
      ensures after[p].reserved == start[p].reserved + ReservedSign(reason) * Qty(done + [line], p)
    {
      assert Qty(done + [line], p) == Qty(done, p) + (if line.product == p then line.quantity else 0);
      if p != line.product {
        assert after[p] == db.stock[p];
      }
    }
  }

  /** Moving lines changes each counter by the signed total quantity, and nothing else. */
  lemma {:induction false} MoveLinesStock(db: Db, lines: seq<Line>, reason: LedgerReason, order: OrderId)
    requires InStock(db.stock, lines)
    ensures Moved(db.stock, MoveLines(db, lines, reason, order).stock, lines, reason)
    ensures MoveLines(db, lines, reason, order).reservations == db.reservations
  {
    if |lines| > 0 {
      var init := lines[..|lines| - 1];
      MoveLinesStock(db, init, reason, order);
      MoveLineStock(MoveLines(db, init, reason, order), lines[|lines| - 1], reason, order, db.stock, init);
      assert init + [lines[|lines| - 1]] == lines;
    }
  }

  lemma {:induction false} MoveLinesLedgerOk(db: Db, lines: seq<Line>, reason: LedgerReason, order: OrderId)
    requires LedgerOk(db)
    ensures LedgerOk(MoveLines(db, lines, reason, order))
  {
    if |lines| > 0 {
      var last := lines[|lines| - 1];
      var before := MoveLines(db, lines[..|lines| - 1], reason, order);
      MoveLinesLedgerOk(db, lines[..|lines| - 1], reason, order);
      if last.product in before.stock {
        MoveLedger(before, last.product, AvailableSign(reason) * last.quantity,
                   ReservedSign(reason) * last.quantity, reason, Some(order));
      }
    }
  }

  /** The deltas a run over lines writes, scope by scope. */
  lemma {:induction false} MoveLinesDeltas(db: Db, lines: seq<Line>, reason: LedgerReason, order: OrderId, p: ProductId, scope: Scope)
    requires InStock(db.stock, lines)
    ensures LedgerSum(MoveLines(db, lines, reason, order).ledger, p, scope)
         == LedgerSum(db.ledger, p, scope)
            + (if scope == Every || scope == OfOrder(order) then AvailableSign(reason) * Qty(lines, p) else 0)
  {
    if |lines| > 0 {
      var last := lines[|lines| - 1];
      var init := lines[..|lines| - 1];
      var before := MoveLines(db, init, reason, order);
      MoveLinesDeltas(db, init, reason, order, p, scope);
      MoveLinesStock(db, init, reason, order);
      assert last.product in before.stock;
      var after := MoveLine(before, last, reason, order);
      LedgerSumSnoc(before.ledger, after.ledger[|before.ledger|], p, scope);
      SignedSum(AvailableSign(reason), Qty(init, p), last.quantity);
    }
  }

  lemma SignedSum(sign: int, a: int, b: int)
    ensures sign * a + sign * b == sign * (a + b)
  {
  }

  // ------------------------------------------------------------ sums over lines

  lemma {:induction false} QtyNonNegative(lines: seq<Line>, p: ProductId)
    requires AllPositive(lines)
    ensures Qty(lines, p) >= 0
  {
    if |lines| > 0 {
      QtyNonNegative(lines[..|lines| - 1], p);
    }
  }

  lemma {:induction false} QtyAbsent(lines: seq<Line>, p: ProductId)
    requires forall k :: 0 <= k < |lines| ==> lines[k].product != p
    ensures Qty(lines, p) == 0
  {
    if |lines| > 0 {
      QtyAbsent(lines[..|lines| - 1], p);
    }
  }

  /** With one line per product, a product's total is its line. */
  lemma {:induction false} QtyOfLine(lines: seq<Line>, k: nat)
    requires DistinctProducts(lines) && k < |lines|
    ensures Qty(lines, lines[k].product) == lines[k].quantity
  {
    var init := lines[..|lines| - 1];
    if k < |init| {
      QtyOfLine(init, k);
    } else {
      QtyAbsent(init, lines[k].product);
    }
  }

  lemma {:induction false} QtyUpdate(lines: seq<Line>, i: nat, line: Line, p: ProductId)
    requires i < |lines| && lines[i].product == line.product
    ensures Qty(lines[i := line], p)
         == Qty(lines, p) + (if line.product == p then line.quantity - lines[i].quantity else 0)
  {
    var n := |lines| - 1;
    if i < n {
      QtyUpdate(lines[..n], i, line, p);
      assert lines[i := line][..n] == lines[..n][i := line];
    } else {
      assert lines[i := line][..n] == lines[..n];
    }
  }

  lemma {:induction false} QtyBelow(lines: seq<Line>, k: nat, p: ProductId)
    requires AllPositive(lines) && k <= |lines|
    ensures 0 <= Qty(lines[..k], p) <= Qty(lines, p)
  {
    QtyNonNegative(lines[..k], p);
    if k < |lines| {
      var init := lines[..|lines| - 1];
      assert init[..k] == lines[..k];
      QtyBelow(init, k, p);
    } else {
      assert lines[..k] == lines;
    }
  }

  lemma AddLineQty(wanted: seq<Line>, line: Line, p: ProductId)
    ensures Qty(AddLine(wanted, line), p) == Qty(wanted, p) + (if line.product == p then line.quantity else 0)
  {
    var i := IndexOf(wanted, line.product);
    if i < |wanted| {
      QtyUpdate(wanted, i, Line(line.product, wanted[i].quantity + line.quantity), p);
    } else {
      assert (wanted + [line])[..|wanted|] == wanted;
    }
  }

  lemma AddLineShape(wanted: seq<Line>, line: Line)
    requires DistinctProducts(wanted) && AllPositive(wanted) && line.quantity > 0
    ensures DistinctProducts(AddLine(wanted, line)) && AllPositive(AddLine(wanted, line))
    ensures |AddLine(wanted, line)| > 0
  {
  }

  /** Aggregation leaves one positive line per product. */
  lemma {:induction false} WantedShape(items: seq<Line>)
    requires AllPositive(items)
    ensures AllPositive(Wanted(items)) && DistinctProducts(Wanted(items))
    ensures |items| > 0 ==> |Wanted(items)| > 0
  {
    if |items| > 0 {
      WantedShape(items[..|items| - 1]);
      AddLineShape(Wanted(items[..|items| - 1]), items[|items| - 1]);
    }
  }

  /** Aggregation keeps every product's total. */
  lemma {:induction false} WantedQty(items: seq<Line>, p: ProductId)
    ensures Qty(Wanted(items), p) == Qty(items, p)
  {
    if |items| > 0 {
      WantedQty(items[..|items| - 1], p);
      AddLineQty(Wanted(items[..|items| - 1]), items[|items| - 1], p);
    }
  }

  lemma {:induction false} QtyConcat(a: seq<Line>, b: seq<Line>, p: ProductId)
    ensures Qty(a + b, p) == Qty(a, p) + Qty(b, p)
  {
    if |b| == 0 {
      assert a + b == a;
    } else {
      assert (a + b)[..|a + b| - 1] == a + b[..|b| - 1];
      QtyConcat(a, b[..|b| - 1], p);
    }
  }

  lemma {:induction false} QtyInsert(line: Line, lines: seq<Line>, key: Line -> int, p: ProductId)
    ensures Qty(Insert(line, lines, key), p) == Qty(lines, p) + (if line.product == p then line.quantity else 0)
  {
    assert [line][..0] == [];
    QtyConcat([line], lines, p);
    if |lines| == 0 || key(line) < key(lines[0]) {
    } else {
      assert [lines[0]][..0] == [];
      QtyInsert(line, lines[1..], key, p);
      assert lines == [lines[0]] + lines[1..];
      QtyConcat([lines[0]], lines[1..], p);
      QtyConcat([lines[0]], Insert(line, lines[1..], key), p);
    }
  }

  lemma {:induction false} QtySort(lines: seq<Line>, key: Line -> int, p: ProductId)
    ensures Qty(SortBy(lines, key), p) == Qty(lines, p)
  {
    if |lines| > 0 {
      QtySort(lines[..|lines| - 1], key, p);
      QtyInsert(lines[|lines| - 1], SortBy(lines[..|lines| - 1], key), key, p);
    }
  }

  ghost predicate Mentions(lines: seq<Line>, product: ProductId) {
    exists k :: 0 <= k < |lines| && lines[k].product == product
  }

  lemma {:induction false} InsertShape(line: Line, lines: seq<Line>, key: Line -> int)
    requires DistinctProducts(lines) && !Mentions(lines, line.product)
    requires AllPositive(lines) && line.quantity > 0
    ensures DistinctProducts(Insert(line, lines, key)) && AllPositive(Insert(line, lines, key))
    ensures forall k :: 0 <= k < |Insert(line, lines, key)| ==>
      Insert(line, lines, key)[k] == line || Insert(line, lines, key)[k] in lines
  {
    if |lines| == 0 || key(line) < key(lines[0]) {
    } else {
      var rest := Insert(line, lines[1..], key);
      InsertShape(line, lines[1..], key);
      forall k | 0 <= k < |rest|
        ensures rest[k].product != lines[0].product
      {
        assert rest[k] == line || rest[k] in lines[1..];
      }
    }
  }

  lemma {:induction false} SortShape(lines: seq<Line>, key: Line -> int)
    requires DistinctProducts(lines) && AllPositive(lines)
    ensures DistinctProducts(SortBy(lines, key)) && AllPositive(SortBy(lines, key))
    ensures forall k :: 0 <= k < |SortBy(lines, key)| ==> SortBy(lines, key)[k] in lines
    ensures |SortBy(lines, key)| == |lines|
  {
    SortByIsSort(lines, key);
    if |lines| > 0 {
      var init := lines[..|lines| - 1];
      SortShape(init, key);
      var sorted := SortBy(init, key);
      forall k | 0 <= k < |sorted|
        ensures sorted[k].product != lines[|lines| - 1].product
      {
        assert sorted[k] in init;
      }
      InsertShape(lines[|lines| - 1], sorted, key);
    }
  }
}
