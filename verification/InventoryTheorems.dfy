/** What the inventory invariant means over whole runs, and what its operations undo. */
module InventoryTheorems {
  import opened Prelude
  import opened Events
  import opened Inventory
  import opened InventoryLedger
  import opened InventoryInvariants

  // ------------------------------------------------------------ every run

  /** Everything that can be asked of the service, one transaction each. */
  datatype Op =
    | ReserveOp(request: ReserveRequest, expiresAt: int)
    | CommitOp(order: OrderId)
    | ReleaseOp(order: OrderId)
    | SweepOp(now: int, limit: nat)
    | UpsertOp(product: ProductId, sku: string, quantity: nat, threshold: Option<int>)
    | AdjustOp(product: ProductId, available: nat, threshold: Option<int>)

  /** A transaction that raises is rolled back. */
  function OrUnchanged(db: Db, next: Option<Db>): Db {
    if next.Some? then next.value else db
  }

  function Perform(db: Db, op: Op): Db {
    match op
    case ReserveOp(q, expiresAt) => Reserve(db, q, expiresAt)
    case CommitOp(o) => Commit(db, o)
    case ReleaseOp(o) => Release(db, o)
    case SweepOp(now, limit) => ExpireStale(db, now, limit)
    case UpsertOp(p, sku, quantity, threshold) => OrUnchanged(db, Upsert(db, p, sku, quantity, threshold))
    case AdjustOp(p, available, threshold) => OrUnchanged(db, Adjust(db, p, available, threshold))
  }

  function Run(ops: seq<Op>): Db {
    if |ops| == 0 then EMPTY else Perform(Run(ops[..|ops| - 1]), ops[|ops| - 1])
  }

  lemma EmptyInv()
    ensures Inv(EMPTY)
  {
  }

  /** Counters, ledger, conservation and the event stream agree after any sequence of operations. */
  lemma {:induction false} EveryRunKeepsInv(ops: seq<Op>)
    ensures Inv(Run(ops))
  {
    if |ops| > 0 {
      var before := Run(ops[..|ops| - 1]);
      EveryRunKeepsInv(ops[..|ops| - 1]);
      match ops[|ops| - 1] {
        case ReserveOp(q, expiresAt) => ReserveKeepsInv(before, q, expiresAt);
        case CommitOp(o) => CommitKeepsInv(before, o);
        case ReleaseOp(o) => ReleaseKeepsInv(before, o);
        case SweepOp(now, limit) => ExpireStaleKeepsInv(before, now, limit);
        case UpsertOp(p, sku, quantity, threshold) => UpsertKeepsInv(before, p, sku, quantity, threshold);
        case AdjustOp(p, available, threshold) => AdjustKeepsInv(before, p, available, threshold);
      }
    }
  }

  /** No overselling: held and sold units never exceed what was supplied. */
  lemma NeverOversold(ops: seq<Op>, p: ProductId)
    requires p in Run(ops).stock
    ensures InStatus(Run(ops).reservations, HELD, p) + InStatus(Run(ops).reservations, COMMITTED, p)
         <= LedgerSum(Run(ops).ledger, p, Unreferenced)
  {
    EveryRunKeepsInv(ops);
  }

  // ------------------------------------------------------------ the CHECK constraints

  /** Each statement of a granted reservation meets the CHECK constraints, not just the last one. */
  lemma HoldNeverViolatesChecks(db: Db, q: ReserveRequest, expiresAt: int, k: nat)
    requires Inv(db) && Decide(db, q) == Granted && k <= |InLockOrder(Wanted(q.items))|
    ensures NonNegative(MoveLines(db, InLockOrder(Wanted(q.items))[..k], RESERVE, q.order))
  {
    var lines := InLockOrder(Wanted(q.items));
    GrantedCovers(db, q);
    MoveLinesStock(db, lines[..k], RESERVE, q.order);
    forall p | p in db.stock
      ensures 0 <= Qty(lines[..k], p) <= db.stock[p].available
    {
      QtyBelow(lines, k, p);
      assert Qty(lines, p) == Qty(q.items, p);
    }
  }

  /** Likewise for commit, release, restock and expiry. */
  lemma SettleNeverViolatesChecks(db: Db, i: nat, reason: LedgerReason, status: ReservationStatus, k: nat)
    requires Inv(db) && i < |db.reservations| && LegalSettlement(db.reservations[i].status, reason, status)
    requires k <= |db.reservations[i].items|
    ensures NonNegative(MoveLines(db, db.reservations[i].items[..k], reason, db.reservations[i].order))
  {
    var r := db.reservations[i];
    MoveLinesStock(db, r.items[..k], reason, r.order);
    forall p | p in db.stock
      ensures 0 <= Qty(r.items[..k], p) && (r.status == HELD ==> Qty(r.items[..k], p) <= db.stock[p].reserved)
    {
      QtyBelow(r.items, k, p);
      InStatusAtLeast(db.reservations, i, p);
    }
  }

  // ------------------------------------------------------------ all or nothing

  /** A valid first request is granted exactly when every product covers its aggregated quantity. */
  lemma GrantedIffCovered(db: Db, q: ReserveRequest)
    requires |q.items| > 0 && AllPositive(q.items) && !HasReservation(db, q.order)
    ensures Decide(db, q) == Granted <==>
      forall p: ProductId :: Mentions(q.items, p) ==> p in db.stock && Qty(q.items, p) <= db.stock[p].available
  {
    var wanted := Wanted(q.items);
    ShortagesEmpty(db.stock, wanted);
    forall p: ProductId | Mentions(q.items, p)
      ensures IndexOf(wanted, p) < |wanted|
      ensures !Short(db.stock, wanted[IndexOf(wanted, p)]) <==>
        p in db.stock && Qty(q.items, p) <= db.stock[p].available
    {
      WantedLine(q.items, p);
    }
    forall k | 0 <= k < |wanted|
      ensures Mentions(q.items, wanted[k].product) && IndexOf(wanted, wanted[k].product) == k
    {
      WantedShape(q.items);
      WantedMentions(q.items);
      assert Mentions(wanted, wanted[k].product);
    }
  }

  /** The aggregated line of a product carries its total. */
  lemma WantedLine(items: seq<Line>, p: ProductId)
    requires AllPositive(items) && Mentions(items, p)
    ensures IndexOf(Wanted(items), p) < |Wanted(items)|
    ensures Wanted(items)[IndexOf(Wanted(items), p)] == Line(p, Qty(items, p))
  {
    WantedShape(items);
    WantedMentions(items);
    assert Mentions(Wanted(items), p);
    QtyOfLine(Wanted(items), IndexOf(Wanted(items), p));
    WantedQty(items, p);
  }

  lemma AddLineMentions(wanted: seq<Line>, line: Line, p: ProductId)
    ensures Mentions(AddLine(wanted, line), p) <==> Mentions(wanted, p) || line.product == p
  {
    var i := IndexOf(wanted, line.product);
    var next := AddLine(wanted, line);
    assert next[if i < |wanted| then i else |wanted|].product == line.product;
    if Mentions(wanted, p) {
      var k :| 0 <= k < |wanted| && wanted[k].product == p;
      assert next[k].product == p;
    }
  }

  lemma {:induction false} WantedMentions(items: seq<Line>)
    ensures forall p: ProductId :: Mentions(Wanted(items), p) <==> Mentions(items, p)
  {
    if |items| > 0 {
      var init := items[..|items| - 1];
      WantedMentions(init);
      forall p: ProductId
        ensures Mentions(Wanted(items), p) <==> Mentions(items, p)
      {
        AddLineMentions(Wanted(init), items[|items| - 1], p);
        if Mentions(init, p) {
          var k :| 0 <= k < |init| && init[k].product == p;
          assert items[k].product == p;
        }
        assert items[|items| - 1].product == p ==> Mentions(items, p);
      }
    }
  }

  /** `item` reports line `k`: its product is short, what was wanted is its quantity, and what there is is
      the row's count, or nothing without a row. */
  ghost predicate Reports(item: InsufficientItem, stock: map<ProductId, StockItem>, line: Line) {
    && item.product == line.product && item.requested == line.quantity
    && (if line.product in stock
        then item.available == stock[line.product].available < line.quantity
        else item.available == 0)
  }

  /** A refusal names exactly the products that fall short, with what was wanted and what there is. */
  lemma {:induction false} ShortagesAreExact(stock: map<ProductId, StockItem>, wanted: seq<Line>, item: InsufficientItem)
    ensures item in Shortages(stock, wanted) <==> exists k :: 0 <= k < |wanted| && Reports(item, stock, wanted[k])
  {
    if |wanted| > 0 {
      var init, last := wanted[..|wanted| - 1], wanted[|wanted| - 1];
      ShortagesAreExact(stock, init, item);
      assert Reports(item, stock, last) <==> Short(stock, last) && item == Shortage(stock, last);
      if item in Shortages(stock, init) {
        var k :| 0 <= k < |init| && Reports(item, stock, init[k]);
        assert wanted[k] == init[k];
      } else if Reports(item, stock, last) {
        assert wanted[|wanted| - 1] == last;
      }
      if k :| 0 <= k < |wanted| && Reports(item, stock, wanted[k]) {
        assert k < |init| ==> init[k] == wanted[k];
      }
    }
  }

  // ------------------------------------------------------------ what one call undoes

  /** The counters of two stock tables agree. */
  ghost predicate SameCounters(a: map<ProductId, StockItem>, b: map<ProductId, StockItem>) {
    a.Keys == b.Keys && forall p :: p in a ==> a[p] == b[p]
  }

  /** The reservation a granted request leaves behind. */
  lemma GrantedRow(db: Db, q: ReserveRequest, expiresAt: int)
    requires Decide(db, q) == Granted
    ensures var next := Reserve(db, q, expiresAt);
      && next.reservations == db.reservations + [HeldRow(q, expiresAt)]
      && HasReservation(next, q.order) && ReservationOf(next, q.order) == HeldRow(q, expiresAt)
      && Find(next.reservations, q.order) == |db.reservations|
      && InStock(next.stock, HeldRow(q, expiresAt).items)
      && Moved(db.stock, next.stock, HeldRow(q, expiresAt).items, RESERVE)
  {
    var r := HeldRow(q, expiresAt);
    GrantedCovers(db, q);
    MoveLinesStock(db.(reservations := db.reservations + [r]), r.items, RESERVE, q.order);
    FindAppend(db.reservations, r, q.order);
  }

  lemma SettleStock(db: Db, i: nat, reason: LedgerReason, status: ReservationStatus)
    requires i < |db.reservations| && InStock(db.stock, db.reservations[i].items)
    ensures Moved(db.stock, Settle(db, i, reason, status).stock, db.reservations[i].items, reason)
    ensures Find(Settle(db, i, reason, status).reservations, db.reservations[i].order)
         == Find(db.reservations, db.reservations[i].order)
  {
    var r := db.reservations[i];
    MoveLinesStock(db, r.items, reason, r.order);
    FindSame(db.reservations, db.reservations[i := r.(status := status)], r.order);
  }

  /** Units that went out by one movement and came back by another. */
  lemma MovedBack(a: map<ProductId, StockItem>, b: map<ProductId, StockItem>, c: map<ProductId, StockItem>, lines: seq<Line>)
    requires Moved(a, b, lines, RESERVE) && Moved(b, c, lines, RELEASE)
    ensures SameCounters(c, a)
  {
  }

  /** Units that were held, sold and restocked. */
  lemma SoldAndBack(a: map<ProductId, StockItem>, b: map<ProductId, StockItem>, c: map<ProductId, StockItem>,
                    d: map<ProductId, StockItem>, lines: seq<Line>)
    requires Moved(a, b, lines, RESERVE) && Moved(b, c, lines, COMMIT) && Moved(c, d, lines, RESTOCK)
    ensures SameCounters(d, a)
  {
  }

  /** What releasing the last reservation leaves. */
  lemma ReleaseLast(db: Db, before: seq<Reservation>, r: Reservation)
    requires InStock(db.stock, r.items) && db.reservations == before + [r] && Find(db.reservations, r.order) == |before|
    requires r.status == HELD || r.status == COMMITTED
    ensures var next := Release(db, r.order);
      && next.reservations == before + [r.(status := RELEASED)]
      && Moved(db.stock, next.stock, r.items, if r.status == HELD then RELEASE else RESTOCK)
  {
    SettleStock(db, |before|, if r.status == HELD then RELEASE else RESTOCK, RELEASED);
  }

  lemma CommitLast(db: Db, before: seq<Reservation>, r: Reservation)
    requires InStock(db.stock, r.items) && db.reservations == before + [r] && Find(db.reservations, r.order) == |before|
    requires r.status == HELD
    ensures var next := Commit(db, r.order);
      && next.reservations == before + [r.(status := COMMITTED)]
      && Find(next.reservations, r.order) == |before|
      && Moved(db.stock, next.stock, r.items, COMMIT)
  {
    SettleStock(db, |before|, COMMIT, COMMITTED);
  }

  /** The compensating transaction: release puts every unit of a reservation back. */
  lemma ReleaseUndoesReserve(db: Db, q: ReserveRequest, expiresAt: int)
    requires Inv(db) && Decide(db, q) == Granted
    ensures SameCounters(Release(Reserve(db, q, expiresAt), q.order).stock, db.stock)
    ensures Release(Reserve(db, q, expiresAt), q.order).reservations
         == db.reservations + [HeldRow(q, expiresAt).(status := RELEASED)]
  {
    var next, r := Reserve(db, q, expiresAt), HeldRow(q, expiresAt);
    GrantedRow(db, q, expiresAt);
    ReleaseLast(next, db.reservations, r);
    MovedBack(db.stock, next.stock, Release(next, q.order).stock, r.items);
  }

  /** Cancelling a paid order restocks it: commit and release together also undo the reservation. */
  lemma ReleaseUndoesCommit(db: Db, q: ReserveRequest, expiresAt: int)
    requires Inv(db) && Decide(db, q) == Granted
    ensures SameCounters(Release(Commit(Reserve(db, q, expiresAt), q.order), q.order).stock, db.stock)
    ensures Release(Commit(Reserve(db, q, expiresAt), q.order), q.order).reservations
         == db.reservations + [HeldRow(q, expiresAt).(status := RELEASED)]
  {
    var next, r := Reserve(db, q, expiresAt), HeldRow(q, expiresAt);
    GrantedRow(db, q, expiresAt);
    CommitLast(next, db.reservations, r);
    var sold := Commit(next, q.order);
    ReleaseLast(sold, db.reservations, r.(status := COMMITTED));
    SoldAndBack(db.stock, next.stock, sold.stock, Release(sold, q.order).stock, r.items);
  }

  /** Commit takes the units out for good: available stays where reserve left it, reserved returns. */
  lemma CommitDeducts(db: Db, q: ReserveRequest, expiresAt: int, p: ProductId)
    requires Inv(db) && Decide(db, q) == Granted && p in db.stock
    ensures var next := Commit(Reserve(db, q, expiresAt), q.order);
      && p in next.stock
      && next.stock[p].available == db.stock[p].available - Qty(q.items, p)
      && next.stock[p].reserved == db.stock[p].reserved
  {
    GrantedRow(db, q, expiresAt);
    GrantedCovers(db, q);
    CommitLast(Reserve(db, q, expiresAt), db.reservations, HeldRow(q, expiresAt));
  }

  /** A second release changes nothing, and nothing can be committed after a release. */
  lemma ReleaseIsFinal(db: Db, order: OrderId)
    ensures Release(Release(db, order), order) == Release(db, order)
    ensures Commit(Release(db, order), order) == Release(db, order)
  {
    if HasReservation(db, order) {
      var i := Find(db.reservations, order);
      var r := db.reservations[i];
      FindSame(db.reservations, db.reservations[i := r.(status := RELEASED)], order);
    }
  }

  lemma CommitIsIdempotent(db: Db, order: OrderId)
    ensures Commit(Commit(db, order), order) == Commit(db, order)
  {
    if HasReservation(db, order) {
      var i := Find(db.reservations, order);
      var r := db.reservations[i];
      FindSame(db.reservations, db.reservations[i := r.(status := COMMITTED)], order);
    }
  }

  /** Asking again for a granted order holds nothing more. */
  lemma ReserveIsIdempotent(db: Db, q: ReserveRequest, expiresAt: int, again: int)
    requires Decide(db, q) == Granted
    ensures Reserve(Reserve(db, q, expiresAt), q, again) == Reserve(db, q, expiresAt)
  {
    GrantedRow(db, q, expiresAt);
  }

  // ------------------------------------------------------------ sweeps and stock takes

  lemma LeftOut<T>(sorted: seq<T>, limit: nat, j: nat)
    requires j < |sorted| && sorted[j] !in (if |sorted| <= limit then sorted else sorted[..limit])
    ensures limit <= j
  {
    if |sorted| > limit {
      var batch := sorted[..limit];
      assert forall m :: 0 <= m < |batch| ==> batch[m] == sorted[m] && batch[m] in batch;
    }
  }

  /** A sweep that cannot take every stale reservation takes the earliest to expire. */
  lemma BatchTakesEarliest(reservations: seq<Reservation>, now: int, limit: nat, i: nat, k: nat)
    requires i < |reservations| && IsStale(reservations[i], now) && k < |Batch(reservations, now, limit)|
    requires Stale(i, reservations[i].expiresAt) !in Batch(reservations, now, limit)
    ensures Batch(reservations, now, limit)[k].expiresAt <= reservations[i].expiresAt
  {
    var rows := StaleRows(reservations, now);
    var key := (row: Stale) => row.expiresAt;
    var sorted := SortBy(rows, key);
    var left := Stale(i, reservations[i].expiresAt);
    StaleRowsPicked(reservations, now);
    SortByIsSort(rows, key);
    assert left in multiset(rows);
    var j :| 0 <= j < |sorted| && sorted[j] == left;
    LeftOut(sorted, limit, j);
    assert key(sorted[k]) <= key(sorted[j]);
  }

  /** A stock take sets the count it was given, whatever it was, and touches no other row and no hold. */
  lemma AdjustSetsTheCount(db: Db, product: ProductId, available: nat, threshold: Option<int>)
    ensures var r := Adjust(db, product, available, threshold);
      && (r.Some? <==> product in db.stock)
      && (r.Some? ==>
            && r.value.stock.Keys == db.stock.Keys
            && r.value.stock[product].available == available
            && r.value.stock[product].reserved == db.stock[product].reserved
            && r.value.reservations == db.reservations
            && forall p :: p in db.stock && p != product ==> r.value.stock[p] == db.stock[p])
  {
  }

  /** A delivery adds its quantity to a row, or opens one with it under a sku nobody else has. */
  lemma RestockAdds(db: Db, product: ProductId, sku: string, quantity: nat, threshold: Option<int>)
    ensures var r := Upsert(db, product, sku, quantity, threshold);
      && (r.Some? <==> product in db.stock || !SkuTaken(db, Upper(sku)))
      && (r.Some? ==>
            && r.value.stock.Keys == db.stock.Keys + {product}
            && r.value.stock[product].available
               == (if product in db.stock then db.stock[product].available else 0) + quantity
            && (product !in db.stock ==> forall p :: p in db.stock ==> db.stock[p].sku != r.value.stock[product].sku)
            && forall p :: p in db.stock && p != product ==> r.value.stock[p] == db.stock[p])
  {
  }
}
