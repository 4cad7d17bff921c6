/** Every inventory transaction keeps `InventoryLedger.Inv`, so every run does. */
module InventoryInvariants {
  import opened Prelude
  import opened Events
  import opened Inventory
  import opened InventoryLedger

  // ------------------------------------------------------------ the reservations table

  /** What one reservation contributes to a status total. */
  function Share(r: Reservation, status: ReservationStatus, p: ProductId): int {
    if r.status == status then Qty(r.items, p) else 0
  }

  lemma InStatusAppend(rows: seq<Reservation>, r: Reservation, status: ReservationStatus, p: ProductId)
    ensures InStatus(rows + [r], status, p) == InStatus(rows, status, p) + Share(r, status, p)
  {
    assert (rows + [r])[..|rows|] == rows;
  }

  lemma {:induction false} InStatusUpdate(rows: seq<Reservation>, i: nat, r: Reservation, status: ReservationStatus, p: ProductId)
    requires i < |rows|
    ensures InStatus(rows[i := r], status, p)
         == InStatus(rows, status, p) - Share(rows[i], status, p) + Share(r, status, p)
  {
    var n := |rows| - 1;
    if i < n {
      InStatusUpdate(rows[..n], i, r, status, p);
      assert rows[i := r][..n] == rows[..n][i := r];
    } else {
      assert rows[i := r][..n] == rows[..n];
    }
  }

  lemma {:induction false} InStatusNonNegative(rows: seq<Reservation>, status: ReservationStatus, p: ProductId)
    requires forall i :: 0 <= i < |rows| ==> AllPositive(rows[i].items)
    ensures InStatus(rows, status, p) >= 0
  {
    if |rows| > 0 {
      InStatusNonNegative(rows[..|rows| - 1], status, p);
      QtyNonNegative(rows[|rows| - 1].items, p);
    }
  }

  /** A row's own units are part of its status total. */
  lemma InStatusAtLeast(rows: seq<Reservation>, i: nat, p: ProductId)
    requires i < |rows|
    requires forall k :: 0 <= k < |rows| ==> AllPositive(rows[k].items)
    ensures InStatus(rows, rows[i].status, p) >= Qty(rows[i].items, p)
  {
    var emptied := rows[i].(items := []);
    InStatusUpdate(rows, i, emptied, rows[i].status, p);
    InStatusNonNegative(rows[i := emptied], rows[i].status, p);
  }

  lemma {:induction false} InStatusAbsent(rows: seq<Reservation>, status: ReservationStatus, p: ProductId)
    requires forall i :: 0 <= i < |rows| ==> !Mentions(rows[i].items, p)
    ensures InStatus(rows, status, p) == 0
  {
    if |rows| > 0 {
      InStatusAbsent(rows[..|rows| - 1], status, p);
      assert !Mentions(rows[|rows| - 1].items, p);
      QtyAbsent(rows[|rows| - 1].items, p);
    }
  }

  lemma FindUnique(db: Db, i: nat)
    requires UniqueOrders(db) && i < |db.reservations|
    ensures Find(db.reservations, db.reservations[i].order) == i
  {
  }

  lemma FindAppend(rows: seq<Reservation>, r: Reservation, o: OrderId)
    ensures Find(rows + [r], o) ==
      if Find(rows, o) < |rows| then Find(rows, o) else if r.order == o then |rows| else |rows| + 1
  {
    assert (rows + [r])[..|rows|] == rows;
  }

  lemma FindSame(a: seq<Reservation>, b: seq<Reservation>, o: OrderId)
    requires |a| == |b| && forall k :: 0 <= k < |a| ==> a[k].order == b[k].order
    ensures Find(a, o) == Find(b, o)
  {
    var i, j := Find(a, o), Find(b, o);
    assert i < |a| ==> a[i].order == b[i].order;
    assert j < |a| ==> a[j].order == b[j].order;
  }

  // ------------------------------------------------------------ settling a reservation

  /** The four ways a reservation leaves a status. */
  predicate LegalSettlement(from: ReservationStatus, reason: LedgerReason, to: ReservationStatus) {
    || (from == HELD && reason == COMMIT && to == COMMITTED)
    || (from == HELD && reason == RELEASE && to == RELEASED)
    || (from == HELD && reason == EXPIRE && to == EXPIRED)
    || (from == COMMITTED && reason == RESTOCK && to == RELEASED)
  }

  /** A settlement takes a hold's units out of `reserved_qty` and nothing out of `available_qty`. */
  lemma SignsHeld(from: ReservationStatus, reason: LedgerReason, to: ReservationStatus, q: int)
    requires LegalSettlement(from, reason, to) && q >= 0
    ensures ReservedSign(reason) * q == if from == HELD then -q else 0
    ensures AvailableSign(reason) * q >= 0 && to != HELD
  {
  }

  /** One product after a settlement. */
  lemma SettleCountersAt(db: Db, i: nat, reason: LedgerReason, status: ReservationStatus, p: ProductId)
    requires Inv(db) && i < |db.reservations| && LegalSettlement(db.reservations[i].status, reason, status)
    requires p in db.stock
    ensures var next := Settle(db, i, reason, status);
      && p in next.stock
      && next.stock[p].reserved == InStatus(next.reservations, HELD, p) >= 0
      && next.stock[p].available >= 0
  {
    var r := db.reservations[i];
    MoveLinesStock(db, r.items, reason, r.order);
    InStatusUpdate(db.reservations, i, r.(status := status), HELD, p);
    InStatusNonNegative(db.reservations[i := r.(status := status)], HELD, p);
    QtyNonNegative(r.items, p);
    SignsHeld(r.status, reason, status, Qty(r.items, p));
  }

  /** What leaves one of the three shares of a product enters another. */
  lemma SignsCancel(from: ReservationStatus, reason: LedgerReason, to: ReservationStatus, q: int)
    requires LegalSettlement(from, reason, to)
    ensures AvailableSign(reason) * q + ReservedSign(reason) * q
            + (if to == COMMITTED then q else 0) == (if from == COMMITTED then q else 0)
  {
  }

  lemma SettleConservedAt(db: Db, i: nat, reason: LedgerReason, status: ReservationStatus, p: ProductId)
    requires Inv(db) && i < |db.reservations| && LegalSettlement(db.reservations[i].status, reason, status)
    requires p in db.stock
    ensures var next := Settle(db, i, reason, status);
      && p in next.stock
      && next.stock[p].available + next.stock[p].reserved + InStatus(next.reservations, COMMITTED, p)
         == LedgerSum(next.ledger, p, Unreferenced)
  {
    var r := db.reservations[i];
    MoveLinesStock(db, r.items, reason, r.order);
    InStatusUpdate(db.reservations, i, r.(status := status), COMMITTED, p);
    MoveLinesDeltas(db, r.items, reason, r.order, p, Unreferenced);
    SignsCancel(r.status, reason, status, Qty(r.items, p));
  }

  lemma SettleSums(db: Db, i: nat, reason: LedgerReason, status: ReservationStatus)
    requires Inv(db) && i < |db.reservations| && LegalSettlement(db.reservations[i].status, reason, status)
    ensures var next := Settle(db, i, reason, status); NonNegative(next) && ReservedIsHeld(next) && Conserved(next)
  {
    var r := db.reservations[i];
    MoveLinesStock(db, r.items, reason, r.order);
    forall p | p in db.stock
      ensures var next := Settle(db, i, reason, status);
        && next.stock[p].available >= 0 && next.stock[p].reserved == InStatus(next.reservations, HELD, p) >= 0
        && next.stock[p].available + next.stock[p].reserved + InStatus(next.reservations, COMMITTED, p)
           == LedgerSum(next.ledger, p, Unreferenced)
    {
      SettleCountersAt(db, i, reason, status, p);
      SettleConservedAt(db, i, reason, status, p);
    }
  }

  lemma SettleBalances(db: Db, i: nat, reason: LedgerReason, status: ReservationStatus)
    requires Inv(db) && i < |db.reservations| && LegalSettlement(db.reservations[i].status, reason, status)
    ensures OrdersBalance(Settle(db, i, reason, status))
  {
    var r := db.reservations[i];
    var next := Settle(db, i, reason, status);
    forall o: OrderId, p: ProductId
      ensures LedgerSum(next.ledger, p, OfOrder(o)) == -Outstanding(next.reservations, o, p)
    {
      MoveLinesDeltas(db, r.items, reason, r.order, p, OfOrder(o));
      FindSame(db.reservations, next.reservations, o);
      FindUnique(db, i);
      assert LedgerSum(db.ledger, p, OfOrder(o)) == -Outstanding(db.reservations, o, p);
    }
  }

  lemma SettleItems(db: Db, i: nat, reason: LedgerReason, status: ReservationStatus)
    requires ItemsOk(db) && UniqueOrders(db) && i < |db.reservations|
    ensures ItemsOk(Settle(db, i, reason, status)) && UniqueOrders(Settle(db, i, reason, status))
  {
    MoveLinesStock(db, db.reservations[i].items, reason, db.reservations[i].order);
  }

  lemma SettleLedgerOk(db: Db, i: nat, reason: LedgerReason, status: ReservationStatus)
    requires LedgerOk(db) && i < |db.reservations|
    ensures LedgerOk(Settle(db, i, reason, status))
  {
    MoveLinesLedgerOk(db, db.reservations[i].items, reason, db.reservations[i].order);
  }

  /** Everything but the sums. */
  lemma SettleRows(db: Db, i: nat, reason: LedgerReason, status: ReservationStatus)
    requires Inv(db) && i < |db.reservations|
    ensures var next := Settle(db, i, reason, status); ItemsOk(next) && UniqueOrders(next) && LedgerOk(next)
  {
    SettleItems(db, i, reason, status);
    SettleLedgerOk(db, i, reason, status);
  }

  lemma SettleKeepsInv(db: Db, i: nat, reason: LedgerReason, status: ReservationStatus)
    requires Inv(db) && i < |db.reservations| && LegalSettlement(db.reservations[i].status, reason, status)
    ensures Inv(Settle(db, i, reason, status))
  {
    SettleRows(db, i, reason, status);
    SettleSums(db, i, reason, status);
    SettleBalances(db, i, reason, status);
  }

  // ------------------------------------------------------------ reserve

  lemma {:induction false} ShortagesEmpty(stock: map<ProductId, StockItem>, wanted: seq<Line>)
    ensures |Shortages(stock, wanted)| == 0 <==> forall k :: 0 <= k < |wanted| ==> !Short(stock, wanted[k])
  {
    if |wanted| > 0 {
      ShortagesEmpty(stock, wanted[..|wanted| - 1]);
    }
  }

  /** A granted request covers every product it names, in stock and in full. */
  lemma GrantedCovers(db: Db, q: ReserveRequest)
    requires Decide(db, q) == Granted
    ensures InStock(db.stock, InLockOrder(Wanted(q.items)))
    ensures DistinctProducts(InLockOrder(Wanted(q.items))) && AllPositive(InLockOrder(Wanted(q.items)))
    ensures |InLockOrder(Wanted(q.items))| > 0
    ensures forall p: ProductId :: Qty(InLockOrder(Wanted(q.items)), p) == Qty(q.items, p)
    ensures forall p :: p in db.stock ==> Qty(q.items, p) <= db.stock[p].available || Qty(q.items, p) == 0
  {
    var wanted := Wanted(q.items);
    var key := (line: Line) => line.product;
    var lines := InLockOrder(wanted);
    WantedShape(q.items);
    SortShape(wanted, key);
    ShortagesEmpty(db.stock, wanted);
    forall p: ProductId
      ensures Qty(lines, p) == Qty(q.items, p)
    {
      WantedQty(q.items, p);
      QtySort(wanted, key, p);
    }
    forall p | p in db.stock
      ensures Qty(q.items, p) <= db.stock[p].available || Qty(q.items, p) == 0
    {
      WantedQty(q.items, p);
      var k := IndexOf(wanted, p);
      if k < |wanted| {
        QtyOfLine(wanted, k);
        assert !Short(db.stock, wanted[k]);
      } else {
        QtyAbsent(wanted, p);
      }
    }
  }

  function HeldRow(q: ReserveRequest, expiresAt: int): Reservation {
    Reservation(q.order, q.user, HELD, expiresAt, InLockOrder(Wanted(q.items)))
  }

  lemma HoldCountersAt(db: Db, q: ReserveRequest, expiresAt: int, p: ProductId)
    requires Inv(db) && Decide(db, q) == Granted && p in db.stock
    ensures var next := Hold(db, q, expiresAt);
      && p in next.stock
      && next.stock[p].reserved == InStatus(next.reservations, HELD, p) >= 0
      && next.stock[p].available >= 0
  {
    var r := HeldRow(q, expiresAt);
    GrantedCovers(db, q);
    MoveLinesStock(db.(reservations := db.reservations + [r]), r.items, RESERVE, q.order);
    InStatusAppend(db.reservations, r, HELD, p);
    QtyNonNegative(r.items, p);
  }

  lemma HoldConservedAt(db: Db, q: ReserveRequest, expiresAt: int, p: ProductId)
    requires Inv(db) && Decide(db, q) == Granted && p in db.stock
    ensures var next := Hold(db, q, expiresAt);
      && p in next.stock
      && next.stock[p].available + next.stock[p].reserved + InStatus(next.reservations, COMMITTED, p)
         == LedgerSum(next.ledger, p, Unreferenced)
  {
    var r := HeldRow(q, expiresAt);
    var start := db.(reservations := db.reservations + [r]);
    GrantedCovers(db, q);
    MoveLinesStock(start, r.items, RESERVE, q.order);
    InStatusAppend(db.reservations, r, COMMITTED, p);
    MoveLinesDeltas(start, r.items, RESERVE, q.order, p, Unreferenced);
  }

  lemma HoldSums(db: Db, q: ReserveRequest, expiresAt: int)
    requires Inv(db) && Decide(db, q) == Granted
    ensures var next := Hold(db, q, expiresAt); NonNegative(next) && ReservedIsHeld(next) && Conserved(next)
  {
    HoldRows(db, q, expiresAt);
    forall p | p in db.stock
      ensures var next := Hold(db, q, expiresAt);
        && next.stock[p].available >= 0 && next.stock[p].reserved == InStatus(next.reservations, HELD, p) >= 0
        && next.stock[p].available + next.stock[p].reserved + InStatus(next.reservations, COMMITTED, p)
           == LedgerSum(next.ledger, p, Unreferenced)
    {
      HoldCountersAt(db, q, expiresAt, p);
      HoldConservedAt(db, q, expiresAt, p);
    }
  }

  /** Everything but the sums. */
  lemma HoldRows(db: Db, q: ReserveRequest, expiresAt: int)
    requires Inv(db) && Decide(db, q) == Granted
    ensures var next := Hold(db, q, expiresAt);
      ItemsOk(next) && UniqueOrders(next) && LedgerOk(next) && next.stock.Keys == db.stock.Keys
  {
    var r := HeldRow(q, expiresAt);
    var start := db.(reservations := db.reservations + [r]);
    GrantedCovers(db, q);
    MoveLinesStock(start, r.items, RESERVE, q.order);
    MoveLinesLedgerOk(start, r.items, RESERVE, q.order);
  }

  lemma HoldBalances(db: Db, q: ReserveRequest, expiresAt: int)
    requires Inv(db) && Decide(db, q) == Granted
    ensures OrdersBalance(Hold(db, q, expiresAt))
  {
    var r := HeldRow(q, expiresAt);
    var start := db.(reservations := db.reservations + [r]);
    var next := Hold(db, q, expiresAt);
    GrantedCovers(db, q);
    MoveLinesStock(start, r.items, RESERVE, q.order);
    forall o: OrderId, p: ProductId
      ensures LedgerSum(next.ledger, p, OfOrder(o)) == -Outstanding(next.reservations, o, p)
    {
      MoveLinesDeltas(start, r.items, RESERVE, q.order, p, OfOrder(o));
      FindAppend(db.reservations, r, o);
      assert LedgerSum(db.ledger, p, OfOrder(o)) == -Outstanding(db.reservations, o, p);
    }
  }

  lemma HoldKeepsInv(db: Db, q: ReserveRequest, expiresAt: int)
    requires Inv(db) && Decide(db, q) == Granted
    ensures Inv(Hold(db, q, expiresAt))
  {
    HoldRows(db, q, expiresAt);
    HoldSums(db, q, expiresAt);
    HoldBalances(db, q, expiresAt);
  }

  lemma PublishKeepsInv(db: Db, e: Event)
    requires Inv(db) && !e.StockChanged?
    ensures Inv(db.(outbox := db.outbox + [e]))
  {
    assert [e][..0] == [];
    PublishedAppend(db.outbox, [e]);
  }

  lemma ReserveKeepsInv(db: Db, q: ReserveRequest, expiresAt: int)
    requires Inv(db)
    ensures Inv(Reserve(db, q, expiresAt))
  {
    match Decide(db, q)
    case Invalid =>
    case Duplicate =>
    case Insufficient =>
      PublishKeepsInv(db, RefusedEvent(db, q));
    case Granted =>
      HoldKeepsInv(db, q, expiresAt);
      PublishKeepsInv(Hold(db, q, expiresAt), ReservedEvent(q, expiresAt));
  }

  // ------------------------------------------------------------ commit, release, expire

  lemma CommitKeepsInv(db: Db, order: OrderId)
    requires Inv(db)
    ensures Inv(Commit(db, order))
  {
    if HasReservation(db, order) && ReservationOf(db, order).status == HELD {
      SettleKeepsInv(db, Find(db.reservations, order), COMMIT, COMMITTED);
    }
  }

  lemma ReleaseKeepsInv(db: Db, order: OrderId)
    requires Inv(db)
    ensures Inv(Release(db, order))
  {
    if HasReservation(db, order) {
      var i := Find(db.reservations, order);
      match db.reservations[i].status
      case RELEASED =>
      case EXPIRED =>
      case COMMITTED => SettleKeepsInv(db, i, RESTOCK, RELEASED);
      case HELD => SettleKeepsInv(db, i, RELEASE, RELEASED);
    }
  }

  /** The rows a sweep picked: distinct, and stale in `reservations`. */
  ghost predicate Picked(reservations: seq<Reservation>, rows: seq<Stale>, now: int) {
    && (forall k :: 0 <= k < |rows| ==>
      && rows[k].index < |reservations|
      && IsStale(reservations[rows[k].index], now)
      && rows[k].expiresAt == reservations[rows[k].index].expiresAt)
    && (forall j, k :: 0 <= j < k < |rows| ==> rows[j].index != rows[k].index)
  }

  ghost predicate Takes(rows: seq<Stale>, i: nat) {
    exists k :: 0 <= k < |rows| && rows[k].index == i
  }

  lemma TakesSnoc(rows: seq<Stale>, row: Stale, i: nat)
    ensures Takes(rows + [row], i) <==> Takes(rows, i) || row.index == i
  {
    var all := rows + [row];
    assert all[|rows|] == row;
    if Takes(rows, i) {
      var k :| 0 <= k < |rows| && rows[k].index == i;
      assert all[k].index == i;
    }
  }

  /** `ExpireRows` touches only the status of the picked rows. */
  ghost predicate Expired(before: seq<Reservation>, after: seq<Reservation>, rows: seq<Stale>) {
    && |after| == |before|
    && forall i :: 0 <= i < |before| ==>
      after[i] == if Takes(rows, i) then before[i].(status := EXPIRED) else before[i]
  }

  lemma SettleReservations(db: Db, i: nat, reason: LedgerReason, status: ReservationStatus)
    requires i < |db.reservations|
    ensures Settle(db, i, reason, status).reservations
         == db.reservations[i := db.reservations[i].(status := status)]
  {
  }

  /** A sweep changes the status of the rows it took and no other reservation data. */
  lemma {:induction false} ExpireRowsTouch(db: Db, rows: seq<Stale>)
    requires forall k :: 0 <= k < |rows| ==> rows[k].index < |db.reservations|
    ensures Expired(db.reservations, ExpireRows(db, rows).reservations, rows)
  {
    if |rows| > 0 {
      var init := rows[..|rows| - 1];
      var last := rows[|rows| - 1];
      ExpireRowsTouch(db, init);
      var before := ExpireRows(db, init);
      SettleReservations(before, last.index, EXPIRE, EXPIRED);
      assert init + [last] == rows;
      forall i: nat | i < |db.reservations|
        ensures Takes(rows, i) <==> Takes(init, i) || i == last.index
      {
        TakesSnoc(init, last, i);
      }
    }
  }

  lemma {:induction false} ExpireRowsKeepInv(db: Db, rows: seq<Stale>, now: int)
    requires Inv(db) && Picked(db.reservations, rows, now)
    ensures Inv(ExpireRows(db, rows))
  {
    if |rows| > 0 {
      var init := rows[..|rows| - 1];
      var last := rows[|rows| - 1].index;
      ExpireRowsKeepInv(db, init, now);
      ExpireRowsTouch(db, init);
      var before := ExpireRows(db, init);
      assert !Takes(init, last);
      assert before.reservations[last] == db.reservations[last];
      SettleKeepsInv(before, last, EXPIRE, EXPIRED);
    }
  }

  lemma PickedOnLonger(reservations: seq<Reservation>, n: nat, rows: seq<Stale>, now: int)
    requires n <= |reservations| && Picked(reservations[..n], rows, now)
    ensures Picked(reservations, rows, now) && forall k :: 0 <= k < |rows| ==> rows[k].index < n
  {
  }

  lemma PickedPlus(reservations: seq<Reservation>, rows: seq<Stale>, n: nat, now: int)
    requires Picked(reservations, rows, now) && n < |reservations| && IsStale(reservations[n], now)
    requires forall k :: 0 <= k < |rows| ==> rows[k].index < n
    ensures Picked(reservations, rows + [Stale(n, reservations[n].expiresAt)], now)
  {
  }

  lemma {:induction false} StaleRowsArePicked(reservations: seq<Reservation>, now: int)
    ensures Picked(reservations, StaleRows(reservations, now), now)
  {
    if |reservations| > 0 {
      var n := |reservations| - 1;
      var before := StaleRows(reservations[..n], now);
      StaleRowsArePicked(reservations[..n], now);
      PickedOnLonger(reservations, n, before, now);
      if IsStale(reservations[n], now) {
        PickedPlus(reservations, before, n, now);
      } else {
        assert StaleRows(reservations, now) == before;
      }
    }
  }

  lemma {:induction false} StaleRowsComplete(reservations: seq<Reservation>, now: int, i: nat)
    requires i < |reservations| && IsStale(reservations[i], now)
    ensures Stale(i, reservations[i].expiresAt) in StaleRows(reservations, now)
  {
    var n := |reservations| - 1;
    if i < n {
      StaleRowsComplete(reservations[..n], now, i);
    } else {
      assert StaleRows(reservations, now)[|StaleRows(reservations[..n], now)|] == Stale(n, reservations[n].expiresAt);
    }
  }

  /** The rows a sweep may take are exactly the stale ones, each once. */
  lemma StaleRowsPicked(reservations: seq<Reservation>, now: int)
    ensures Picked(reservations, StaleRows(reservations, now), now)
    ensures forall i :: 0 <= i < |reservations| && IsStale(reservations[i], now) ==>
      Stale(i, reservations[i].expiresAt) in StaleRows(reservations, now)
  {
    StaleRowsArePicked(reservations, now);
    forall i: nat | i < |reservations| && IsStale(reservations[i], now)
      ensures Stale(i, reservations[i].expiresAt) in StaleRows(reservations, now)
    {
      StaleRowsComplete(reservations, now, i);
    }
  }

  lemma {:induction false} InsertPicked(reservations: seq<Reservation>, row: Stale, rows: seq<Stale>, key: Stale -> int, now: int)
    requires Picked(reservations, [row], now) && Picked(reservations, rows, now) && !Takes(rows, row.index)
    ensures Picked(reservations, Insert(row, rows, key), now)
    ensures forall k :: 0 <= k < |Insert(row, rows, key)| ==>
      Insert(row, rows, key)[k] == row || Insert(row, rows, key)[k] in rows
  {
    assert [row][0] == row;
    if |rows| == 0 || key(row) < key(rows[0]) {
    } else {
      var tail := rows[1..];
      assert forall k :: 0 <= k < |tail| ==> tail[k] == rows[k + 1];
      InsertPicked(reservations, row, tail, key, now);
      var rest := Insert(row, tail, key);
      forall k | 0 <= k < |rest|
        ensures rest[k].index != rows[0].index
      {
        assert rest[k] == row || rest[k] in tail;
      }
    }
  }

  lemma {:induction false} SortPicked(reservations: seq<Reservation>, rows: seq<Stale>, key: Stale -> int, now: int)
    requires Picked(reservations, rows, now)
    ensures Picked(reservations, SortBy(rows, key), now)
    ensures forall k :: 0 <= k < |SortBy(rows, key)| ==> SortBy(rows, key)[k] in rows
  {
    if |rows| > 0 {
      var init := rows[..|rows| - 1];
      var last := rows[|rows| - 1];
      SortPicked(reservations, init, key, now);
      var sorted := SortBy(init, key);
      forall k | 0 <= k < |sorted|
        ensures sorted[k].index != last.index
      {
        assert sorted[k] in init;
      }
      InsertPicked(reservations, last, sorted, key, now);
    }
  }

  lemma BatchPicked(reservations: seq<Reservation>, now: int, limit: nat)
    ensures Picked(reservations, Batch(reservations, now, limit), now)
    ensures |Batch(reservations, now, limit)| == Min(limit, |StaleRows(reservations, now)|)
  {
    var rows := StaleRows(reservations, now);
    var key := (row: Stale) => row.expiresAt;
    StaleRowsPicked(reservations, now);
    SortPicked(reservations, rows, key, now);
    SortByIsSort(rows, key);
    PickedPrefix(reservations, SortBy(rows, key), Min(limit, |rows|), now);
    FullPrefix(SortBy(rows, key));
  }

  lemma PickedPrefix(reservations: seq<Reservation>, rows: seq<Stale>, n: nat, now: int)
    requires Picked(reservations, rows, now) && n <= |rows|
    ensures Picked(reservations, rows[..n], now)
  {
  }

  lemma ExpireStaleKeepsInv(db: Db, now: int, limit: nat)
    requires Inv(db)
    ensures Inv(ExpireStale(db, now, limit))
  {
    BatchPicked(db.reservations, now, limit);
    BatchInRange(db.reservations, now, limit);
    ExpireRowsKeepInv(db, Batch(db.reservations, now, limit), now);
  }

  // ------------------------------------------------------------ admin

  /** A new row at zero changes no sum, because nothing refers to its product yet. */
  lemma NewRowKeepsInv(db: Db, product: ProductId, row: StockItem)
    requires Inv(db) && product !in db.stock && row.available == 0 && row.reserved == 0
    ensures Inv(db.(stock := db.stock[product := row]))
  {
    var next := db.(stock := db.stock[product := row]);
    forall i | 0 <= i < |db.reservations|
      ensures !Mentions(db.reservations[i].items, product)
    {
      assert InStock(db.stock, db.reservations[i].items);
    }
    InStatusAbsent(db.reservations, HELD, product);
    InStatusAbsent(db.reservations, COMMITTED, product);
    LedgerSumAbsent(db.ledger, product, Every);
    LedgerSumAbsent(db.ledger, product, Unreferenced);
  }

  lemma ThresholdKeepsInv(db: Db, product: ProductId, threshold: Option<int>)
    requires Inv(db) && product in db.stock
    ensures Inv(db.(stock := db.stock[product := WithThreshold(db.stock[product], threshold)]))
  {
  }

  /** Supply that comes or goes without an order shifts both sides of the conservation law. */
  lemma SupplyKeepsInv(db: Db, product: ProductId, delta: int, reason: LedgerReason)
    requires Inv(db) && product in db.stock && db.stock[product].available + delta >= 0
    ensures Inv(Move(db, product, delta, 0, reason, None))
  {
    var next := Move(db, product, delta, 0, reason, None);
    var added := next.ledger[|db.ledger|];
    MoveLedger(db, product, delta, 0, reason, None);
    forall p | p in next.stock
      ensures next.stock[p].available + next.stock[p].reserved + InStatus(next.reservations, COMMITTED, p)
           == LedgerSum(next.ledger, p, Unreferenced)
    {
      LedgerSumSnoc(db.ledger, added, p, Unreferenced);
    }
    forall o: OrderId, p: ProductId
      ensures LedgerSum(next.ledger, p, OfOrder(o)) == -Outstanding(next.reservations, o, p)
    {
      LedgerSumSnoc(db.ledger, added, p, OfOrder(o));
      assert LedgerSum(db.ledger, p, OfOrder(o)) == -Outstanding(db.reservations, o, p);
    }
  }

  /** The threshold changes first, then the supply. */
  lemma SupplyOnRow(db: Db, product: ProductId, threshold: Option<int>, delta: int, reason: LedgerReason)
    requires Inv(db) && product in db.stock && db.stock[product].available + delta >= 0
    ensures Inv(Move(db.(stock := db.stock[product := WithThreshold(db.stock[product], threshold)]),
                     product, delta, 0, reason, None))
  {
    ThresholdKeepsInv(db, product, threshold);
    SupplyKeepsInv(db.(stock := db.stock[product := WithThreshold(db.stock[product], threshold)]), product, delta, reason);
  }

  lemma UpsertKeepsInv(db: Db, product: ProductId, sku: string, quantity: nat, threshold: Option<int>)
    requires Inv(db)
    ensures Upsert(db, product, sku, quantity, threshold).Some? ==>
      Inv(Upsert(db, product, sku, quantity, threshold).value)
  {
    if product in db.stock {
      SupplyOnRow(db, product, threshold, quantity, RESTOCK);
    } else if !SkuTaken(db, Upper(sku)) {
      var row := NewRow(sku, threshold);
      NewRowKeepsInv(db, product, row);
      SupplyKeepsInv(db.(stock := db.stock[product := row]), product, quantity, RESTOCK);
    }
  }

  lemma AdjustKeepsInv(db: Db, product: ProductId, available: nat, threshold: Option<int>)
    requires Inv(db)
    ensures Adjust(db, product, available, threshold).Some? ==>
      Inv(Adjust(db, product, available, threshold).value)
  {
    if product in db.stock {
      AdjustIsSupply(db, product, available, threshold);
      AdjustedKeepsInv(db, product, available, threshold, Adjust(db, product, available, threshold).value);
    }
  }

  lemma AdjustedKeepsInv(db: Db, product: ProductId, available: nat, threshold: Option<int>, next: Db)
    requires Inv(db) && product in db.stock
    requires next == Move(db.(stock := db.stock[product := WithThreshold(db.stock[product], threshold)]),
                          product, available - db.stock[product].available, 0, ADJUST, None)
    ensures Inv(next)
  {
    SupplyOnRow(db, product, threshold, available - db.stock[product].available, ADJUST);
  }

  lemma AdjustIsSupply(db: Db, product: ProductId, available: nat, threshold: Option<int>)
    requires product in db.stock
    ensures Adjust(db, product, available, threshold) ==
      Some(Move(db.(stock := db.stock[product := WithThreshold(db.stock[product], threshold)]),
                product, available - db.stock[product].available, 0, ADJUST, None))
  {
  }

  lemma HandleKeepsInv(db: Db, e: Event, now: int)
    requires Inv(db)
    ensures Handle(db, e, now).Some? ==> Inv(Handle(db, e, now).value)
  {
    match e {
      case OrderCreated(_, _, _, _, _, _) => ReserveKeepsInv(db, RequestOf(e), now + RESERVATION_TTL);
      case PaymentSucceeded(o, _, _, _, _) => CommitKeepsInv(db, o);
      case PaymentFailed(o, _, _, _, _, _, _) => ReleaseKeepsInv(db, o);
      case OrderCancelled(o, _, _, _, _) => ReleaseKeepsInv(db, o);
      case _ =>
    }
  }
}
