/** Consequences of serialisability: completion, the number of winners, and agreement with `Inventory`. */
module ReserveOutcomes {
  import opened Prelude
  import opened Events
  import opened ReserveConcurrency
  import Inventory
  import InventoryLedger
  import InventoryInvariants
  import InventoryTheorems

  // ------------------------------------------------------------ every run can be completed

  /** Statements transaction `i` still has to execute, at most. */
  function Left(tx: Tx, job: Job): nat {
    if tx.outcome.Some? then 0
    else (if tx.started then 1 else 2) + (if tx.next <= |job.lines| then |job.lines| - tx.next else 0)
  }

  function LeftInAll(txs: seq<Tx>, jobs: seq<Job>): nat
    requires |txs| == |jobs|
  {
    if |txs| == 0 then 0
    else LeftInAll(txs[..|txs| - 1], jobs[..|txs| - 1]) + Left(txs[|txs| - 1], jobs[|txs| - 1])
  }

  lemma {:induction false} LeftUpdate(txs: seq<Tx>, jobs: seq<Job>, i: nat, tx: Tx)
    requires |txs| == |jobs| && i < |txs|
    ensures LeftInAll(txs[i := tx], jobs) == LeftInAll(txs, jobs) - Left(txs[i], jobs[i]) + Left(tx, jobs[i])
  {
    var n := |txs| - 1;
    if i < n {
      assert txs[i := tx][..n] == txs[..n][i := tx];
      LeftUpdate(txs[..n], jobs[..n], i, tx);
    } else {
      assert txs[i := tx][..n] == txs[..n];
    }
  }

  lemma StepUsesStatement(w: World, jobs: seq<Job>, i: nat)
    requires |w.txs| == |jobs| && CanStep(w, jobs, i) && w.txs[i].next <= |jobs[i].lines|
    ensures |Step(w, jobs, i).txs| == |jobs|
    ensures Step(w, jobs, i).txs == w.txs[i := Step(w, jobs, i).txs[i]]
    ensures Left(Step(w, jobs, i).txs[i], jobs[i]) < Left(w.txs[i], jobs[i])
  {
  }

  /** No turn is idle: each step uses up a statement of its transaction. */
  lemma StepsAreBounded(shelf: Shelf, jobs: seq<Job>, schedule: seq<nat>, i: nat)
    requires JobsOk(jobs) && CanStep(Run(shelf, jobs, schedule), jobs, i)
    ensures LeftInAll(Run(shelf, jobs, schedule + [i]).txs, jobs) < LeftInAll(Run(shelf, jobs, schedule).txs, jobs)
  {
    var w := Run(shelf, jobs, schedule);
    assert (schedule + [i])[..|schedule|] == schedule;
    assert w.txs[i].next <= |jobs[i].lines| by {
      RunKeepsInv(shelf, jobs, schedule);
      assert Holds(w, jobs, i);
    }
    StepUsesStatement(w, jobs, i);
    LeftUpdate(w.txs, jobs, i, Step(w, jobs, i).txs[i]);
  }

  lemma OneThenRest(schedule: seq<nat>, j: nat, rest: seq<nat>)
    ensures schedule + ([j] + rest) == schedule + [j] + rest
  {
  }

  /** Whatever happened so far, the transactions can all be brought to an end. */
  lemma {:induction false} CanAlwaysComplete(shelf: Shelf, jobs: seq<Job>, schedule: seq<nat>) returns (more: seq<nat>)
    requires JobsOk(jobs)
    ensures Complete(Run(shelf, jobs, schedule + more))
    decreases LeftInAll(Run(shelf, jobs, schedule).txs, jobs)
  {
    if Complete(Run(shelf, jobs, schedule)) {
      more := [];
      assert schedule + more == schedule;
    } else {
      DeadlockFree(shelf, jobs, schedule);
      var j: nat :| CanStep(Run(shelf, jobs, schedule), jobs, j);
      StepsAreBounded(shelf, jobs, schedule, j);
      var rest := CanAlwaysComplete(shelf, jobs, schedule + [j]);
      more := [j] + rest;
      OneThenRest(schedule, j, rest);
    }
  }

  // ------------------------------------------------------------ how many orders win

  /** Orders of `quantity` units each of one product, all different and none seen before. */
  ghost predicate SameDemand(shelf: Shelf, jobs: seq<Job>, p: ProductId, quantity: int) {
    && quantity > 0 && p in shelf.stock && shelf.stock[p].available >= 0
    && (forall i :: 0 <= i < |jobs| ==> jobs[i].lines == [Line(p, quantity)] && jobs[i].order !in shelf.processed)
    && (forall i, j :: 0 <= i < j < |jobs| ==> jobs[i].order != jobs[j].order)
  }

  /** How many of the first `k` transactions to finish have won. */
  ghost function Winners(w: World, k: nat): nat
    requires k <= |w.finished| && forall j :: 0 <= j < |w.finished| ==> w.finished[j] < |w.txs|
  {
    if k == 0 then 0
    else Winners(w, k - 1) + (if w.txs[w.finished[k - 1]].outcome == Some(Won) then 1 else 0)
  }

  /** Units taken by `won` orders of `q` units. */
  function Units(won: nat, q: int): int {
    if won == 0 then 0 else Units(won - 1, q) + q
  }

  lemma {:induction false} UnitsIsProduct(won: nat, q: int)
    ensures Units(won, q) == won * q
  {
    if won > 0 {
      UnitsIsProduct(won - 1, q);
    }
  }

  /** `cap` orders of `q` units fit into `a`, and no more. */
  ghost predicate Fits(a: nat, q: int, cap: nat) {
    q > 0 && Units(cap, q) <= a < Units(cap, q) + q
  }

  lemma QuotientFits(a: nat, q: int)
    requires q > 0
    ensures Fits(a, q, a / q)
  {
    UnitsIsProduct(a / q, q);
    assert a == q * (a / q) + a % q;
  }

  /** With `won` served, one more fits exactly while `won` is below `cap`. */
  lemma {:induction false} OneMoreFits(a: nat, q: int, cap: nat, won: nat)
    requires Fits(a, q, cap) && won <= cap
    ensures a - Units(won, q) >= q <==> won < cap
    decreases cap - won
  {
    if won < cap {
      OneMoreFits(a, q, cap, won + 1);
    }
  }

  lemma AtomicTake(shelf: Shelf, job: Job, p: ProductId, quantity: int)
    requires job.lines == [Line(p, quantity)] && p in shelf.stock && job.order !in shelf.processed
    ensures OutcomeAt(shelf, job) == if shelf.stock[p].available >= quantity then Won else Lost
    ensures Atomic(shelf, job).processed == shelf.processed + {job.order}
    ensures p in Atomic(shelf, job).stock
    ensures Atomic(shelf, job).stock[p].available
         == shelf.stock[p].available - (if shelf.stock[p].available >= quantity then quantity else 0)
  {
    assert job.lines[..0] == [];
    assert Covers(shelf.stock, job.lines) <==> shelf.stock[p].available >= quantity by {
      assert job.lines[0] == Line(p, quantity);
    }
    var row := shelf.stock[p];
    assert Take(shelf.stock, shelf.stock, job.lines)
        == shelf.stock[p := Counters(row.available - quantity, row.reserved + quantity)];
  }

  lemma NextOrder(before: Shelf, job: Job, p: ProductId, quantity: int, a: nat, cap: nat, won: nat)
    requires job.lines == [Line(p, quantity)] && p in before.stock && job.order !in before.processed
    requires Fits(a, quantity, cap) && won <= cap && before.stock[p].available == a - Units(won, quantity)
    ensures OutcomeAt(before, job) == if won < cap then Won else Lost
    ensures p in Atomic(before, job).stock
    ensures Atomic(before, job).stock[p].available == a - Units(if won < cap then won + 1 else won, quantity)
  {
    AtomicTake(before, job, p, quantity);
    OneMoreFits(a, quantity, cap, won);
  }

  lemma {:induction false} ProcessedAfter(shelf: Shelf, jobs: seq<Job>, order: seq<nat>, o: OrderId)
    requires InRange(jobs, order) && o in Serial(shelf, jobs, order).processed && o !in shelf.processed
    ensures exists j :: 0 <= j < |order| && jobs[order[j]].order == o
  {
    var init := order[..|order| - 1];
    var last := order[|order| - 1];
    if jobs[last].order != o {
      ProcessedAfter(shelf, jobs, init, o);
      var j :| 0 <= j < |init| && jobs[init[j]].order == o;
      assert jobs[order[j]].order == o;
    }
  }

  lemma FreshOrder(shelf: Shelf, jobs: seq<Job>, w: World, p: ProductId, quantity: int, k: nat)
    requires SameDemand(shelf, jobs, p, quantity) && |w.txs| == |jobs| && FinishedOk(w, jobs)
    requires 0 < k <= |w.finished| && InRange(jobs, w.finished[..k - 1])
    ensures jobs[w.finished[k - 1]].order !in Serial(shelf, jobs, w.finished[..k - 1]).processed
  {
    var order := w.finished[..k - 1];
    var o := jobs[w.finished[k - 1]].order;
    if o in Serial(shelf, jobs, order).processed {
      ProcessedAfter(shelf, jobs, order, o);
    }
  }

  /** After the first `k` commits: everyone so far has won until the stock ran out. */
  lemma {:induction false} WinnersAfter(shelf: Shelf, jobs: seq<Job>, w: World, p: ProductId, quantity: int, cap: nat, k: nat)
    requires SameDemand(shelf, jobs, p, quantity) && Fits(shelf.stock[p].available, quantity, cap)
    requires |w.txs| == |jobs| && FinishedOk(w, jobs) && SerialSoFar(w, jobs, shelf) && k <= |w.finished|
    ensures InRange(jobs, w.finished[..k])
    ensures Winners(w, k) == Min(k, cap)
    ensures p in Serial(shelf, jobs, w.finished[..k]).stock
    ensures Serial(shelf, jobs, w.finished[..k]).stock[p].available
         == shelf.stock[p].available - Units(Winners(w, k), quantity)
  {
    if k == 0 {
      assert w.finished[..0] == [];
    } else {
      WinnersAfter(shelf, jobs, w, p, quantity, cap, k - 1);
      var order := w.finished[..k - 1];
      var i := w.finished[k - 1];
      var at := Serial(shelf, jobs, order);
      var won := Winners(w, k - 1);
      PrefixSnoc(w.finished, k);
      SerialSnoc(shelf, jobs, order, i);
      assert Serial(shelf, jobs, w.finished[..k]) == Atomic(at, jobs[i]);
      FreshOrder(shelf, jobs, w, p, quantity, k);
      NextOrder(at, jobs[i], p, quantity, shelf.stock[p].available, cap, won);
      assert VerdictIsSerial(w, jobs, shelf, k - 1);
      assert Winners(w, k) == if won < cap then won + 1 else won;
    }
  }

  lemma {:induction false} IndicesUpTo(n: nat) returns (all: set<nat>)
    ensures |all| == n && forall i: nat :: i in all <==> i < n
  {
    if n == 0 {
      all := {};
    } else {
      var rest := IndicesUpTo(n - 1);
      all := rest + {n - 1};
    }
  }

  lemma {:induction false} DistinctLength(order: seq<nat>) returns (elements: set<nat>)
    requires forall j, k :: 0 <= j < k < |order| ==> order[j] != order[k]
    ensures |elements| == |order| && forall i :: i in elements <==> i in order
  {
    if |order| == 0 {
      elements := {};
    } else {
      var last := order[|order| - 1];
      var rest := DistinctLength(order[..|order| - 1]);
      assert order == order[..|order| - 1] + [last];
      elements := rest + {last};
    }
  }

  lemma AllFinish(shelf: Shelf, jobs: seq<Job>, schedule: seq<nat>, w: World)
    requires JobsOk(jobs) && w == Run(shelf, jobs, schedule) && Complete(w)
    ensures FinishedOk(w, jobs) && SerialSoFar(w, jobs, shelf)
    ensures |w.finished| == |jobs| && forall i :: 0 <= i < |jobs| ==> i in w.finished
  {
    RunKeepsInv(shelf, jobs, schedule);
    var all := IndicesUpTo(|jobs|);
    var done := DistinctLength(w.finished);
    assert all == done;
  }

  lemma StockIsWon(shelf: Shelf, jobs: seq<Job>, w: World, p: ProductId, quantity: int)
    requires SameDemand(shelf, jobs, p, quantity) && |w.txs| == |jobs| == |w.finished|
    requires FinishedOk(w, jobs) && SerialSoFar(w, jobs, shelf)
    ensures Winners(w, |w.finished|) == Min(|jobs|, shelf.stock[p].available / quantity)
    ensures p in w.shelf.stock
    ensures w.shelf.stock[p].available == shelf.stock[p].available - Winners(w, |w.finished|) * quantity
  {
    var n := |w.finished|;
    QuotientFits(shelf.stock[p].available, quantity);
    UnitsIsProduct(Winners(w, n), quantity);
    WinnersAfter(shelf, jobs, w, p, quantity, shelf.stock[p].available / quantity, n);
    FullPrefix(w.finished);
  }

  /** n orders of q units against A available: exactly min(n, A div q) of them win, in every interleaving. */
  lemma ExactlyTheStockIsWon(shelf: Shelf, jobs: seq<Job>, schedule: seq<nat>, p: ProductId, quantity: int)
    requires SameDemand(shelf, jobs, p, quantity) && Complete(Run(shelf, jobs, schedule))
    ensures var w := Run(shelf, jobs, schedule);
      var won := Min(|jobs|, shelf.stock[p].available / quantity);
      && |set i | 0 <= i < |w.txs| && w.txs[i].outcome == Some(Won)| == won
      && p in w.shelf.stock
      && w.shelf.stock[p].available == shelf.stock[p].available - won * quantity
  {
    var w := Run(shelf, jobs, schedule);
    AllFinish(shelf, jobs, schedule, w);
    StockIsWon(shelf, jobs, w, p, quantity);
    AllWinners(w, jobs);
  }

  ghost function WinnerSet(w: World, k: nat): set<nat>
    requires k <= |w.finished| && forall j :: 0 <= j < |w.finished| ==> w.finished[j] < |w.txs|
  {
    set i | i in w.finished[..k] && w.txs[i].outcome == Some(Won)
  }

  lemma WinnerSetSnoc(w: World, k: nat)
    requires 0 < k <= |w.finished| && forall j :: 0 <= j < |w.finished| ==> w.finished[j] < |w.txs|
    ensures WinnerSet(w, k) == WinnerSet(w, k - 1)
      + (if w.txs[w.finished[k - 1]].outcome == Some(Won) then {w.finished[k - 1]} else {})
  {
    PrefixSnoc(w.finished, k);
  }

  lemma {:induction false} WinnersCounted(w: World, k: nat)
    requires k <= |w.finished| && forall j :: 0 <= j < |w.finished| ==> w.finished[j] < |w.txs|
    requires forall j, l :: 0 <= j < l < |w.finished| ==> w.finished[j] != w.finished[l]
    ensures |WinnerSet(w, k)| == Winners(w, k)
  {
    if k == 0 {
      assert WinnerSet(w, 0) == {};
    } else {
      WinnersCounted(w, k - 1);
      WinnerSetSnoc(w, k);
      assert w.finished[k - 1] !in w.finished[..k - 1];
    }
  }

  lemma AllWinners(w: World, jobs: seq<Job>)
    requires |w.txs| == |jobs| && FinishedOk(w, jobs) && forall i :: 0 <= i < |jobs| ==> i in w.finished
    ensures |set i | 0 <= i < |w.txs| && w.txs[i].outcome == Some(Won)| == Winners(w, |w.finished|)
  {
    FullPrefix(w.finished);
    WinnersCounted(w, |w.finished|);
    assert (set i | 0 <= i < |w.txs| && w.txs[i].outcome == Some(Won)) == WinnerSet(w, |w.finished|);
  }

  // ------------------------------------------------------------ the same as `Inventory.Reserve`

  function CountersOf(stock: map<ProductId, Inventory.StockItem>): Stock {
    map p | p in stock :: Counters(stock[p].available, stock[p].reserved)
  }

  function JobOf(q: Inventory.ReserveRequest): Job {
    Job(q.order, Inventory.InLockOrder(Inventory.Wanted(q.items)))
  }

  /** The lock order is strictly ascending in product id, so `JobsOk` is no restriction. */
  lemma JobsAreAscending(q: Inventory.ReserveRequest)
    requires Inventory.AllPositive(q.items)
    ensures Ascending(JobOf(q).lines)
  {
    var wanted := Inventory.Wanted(q.items);
    var key := (line: Line) => line.product;
    InventoryLedger.WantedShape(q.items);
    InventoryLedger.SortShape(wanted, key);
    SortByIsSort(wanted, key);
    var lines := JobOf(q).lines;
    forall j, k | 0 <= j < k < |lines|
      ensures lines[j].product < lines[k].product
    {
      assert key(lines[j]) <= key(lines[k]);
    }
  }

  lemma {:induction false} TakeAdds(stock: Stock, lines: seq<Line>, p: ProductId)
    requires InventoryLedger.DistinctProducts(lines) && p in stock
    requires forall k :: 0 <= k < |lines| ==> lines[k].product in stock
    ensures p in Take(stock, stock, lines)
    ensures Take(stock, stock, lines)[p].available == stock[p].available - InventoryLedger.Qty(lines, p)
    ensures Take(stock, stock, lines)[p].reserved == stock[p].reserved + InventoryLedger.Qty(lines, p)
  {
    if |lines| > 0 {
      var init := lines[..|lines| - 1];
      TakeAdds(stock, init, p);
      if lines[|lines| - 1].product == p {
        InventoryLedger.QtyAbsent(init, p);
      }
    }
  }

  /** The atomic specification gives the service's own verdict. */
  lemma AtomicVerdict(db: Inventory.Db, q: Inventory.ReserveRequest, processed: set<OrderId>)
    requires |q.items| > 0 && Inventory.AllPositive(q.items)
    requires !Inventory.HasReservation(db, q.order) && q.order !in processed
    ensures OutcomeAt(Shelf(CountersOf(db.stock), processed), JobOf(q)) == Won
       <==> Inventory.Decide(db, q) == Inventory.Granted
  {
    var wanted := Inventory.Wanted(q.items);
    InventoryInvariants.ShortagesEmpty(db.stock, wanted);
    SortByIsSort(wanted, (line: Line) => line.product);
    SameLines(wanted, JobOf(q).lines, db.stock);
  }

  /** The atomic specification is the service's own transaction: the same counters afterwards. */
  lemma AtomicIsReserve(db: Inventory.Db, q: Inventory.ReserveRequest, processed: set<OrderId>, expiresAt: int)
    requires |q.items| > 0 && Inventory.AllPositive(q.items)
    requires !Inventory.HasReservation(db, q.order) && q.order !in processed
    ensures Atomic(Shelf(CountersOf(db.stock), processed), JobOf(q)).stock
         == CountersOf(Inventory.Reserve(db, q, expiresAt).stock)
  {
    AtomicVerdict(db, q, processed);
    if Inventory.Decide(db, q) == Inventory.Granted {
      GrantedTakes(db, q, expiresAt);
    }
  }

  /** `after` is `before` with the lines moved from available to reserved. */
  ghost predicate SetAside(before: map<ProductId, Inventory.StockItem>, after: map<ProductId, Inventory.StockItem>, lines: seq<Line>) {
    && after.Keys == before.Keys
    && forall p :: p in before ==>
      && after[p].available == before[p].available - InventoryLedger.Qty(lines, p)
      && after[p].reserved == before[p].reserved + InventoryLedger.Qty(lines, p)
  }

  lemma ReserveSetsAside(before: map<ProductId, Inventory.StockItem>, after: map<ProductId, Inventory.StockItem>, lines: seq<Line>)
    requires InventoryLedger.Moved(before, after, lines, RESERVE)
    ensures SetAside(before, after, lines)
  {
  }

  /** Taking the lines from the counters is what the service's movements do to the rows. */
  lemma TakenIsSetAside(before: map<ProductId, Inventory.StockItem>, after: map<ProductId, Inventory.StockItem>, lines: seq<Line>)
    requires SetAside(before, after, lines)
    requires InventoryLedger.DistinctProducts(lines) && InventoryLedger.InStock(before, lines)
    ensures forall k :: 0 <= k < |lines| ==> lines[k].product in CountersOf(before)
    ensures Take(CountersOf(before), CountersOf(before), lines) == CountersOf(after)
  {
    var counters := CountersOf(before);
    TakeIsLocal(counters, counters, lines);
    forall p | p in before
      ensures Take(counters, counters, lines)[p] == CountersOf(after)[p]
    {
      TakeAdds(counters, lines, p);
    }
  }

  lemma GrantedTakes(db: Inventory.Db, q: Inventory.ReserveRequest, expiresAt: int)
    requires Inventory.Decide(db, q) == Inventory.Granted
    ensures forall k :: 0 <= k < |JobOf(q).lines| ==> JobOf(q).lines[k].product in CountersOf(db.stock)
    ensures Take(CountersOf(db.stock), CountersOf(db.stock), JobOf(q).lines)
         == CountersOf(Inventory.Reserve(db, q, expiresAt).stock)
  {
    InventoryInvariants.GrantedCovers(db, q);
    InventoryTheorems.GrantedRow(db, q, expiresAt);
    ReserveSetsAside(db.stock, Inventory.Reserve(db, q, expiresAt).stock, JobOf(q).lines);
    TakenIsSetAside(db.stock, Inventory.Reserve(db, q, expiresAt).stock, JobOf(q).lines);
  }

  lemma SameLines(wanted: seq<Line>, lines: seq<Line>, stock: map<ProductId, Inventory.StockItem>)
    requires multiset(wanted) == multiset(lines)
    ensures Covers(CountersOf(stock), lines) <==> forall k :: 0 <= k < |wanted| ==> !Inventory.Short(stock, wanted[k])
  {
    forall k | 0 <= k < |lines|
      ensures lines[k] in wanted
    {
      assert lines[k] in multiset(lines);
    }
    forall k | 0 <= k < |wanted|
      ensures wanted[k] in lines
    {
      assert wanted[k] in multiset(wanted);
    }
  }
}
