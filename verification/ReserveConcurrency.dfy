/** Concurrent `reserve` transactions, at the grain of single row locks.

    A transaction reads each stock row when it gets that row's lock, decides on the values it read,
    and writes back absolute values computed from them. Nothing below assumes the values are still
    current when they are written: that is what the locks have to guarantee. */
module ReserveConcurrency {
  import opened Prelude
  import opened Events
  import Inventory
  import InventoryLedger
  import InventoryInvariants

  datatype Counters = Counters(available: int, reserved: int)

  type Stock = map<ProductId, Counters>

  /** One delivery of an order.created event: what it wants, in lock order. */
  datatype Job = Job(order: OrderId, lines: seq<Line>)

  datatype Outcome = Won | Lost | Duplicate

  /** The committed state the transactions share: counters, and the events already processed. */
  datatype Shelf = Shelf(stock: Stock, processed: set<OrderId>)

  /** A transaction in flight: how many lines it has locked, and what it read under those locks. */
  datatype Tx = Tx(started: bool, next: nat, seen: Stock, outcome: Option<Outcome>)

  datatype World = World(shelf: Shelf, locks: map<ProductId, nat>, txs: seq<Tx>, finished: seq<nat>)

  // ------------------------------------------------------------ the atomic specification

  predicate Covers(stock: Stock, lines: seq<Line>) {
    forall k :: 0 <= k < |lines| ==>
      lines[k].product in stock && stock[lines[k].product].available >= lines[k].quantity
  }

  function OutcomeAt(shelf: Shelf, job: Job): Outcome {
    if job.order in shelf.processed then Duplicate
    else if Covers(shelf.stock, job.lines) then Won
    else Lost
  }

  /** Move every line's units from available to reserved, starting from the values in `read`. */
  function Take(stock: Stock, read: Stock, lines: seq<Line>): Stock
    requires forall k :: 0 <= k < |lines| ==> lines[k].product in read
  {
    if |lines| == 0 then stock
    else
      var line := lines[|lines| - 1];
      var row := read[line.product];
      Take(stock, read, lines[..|lines| - 1])
        [line.product := Counters(row.available - line.quantity, row.reserved + line.quantity)]
  }

  /** One transaction run on its own. */
  function Atomic(shelf: Shelf, job: Job): Shelf {
    match OutcomeAt(shelf, job)
    case Duplicate => shelf
    case Lost => shelf.(processed := shelf.processed + {job.order})
    case Won => Shelf(Take(shelf.stock, shelf.stock, job.lines), shelf.processed + {job.order})
  }

  predicate InRange(jobs: seq<Job>, order: seq<nat>) {
    forall k :: 0 <= k < |order| ==> order[k] < |jobs|
  }

  /** The jobs run one after another in the given order. */
  function Serial(shelf: Shelf, jobs: seq<Job>, order: seq<nat>): Shelf
    requires InRange(jobs, order)
  {
    if |order| == 0 then shelf
    else Atomic(Serial(shelf, jobs, order[..|order| - 1]), jobs[order[|order| - 1]])
  }

  // ------------------------------------------------------------ the interleaved steps

  function Start(shelf: Shelf, jobs: seq<Job>): World {
    World(shelf, map[], seq(|jobs|, i => Tx(false, 0, map[], None)), [])
  }

  /** Transaction `i` is unfinished and not waiting for a row somebody else has locked. */
  predicate CanStep(w: World, jobs: seq<Job>, i: nat)
    requires |w.txs| == |jobs|
  {
    && i < |jobs|
    && w.txs[i].outcome == None
    && (w.txs[i].started && w.txs[i].next < |jobs[i].lines| && jobs[i].lines[w.txs[i].next].product in w.shelf.stock
        ==> jobs[i].lines[w.txs[i].next].product !in w.locks)
  }

  function Finish(w: World, i: nat, shelf: Shelf, outcome: Outcome): World
    requires i < |w.txs|
  {
    World(shelf, map p | p in w.locks && w.locks[p] != i :: w.locks[p],
          w.txs[i := w.txs[i].(outcome := Some(outcome))], w.finished + [i])
  }

  /** All rows locked: decide on the values read, write, and let the locks go. */
  function Decide(w: World, jobs: seq<Job>, i: nat): World
    requires |w.txs| == |jobs| && i < |jobs|
  {
    var job := jobs[i];
    var seen := w.txs[i].seen;
    if job.order in w.shelf.processed then
      Finish(w, i, w.shelf, Duplicate)
    else if Covers(seen, job.lines) then
      Finish(w, i, Shelf(Take(w.shelf.stock, seen, job.lines), w.shelf.processed + {job.order}), Won)
    else
      Finish(w, i, w.shelf.(processed := w.shelf.processed + {job.order}), Lost)
  }

  /** One statement of transaction `i`: begin, lock-and-read the next row, or decide and commit. */
  function Step(w: World, jobs: seq<Job>, i: nat): World
    requires |w.txs| == |jobs| && CanStep(w, jobs, i)
  {
    var tx := w.txs[i];
    if !tx.started then
      if jobs[i].order in w.shelf.processed then Finish(w, i, w.shelf, Duplicate)
      else w.(txs := w.txs[i := tx.(started := true)])
    else if tx.next == |jobs[i].lines| then Decide(w, jobs, i)
    else if tx.next > |jobs[i].lines| then w
    else
      var p := jobs[i].lines[tx.next].product;
      if p in w.shelf.stock then
        w.(locks := w.locks[p := i],
           txs := w.txs[i := tx.(next := tx.next + 1, seen := tx.seen[p := w.shelf.stock[p]])])
      else
        w.(txs := w.txs[i := tx.(next := tx.next + 1)])
  }

  /** A schedule names whose turn it is; a turn of a blocked or finished transaction passes. */
  function Run(shelf: Shelf, jobs: seq<Job>, schedule: seq<nat>): (w: World)
    ensures |w.txs| == |jobs|
  {
    if |schedule| == 0 then Start(shelf, jobs)
    else
      var before := Run(shelf, jobs, schedule[..|schedule| - 1]);
      var i := schedule[|schedule| - 1];
      if CanStep(before, jobs, i) then
        var next := Step(before, jobs, i);
        assert |next.txs| == |jobs|;
        next
      else before
  }

  // ------------------------------------------------------------ the invariant

  /** `order_by(product_id)` over one line per product. */
  ghost predicate Ascending(lines: seq<Line>) {
    forall j, k :: 0 <= j < k < |lines| ==> lines[j].product < lines[k].product
  }

  ghost predicate JobsOk(jobs: seq<Job>) {
    forall i :: 0 <= i < |jobs| ==> Ascending(jobs[i].lines)
  }

  /** Every row an unfinished transaction has passed is locked by it and still as it was read. */
  ghost predicate Holds(w: World, jobs: seq<Job>, i: nat)
    requires |w.txs| == |jobs| && i < |jobs|
  {
    && w.txs[i].next <= |jobs[i].lines|
    && (!w.txs[i].started ==> w.txs[i].next == 0)
    && forall k :: 0 <= k < w.txs[i].next ==>
      var p := jobs[i].lines[k].product;
      if p in w.shelf.stock
      then p in w.locks && w.locks[p] == i && p in w.txs[i].seen && w.txs[i].seen[p] == w.shelf.stock[p]
      else p !in w.txs[i].seen
  }

  ghost predicate LocksOk(w: World, jobs: seq<Job>)
    requires |w.txs| == |jobs|
  {
    forall p :: p in w.locks ==>
      && w.locks[p] < |jobs|
      && p in w.shelf.stock
      && w.txs[w.locks[p]].outcome == None
      && w.txs[w.locks[p]].started
      && w.txs[w.locks[p]].next <= |jobs[w.locks[p]].lines|
      && exists k :: 0 <= k < w.txs[w.locks[p]].next && jobs[w.locks[p]].lines[k].product == p
  }

  /** Only rows of a transaction's own job have been read by it. */
  ghost predicate SeenOk(w: World) {
    forall i, p :: 0 <= i < |w.txs| && p in w.txs[i].seen ==> p in w.shelf.stock
  }

  /** The finished transactions are a duplicate-free list, in commit order. */
  ghost predicate FinishedOk(w: World, jobs: seq<Job>)
    requires |w.txs| == |jobs|
  {
    && InRange(jobs, w.finished)
    && (forall j, k :: 0 <= j < k < |w.finished| ==> w.finished[j] != w.finished[k])
    && (forall i :: 0 <= i < |jobs| ==> (w.txs[i].outcome.Some? <==> i in w.finished))
  }

  /** The `k`th transaction to finish got the verdict it would get after the `k` before it. */
  ghost predicate VerdictIsSerial(w: World, jobs: seq<Job>, shelf: Shelf, k: nat)
    requires |w.txs| == |jobs| && InRange(jobs, w.finished) && k < |w.finished|
  {
    w.txs[w.finished[k]].outcome
    == Some(OutcomeAt(Serial(shelf, jobs, w.finished[..k]), jobs[w.finished[k]]))
  }

  /** State and outcomes are those of running the finished transactions one by one. */
  ghost predicate SerialSoFar(w: World, jobs: seq<Job>, shelf: Shelf)
    requires |w.txs| == |jobs| && InRange(jobs, w.finished)
  {
    && w.shelf == Serial(shelf, jobs, w.finished)
    && forall k: nat :: k < |w.finished| ==> VerdictIsSerial(w, jobs, shelf, k)
  }

  ghost predicate Inv(w: World, jobs: seq<Job>, shelf: Shelf) {
    && |w.txs| == |jobs|
    && (forall i :: 0 <= i < |jobs| && w.txs[i].outcome == None ==> Holds(w, jobs, i))
    && LocksOk(w, jobs)
    && SeenOk(w)
    && FinishedOk(w, jobs)
    && SerialSoFar(w, jobs, shelf)
  }

  lemma {:induction false} TakeIsLocal(stock: Stock, read: Stock, lines: seq<Line>)
    requires forall k :: 0 <= k < |lines| ==> lines[k].product in read && lines[k].product in stock
    ensures Take(stock, read, lines).Keys == stock.Keys
    ensures forall p :: p in stock && !InventoryLedger.Mentions(lines, p) ==>
      Take(stock, read, lines)[p] == stock[p]
  {
    if |lines| > 0 {
      var init := lines[..|lines| - 1];
      TakeIsLocal(stock, read, init);
      forall p | InventoryLedger.Mentions(init, p)
        ensures InventoryLedger.Mentions(lines, p)
      {
        var k :| 0 <= k < |init| && init[k].product == p;
        assert lines[k].product == p;
      }
      assert lines[|lines| - 1].product == lines[|lines| - 1].product;
    }
  }

  /** Reads that are still current give the atomic write. */
  lemma {:induction false} TakeCurrent(stock: Stock, read: Stock, lines: seq<Line>)
    requires forall k :: 0 <= k < |lines| ==>
      lines[k].product in read && lines[k].product in stock && read[lines[k].product] == stock[lines[k].product]
    ensures Take(stock, read, lines) == Take(stock, stock, lines)
  {
    if |lines| > 0 {
      TakeCurrent(stock, read, lines[..|lines| - 1]);
    }
  }

  lemma SerialSnoc(shelf: Shelf, jobs: seq<Job>, order: seq<nat>, i: nat)
    requires InRange(jobs, order) && i < |jobs|
    ensures InRange(jobs, order + [i])
    ensures Serial(shelf, jobs, order + [i]) == Atomic(Serial(shelf, jobs, order), jobs[i])
  {
    assert (order + [i])[..|order|] == order;
  }

  lemma FinishIsListed(w: World, jobs: seq<Job>, i: nat, next: Shelf, outcome: Outcome)
    requires |w.txs| == |jobs| && FinishedOk(w, jobs) && i < |jobs| && w.txs[i].outcome == None
    ensures FinishedOk(Finish(w, i, next, outcome), jobs)
  {
    var after := Finish(w, i, next, outcome);
    assert i !in w.finished;
    assert after.finished[|w.finished|] == i;
    forall j | 0 <= j < |jobs|
      ensures after.txs[j].outcome.Some? <==> j in after.finished
    {
      if j != i {
        assert after.txs[j] == w.txs[j];
        assert j in after.finished <==> j in w.finished;
      }
    }
  }

  /** Finishing `i` with the atomic effect and outcome extends the serial history by one. */
  lemma FinishIsSerial(w: World, jobs: seq<Job>, shelf: Shelf, i: nat, next: Shelf, outcome: Outcome)
    requires |w.txs| == |jobs| && FinishedOk(w, jobs) && SerialSoFar(w, jobs, shelf)
    requires i < |jobs| && i !in w.finished && FinishedOk(Finish(w, i, next, outcome), jobs)
    requires next == Atomic(w.shelf, jobs[i]) && outcome == OutcomeAt(w.shelf, jobs[i])
    ensures SerialSoFar(Finish(w, i, next, outcome), jobs, shelf)
  {
    var after := Finish(w, i, next, outcome);
    SerialSnoc(shelf, jobs, w.finished, i);
    forall k: nat | k < |after.finished|
      ensures VerdictIsSerial(after, jobs, shelf, k)
    {
      if k < |w.finished| {
        assert VerdictIsSerial(w, jobs, shelf, k);
        assert after.finished[..k] == w.finished[..k];
        assert after.finished[k] == w.finished[k];
        assert w.finished[k] in w.finished;
      } else {
        assert after.finished[..k] == w.finished;
      }
    }
  }

  /** Rows nobody but `i` locked are the only ones a finishing `i` may change. */
  ghost predicate ChangesOwnRows(w: World, i: nat, next: Shelf) {
    && next.stock.Keys == w.shelf.stock.Keys
    && forall p :: p in w.shelf.stock && p in w.locks && w.locks[p] != i ==> next.stock[p] == w.shelf.stock[p]
  }

  lemma FinishKeepsInv(w: World, jobs: seq<Job>, shelf: Shelf, i: nat, next: Shelf, outcome: Outcome)
    requires Inv(w, jobs, shelf) && i < |jobs| && w.txs[i].outcome == None
    requires next == Atomic(w.shelf, jobs[i]) && outcome == OutcomeAt(w.shelf, jobs[i])
    requires ChangesOwnRows(w, i, next)
    ensures Inv(Finish(w, i, next, outcome), jobs, shelf)
  {
    var after := Finish(w, i, next, outcome);
    FinishIsListed(w, jobs, i, next, outcome);
    FinishIsSerial(w, jobs, shelf, i, next, outcome);
    forall j | 0 <= j < |jobs| && after.txs[j].outcome == None
      ensures Holds(after, jobs, j)
    {
      assert j != i && Holds(w, jobs, j);
    }
    forall p | p in after.locks
      ensures after.txs[after.locks[p]] == w.txs[w.locks[p]]
    {
    }
  }

  lemma DecideKeepsInv(w: World, jobs: seq<Job>, shelf: Shelf, i: nat)
    requires Inv(w, jobs, shelf) && JobsOk(jobs) && i < |jobs|
    requires w.txs[i].outcome == None && w.txs[i].next == |jobs[i].lines|
    ensures Inv(Decide(w, jobs, i), jobs, shelf)
  {
    var lines := jobs[i].lines;
    var seen := w.txs[i].seen;
    assert Holds(w, jobs, i);
    assert Covers(seen, lines) <==> Covers(w.shelf.stock, lines) by {
      forall k | 0 <= k < |lines|
        ensures lines[k].product in seen <==> lines[k].product in w.shelf.stock
        ensures lines[k].product in seen ==> seen[lines[k].product] == w.shelf.stock[lines[k].product]
      {
      }
    }
    if jobs[i].order !in w.shelf.processed && Covers(seen, lines) {
      TakeCurrent(w.shelf.stock, seen, lines);
      TakeIsLocal(w.shelf.stock, w.shelf.stock, lines);
    }
    var next := Atomic(w.shelf, jobs[i]);
    forall p | p in w.shelf.stock && p in w.locks && w.locks[p] != i
      ensures next.stock[p] == w.shelf.stock[p]
    {
      assert !InventoryLedger.Mentions(lines, p);
    }
    FinishKeepsInv(w, jobs, shelf, i, next, OutcomeAt(w.shelf, jobs[i]));
  }

  lemma LockKeepsHolds(w: World, jobs: seq<Job>, i: nat, j: nat)
    requires |w.txs| == |jobs| && JobsOk(jobs) && CanStep(w, jobs, i) && j < |jobs|
    requires w.txs[i].started && w.txs[i].next < |jobs[i].lines|
    requires w.txs[j].outcome == None && Holds(w, jobs, j) && Holds(w, jobs, i) && SeenOk(w)
    ensures Holds(Step(w, jobs, i), jobs, j)
  {
    var after := Step(w, jobs, i);
    var next := w.txs[i].next;
    var p := jobs[i].lines[next].product;
    if j == i {
      assert forall k :: 0 <= k < next ==> jobs[i].lines[k].product != p;
    } else {
      assert after.txs[j] == w.txs[j];
    }
  }

  lemma LockKeepsLocks(w: World, jobs: seq<Job>, i: nat)
    requires |w.txs| == |jobs| && CanStep(w, jobs, i) && LocksOk(w, jobs)
    requires w.txs[i].started && w.txs[i].next < |jobs[i].lines|
    ensures LocksOk(Step(w, jobs, i), jobs)
  {
    var after := Step(w, jobs, i);
    var next := w.txs[i].next;
    forall q | q in after.locks
      ensures after.locks[q] < |jobs|
      ensures exists k :: 0 <= k < after.txs[after.locks[q]].next && jobs[after.locks[q]].lines[k].product == q
    {
      if q in w.locks {
        var k :| 0 <= k < w.txs[w.locks[q]].next && jobs[w.locks[q]].lines[k].product == q;
        assert k < after.txs[after.locks[q]].next;
      } else {
        assert jobs[i].lines[next].product == q;
      }
    }
  }

  /** A step that finishes nothing leaves the history as it was. */
  lemma SameHistory(w: World, after: World, jobs: seq<Job>, shelf: Shelf)
    requires |w.txs| == |after.txs| == |jobs| && after.finished == w.finished && after.shelf == w.shelf
    requires forall j :: 0 <= j < |jobs| ==> after.txs[j].outcome == w.txs[j].outcome
    requires FinishedOk(w, jobs) && SerialSoFar(w, jobs, shelf)
    ensures FinishedOk(after, jobs) && SerialSoFar(after, jobs, shelf)
  {
    forall k: nat | k < |after.finished|
      ensures VerdictIsSerial(after, jobs, shelf, k)
    {
      assert VerdictIsSerial(w, jobs, shelf, k);
    }
  }

  lemma LockKeepsInv(w: World, jobs: seq<Job>, shelf: Shelf, i: nat)
    requires Inv(w, jobs, shelf) && JobsOk(jobs) && CanStep(w, jobs, i)
    requires w.txs[i].started && w.txs[i].next < |jobs[i].lines|
    ensures Inv(Step(w, jobs, i), jobs, shelf)
  {
    var after := Step(w, jobs, i);
    assert Holds(w, jobs, i);
    forall j | 0 <= j < |jobs| && after.txs[j].outcome == None
      ensures Holds(after, jobs, j)
    {
      assert w.txs[j].outcome == None;
      LockKeepsHolds(w, jobs, i, j);
    }
    LockKeepsLocks(w, jobs, i);
    SameHistory(w, after, jobs, shelf);
  }

  lemma BeginKeepsInv(w: World, jobs: seq<Job>, shelf: Shelf, i: nat)
    requires Inv(w, jobs, shelf) && CanStep(w, jobs, i) && !w.txs[i].started
    ensures Inv(Step(w, jobs, i), jobs, shelf)
  {
    if jobs[i].order in w.shelf.processed {
      FinishKeepsInv(w, jobs, shelf, i, w.shelf, Duplicate);
    } else {
      var after := Step(w, jobs, i);
      SameHistory(w, after, jobs, shelf);
      forall j | 0 <= j < |jobs| && after.txs[j].outcome == None
        ensures Holds(after, jobs, j)
      {
        assert Holds(w, jobs, j);
      }
    }
  }

  lemma StartInv(shelf: Shelf, jobs: seq<Job>)
    ensures Inv(Start(shelf, jobs), jobs, shelf)
  {
  }

  lemma {:induction false} RunKeepsInv(shelf: Shelf, jobs: seq<Job>, schedule: seq<nat>)
    requires JobsOk(jobs)
    ensures Inv(Run(shelf, jobs, schedule), jobs, shelf)
  {
    if |schedule| == 0 {
      StartInv(shelf, jobs);
    } else {
      var before := Run(shelf, jobs, schedule[..|schedule| - 1]);
      var i := schedule[|schedule| - 1];
      RunKeepsInv(shelf, jobs, schedule[..|schedule| - 1]);
      if CanStep(before, jobs, i) {
        assert Holds(before, jobs, i);
        if !before.txs[i].started {
          BeginKeepsInv(before, jobs, shelf, i);
        } else if before.txs[i].next == |jobs[i].lines| {
          DecideKeepsInv(before, jobs, shelf, i);
        } else {
          LockKeepsInv(before, jobs, shelf, i);
        }
      }
    }
  }

  // ------------------------------------------------------------ serialisability

  ghost predicate Complete(w: World) {
    forall i :: 0 <= i < |w.txs| ==> w.txs[i].outcome.Some?
  }

  /** `order` lists every job exactly once. */
  ghost predicate Permutation(jobs: seq<Job>, order: seq<nat>) {
    && InRange(jobs, order)
    && (forall i :: 0 <= i < |jobs| ==> i in order)
    && (forall j, k :: 0 <= j < k < |order| ==> order[j] != order[k])
  }

  /** Every complete interleaving is some serial order: same final stock, same verdict for everyone. */
  lemma Serialisable(shelf: Shelf, jobs: seq<Job>, schedule: seq<nat>)
    requires JobsOk(jobs) && Complete(Run(shelf, jobs, schedule))
    ensures var w := Run(shelf, jobs, schedule);
      && Permutation(jobs, w.finished)
      && w.shelf == Serial(shelf, jobs, w.finished)
      && forall k: nat :: k < |w.finished| ==> VerdictIsSerial(w, jobs, shelf, k)
  {
    RunKeepsInv(shelf, jobs, schedule);
  }

  // ------------------------------------------------------------ deadlock freedom

  /** Whoever is waited for waits, if at all, for a later row; so the chain of waiting ends. */
  lemma {:induction false} FollowTheWait(w: World, jobs: seq<Job>, shelf: Shelf, i: nat, bound: nat) returns (j: nat)
    requires Inv(w, jobs, shelf) && JobsOk(jobs) && i < |jobs| && w.txs[i].outcome == None
    requires forall a, k :: 0 <= a < |jobs| && 0 <= k < |jobs[a].lines| ==> jobs[a].lines[k].product < bound
    ensures CanStep(w, jobs, j)
    decreases if CanStep(w, jobs, i) then 0 else 1 + bound - NextProduct(w, jobs, i)
  {
    if CanStep(w, jobs, i) {
      j := i;
    } else {
      var p := jobs[i].lines[w.txs[i].next].product;
      var holder := w.locks[p];
      var k :| 0 <= k < w.txs[holder].next && jobs[holder].lines[k].product == p;
      if CanStep(w, jobs, holder) {
        j := holder;
      } else {
        assert jobs[holder].lines[k].product < jobs[holder].lines[w.txs[holder].next].product;
        j := FollowTheWait(w, jobs, shelf, holder, bound);
      }
    }
  }

  function NextProduct(w: World, jobs: seq<Job>, i: nat): nat
    requires |w.txs| == |jobs| && i < |jobs|
  {
    if w.txs[i].next < |jobs[i].lines| then jobs[i].lines[w.txs[i].next].product else 0
  }

  function LineBound(lines: seq<Line>): (b: nat)
    ensures forall k :: 0 <= k < |lines| ==> lines[k].product < b
  {
    if |lines| == 0 then 0
    else
      var b := LineBound(lines[..|lines| - 1]);
      if lines[|lines| - 1].product < b then b else lines[|lines| - 1].product + 1
  }

  function ProductBound(jobs: seq<Job>): (b: nat)
    ensures forall i, k :: 0 <= i < |jobs| && 0 <= k < |jobs[i].lines| ==> jobs[i].lines[k].product < b
  {
    if |jobs| == 0 then 0
    else
      var b := ProductBound(jobs[..|jobs| - 1]);
      var l := LineBound(jobs[|jobs| - 1].lines);
      if l < b then b else l
  }

  /** In every reachable state with an unfinished transaction, some unfinished transaction can step. */
  lemma DeadlockFree(shelf: Shelf, jobs: seq<Job>, schedule: seq<nat>)
    requires JobsOk(jobs) && !Complete(Run(shelf, jobs, schedule))
    ensures exists j :: CanStep(Run(shelf, jobs, schedule), jobs, j)
  {
    var w := Run(shelf, jobs, schedule);
    RunKeepsInv(shelf, jobs, schedule);
    var i :| 0 <= i < |w.txs| && w.txs[i].outcome == None;
    var j := FollowTheWait(w, jobs, shelf, i, ProductBound(jobs));
  }
}
