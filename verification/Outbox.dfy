/** The relay from an outbox table to the broker: at least once, and in bounded time. */
module Outbox {
  import opened Prelude

  /** An outbox row; its id is its position. The event itself never changes. */
  datatype Row = Row(createdAt: int, published: bool, attempts: nat)

  /** The table, and what the broker has acknowledged, in order. */
  datatype Relay = Relay(rows: seq<Row>, log: seq<nat>)

  // ------------------------------------------------------------ one cycle

  function Pending(rows: seq<Row>): set<nat> {
    set i: nat | i < |rows| && !rows[i].published
  }

  function Elements(picks: seq<nat>): set<nat> {
    set i | i in picks
  }

  ghost predicate Distinct(picks: seq<nat>) {
    forall i, j :: 0 <= i < j < |picks| ==> picks[i] != picks[j]
  }

  /** What the SELECT may return: up to `limit` unpublished rows that no other replica has locked,
      oldest first. Rows of equal age come in any order, and either side of the limit. */
  ghost predicate IsBatch(rows: seq<Row>, locked: set<nat>, picks: seq<nat>, limit: nat) {
    && Distinct(picks)
    && (forall i :: 0 <= i < |picks| ==> picks[i] < |rows| && picks[i] in Pending(rows) - locked)
    && |picks| == Min(limit, |Pending(rows) - locked|)
    && (forall i, j :: 0 <= i < j < |picks| ==> rows[picks[i]].createdAt <= rows[picks[j]].createdAt)
    && (forall i, k :: 0 <= i < |picks| && k in Pending(rows) - locked - Elements(picks) ==>
          rows[picks[i]].createdAt <= rows[k].createdAt)
  }

  /** The rows of the batch that the broker took. */
  function Accepted(picks: seq<nat>, refused: set<nat>): seq<nat> {
    if |picks| == 0 then []
    else
      var last := picks[|picks| - 1];
      Accepted(picks[..|picks| - 1], refused) + (if last in refused then [] else [last])
  }

  function SettledRow(row: Row, i: nat, picks: seq<nat>, refused: set<nat>): Row {
    if i !in picks then row
    else if i in refused then row.(attempts := row.attempts + 1)
    else row.(published := true)
  }

  function SettledRows(rows: seq<Row>, picks: seq<nat>, refused: set<nat>): seq<Row> {
    seq(|rows|, i requires 0 <= i < |rows| => SettledRow(rows[i], i, picks, refused))
  }

  /** One `_publish_batch`. When its transaction is lost nothing is marked, but the broker keeps what
      it took. */
  datatype Cycle = Cycle(picks: seq<nat>, refused: set<nat>, commits: bool)

  function Publish(r: Relay, c: Cycle): Relay {
    Relay(if c.commits then SettledRows(r.rows, c.picks, c.refused) else r.rows,
          r.log + Accepted(c.picks, c.refused))
  }

  lemma {:induction false} AcceptedAre(picks: seq<nat>, refused: set<nat>)
    ensures forall i :: i in Accepted(picks, refused) <==> i in picks && i !in refused
  {
    if |picks| > 0 {
      AcceptedAre(picks[..|picks| - 1], refused);
      assert picks == picks[..|picks| - 1] + [picks[|picks| - 1]];
    }
  }

  /** `x` comes before `y`. */
  ghost predicate Before(picks: seq<nat>, x: nat, y: nat) {
    exists i, j :: 0 <= i < j < |picks| && picks[i] == x && picks[j] == y
  }

  /** `sent` is the picked rows that were not refused, in the order of the batch. */
  ghost predicate SentInOrder(sent: seq<nat>, picks: seq<nat>, refused: set<nat>) {
    && (forall i :: i in sent <==> i in picks && i !in refused)
    && (forall a, b :: 0 <= a < b < |sent| ==> Before(picks, sent[a], sent[b]))
  }

  lemma BeforeLast(picks: seq<nat>, x: nat, y: nat)
    requires |picks| > 0
    ensures Before(picks[..|picks| - 1], x, y) ==> Before(picks, x, y)
    ensures x in picks[..|picks| - 1] ==> Before(picks, x, picks[|picks| - 1])
  {
    var init := picks[..|picks| - 1];
    if Before(init, x, y) {
      var i, j :| 0 <= i < j < |init| && init[i] == x && init[j] == y;
      assert picks[i] == x && picks[j] == y;
    }
    if x in init {
      var i :| 0 <= i < |init| && init[i] == x;
      assert picks[i] == x;
    }
  }

  lemma {:induction false} AcceptedInOrder(picks: seq<nat>, refused: set<nat>)
    ensures SentInOrder(Accepted(picks, refused), picks, refused)
  {
    AcceptedAre(picks, refused);
    if |picks| > 0 {
      var before, sent := Accepted(picks[..|picks| - 1], refused), Accepted(picks, refused);
      AcceptedInOrder(picks[..|picks| - 1], refused);
      forall a, b | 0 <= a < b < |sent|
        ensures Before(picks, sent[a], sent[b])
      {
        assert before[a] in before;
        BeforeLast(picks, sent[a], sent[b]);
      }
    }
  }

  /** One cycle, exactly. The broker gets the rows it takes, in order, whether or not the transaction
      commits; if it does, they are marked, and each refused row of the batch counts one more attempt. */
  lemma CycleOutcome(r: Relay, c: Cycle) returns (sent: seq<nat>)
    ensures SentInOrder(sent, c.picks, c.refused)
    ensures Publish(r, c).log == r.log + sent
    ensures var rows := Publish(r, c).rows;
      && |rows| == |r.rows|
      && forall i :: 0 <= i < |rows| ==>
        && rows[i].createdAt == r.rows[i].createdAt
        && (rows[i].published <==> r.rows[i].published || (c.commits && i in sent))
        && rows[i].attempts == r.rows[i].attempts + (if c.commits && i in c.picks && i in c.refused then 1 else 0)
  {
    sent := Accepted(c.picks, c.refused);
    AcceptedInOrder(c.picks, c.refused);
  }

  // ------------------------------------------------------------ whole runs

  datatype Op = Enqueue(createdAt: int) | PublishOp(cycle: Cycle, locked: set<nat>)

  function Perform(r: Relay, op: Op): Relay {
    match op
    case Enqueue(createdAt) => r.(rows := r.rows + [Row(createdAt, false, 0)])
    case PublishOp(c, _) => Publish(r, c)
  }

  function Run(ops: seq<Op>): Relay {
    if |ops| == 0 then Relay([], []) else Perform(Run(ops[..|ops| - 1]), ops[|ops| - 1])
  }

  /** Every cycle worked on a batch the SELECT could have returned. */
  ghost predicate Possible(ops: seq<Op>, limit: nat) {
    |ops| > 0 ==>
      && Possible(ops[..|ops| - 1], limit)
      && (ops[|ops| - 1].PublishOp? ==>
            IsBatch(Run(ops[..|ops| - 1]).rows, ops[|ops| - 1].locked, ops[|ops| - 1].cycle.picks, limit))
  }

  function Occurrences(log: seq<nat>, i: nat): nat {
    if |log| == 0 then 0
    else Occurrences(log[..|log| - 1], i) + (if log[|log| - 1] == i then 1 else 0)
  }

  /** How often row `i` was sent by a transaction that was then lost. */
  function Lost(ops: seq<Op>, i: nat): nat {
    if |ops| == 0 then 0
    else
      var op := ops[|ops| - 1];
      Lost(ops[..|ops| - 1], i)
      + (if op.PublishOp? && !op.cycle.commits && i in op.cycle.picks && i !in op.cycle.refused then 1 else 0)
  }

  lemma {:induction false} OccurrencesAppend(a: seq<nat>, b: seq<nat>, i: nat)
    ensures Occurrences(a + b, i) == Occurrences(a, i) + Occurrences(b, i)
  {
    if |b| == 0 {
      assert a + b == a;
    } else {
      assert (a + b)[..|a + b| - 1] == a + b[..|b| - 1];
      OccurrencesAppend(a, b[..|b| - 1], i);
    }
  }

  lemma {:induction false} AcceptedOnce(picks: seq<nat>, refused: set<nat>, i: nat)
    requires Distinct(picks)
    ensures Occurrences(Accepted(picks, refused), i) == if i in picks && i !in refused then 1 else 0
  {
    if |picks| > 0 {
      var init := picks[..|picks| - 1];
      var last := picks[|picks| - 1];
      AcceptedOnce(init, refused, i);
      var tail: seq<nat> := if last in refused then [] else [last];
      OccurrencesAppend(Accepted(init, refused), tail, i);
      assert last !in refused ==> tail[..0] == [];
      assert picks == init + [last];
    }
  }

  /** A row is in the broker once for being marked, and once more for every lost transaction that had
      sent it: nothing else is ever sent twice, and nothing is marked unsent. */
  lemma {:induction false} SentOncePerMarkOrLoss(ops: seq<Op>, limit: nat, i: nat)
    requires Possible(ops, limit)
    ensures var r := Run(ops);
      Occurrences(r.log, i) == (if i < |r.rows| && r.rows[i].published then 1 else 0) + Lost(ops, i)
  {
    if |ops| > 0 {
      var before := Run(ops[..|ops| - 1]);
      SentOncePerMarkOrLoss(ops[..|ops| - 1], limit, i);
      var op := ops[|ops| - 1];
      if op.PublishOp? {
        AcceptedOnce(op.cycle.picks, op.cycle.refused, i);
        OccurrencesAppend(before.log, Accepted(op.cycle.picks, op.cycle.refused), i);
        assert i in op.cycle.picks ==> i in Elements(op.cycle.picks);
      }
    }
  }

  lemma {:induction false} OccursIfCounted(log: seq<nat>, i: nat)
    ensures Occurrences(log, i) > 0 <==> i in log
  {
    if |log| > 0 {
      OccursIfCounted(log[..|log| - 1], i);
      assert log == log[..|log| - 1] + [log[|log| - 1]];
    }
  }

  /** A row marked published is in the broker's log. */
  lemma MarkedIsSent(ops: seq<Op>, limit: nat, i: nat)
    requires Possible(ops, limit) && i < |Run(ops).rows| && Run(ops).rows[i].published
    ensures i in Run(ops).log
  {
    SentOncePerMarkOrLoss(ops, limit, i);
    OccursIfCounted(Run(ops).log, i);
  }

  // ------------------------------------------------------------ drain bound

  /** A cycle in which exactly the rows of `bad` are refused. */
  ghost predicate Healthy(rows: seq<Row>, c: Cycle, bad: set<nat>, limit: nat) {
    c.commits && IsBatch(rows, {}, c.picks, limit) && forall i :: i in c.picks ==> (i in c.refused <==> i in bad)
  }

  function Cycles(rows: seq<Row>, cycles: seq<Cycle>): seq<Row> {
    if |cycles| == 0 then rows
    else
      var c := cycles[|cycles| - 1];
      SettledRows(Cycles(rows, cycles[..|cycles| - 1]), c.picks, c.refused)
  }

  ghost predicate AllHealthy(rows: seq<Row>, cycles: seq<Cycle>, bad: set<nat>, limit: nat) {
    |cycles| > 0 ==>
      && AllHealthy(rows, cycles[..|cycles| - 1], bad, limit)
      && Healthy(Cycles(rows, cycles[..|cycles| - 1]), cycles[|cycles| - 1], bad, limit)
  }

  lemma {:induction false} DistinctSize(picks: seq<nat>)
    requires Distinct(picks)
    ensures |Elements(picks)| == |picks|
  {
    if |picks| > 0 {
      var init := picks[..|picks| - 1];
      DistinctSize(init);
      assert Elements(picks) == Elements(init) + {picks[|picks| - 1]};
    }
  }

  /** What a healthy cycle leaves pending: everything but the good rows it picked. */
  lemma HealthyCyclePending(rows: seq<Row>, c: Cycle, bad: set<nat>, limit: nat)
    requires Healthy(rows, c, bad, limit)
    ensures Elements(c.picks) <= Pending(rows)
    ensures Pending(SettledRows(rows, c.picks, c.refused)) == Pending(rows) - (Elements(c.picks) - bad)
  {
    forall i: nat | i in Elements(c.picks)
      ensures i in Pending(rows)
    {
      var j :| 0 <= j < |c.picks| && c.picks[j] == i;
    }
    forall i: nat
      ensures i in Pending(SettledRows(rows, c.picks, c.refused)) <==> i in Pending(rows) - (Elements(c.picks) - bad)
    {
      assert i in c.picks <==> i in Elements(c.picks);
    }
  }

  lemma SplitSize(a: set<nat>, b: set<nat>)
    ensures |a| == |a - b| + |a * b|
  {
    assert a == (a - b) + (a * b);
  }

  /** Picking as many as fit means leaving out few good rows. */
  lemma GoodTaken(pending: set<nat>, taken: set<nat>, bad: set<nat>, limit: nat)
    requires taken <= pending && |taken| == Min(limit, |pending|) && |pending * bad| <= limit
    ensures pending - (taken - bad) - bad == pending - bad - (taken - bad)
    ensures (pending - (taken - bad)) * bad == pending * bad
    ensures |pending - (taken - bad) - bad| <= |pending - bad| - Min(limit - |pending * bad|, |pending - bad|)
  {
    SplitSize(pending, bad);
    SplitSize(taken, bad);
    SubsetSize(taken * bad, pending * bad);
    SplitSize(pending - bad, taken - bad);
    assert (pending - bad) * (taken - bad) == taken - bad;
  }

  /** One healthy cycle publishes as many good rows as fit beside the bad ones. */
  lemma HealthyCycleProgress(rows: seq<Row>, c: Cycle, bad: set<nat>, limit: nat)
    requires Healthy(rows, c, bad, limit) && |Pending(rows) * bad| <= limit
    ensures var next := SettledRows(rows, c.picks, c.refused);
      && Pending(next) * bad == Pending(rows) * bad
      && |Pending(next) - bad| <= |Pending(rows) - bad|
                                  - Min(limit - |Pending(rows) * bad|, |Pending(rows) - bad|)
  {
    HealthyCyclePending(rows, c, bad, limit);
    DistinctSize(c.picks);
    assert Pending(rows) - {} == Pending(rows);
    GoodTaken(Pending(rows), Elements(c.picks), bad, limit);
  }

  /** `n` cycles' worth of room, counted without multiplying. */
  function Room(n: nat, perCycle: nat): nat {
    if n == 0 then 0 else Room(n - 1, perCycle) + perCycle
  }

  lemma {:induction false} RoomIsProduct(n: nat, perCycle: nat)
    ensures Room(n, perCycle) == n * perCycle
  {
    if n > 0 {
      RoomIsProduct(n - 1, perCycle);
    }
  }

  lemma {:induction false} DrainProgress(rows: seq<Row>, cycles: seq<Cycle>, bad: set<nat>, limit: nat)
    requires AllHealthy(rows, cycles, bad, limit) && |Pending(rows) * bad| <= limit
    ensures var next := Cycles(rows, cycles);
      && Pending(next) * bad == Pending(rows) * bad
      && (|Pending(next) - bad| == 0
          || |Pending(next) - bad| + Room(|cycles|, limit - |Pending(rows) * bad|) <= |Pending(rows) - bad|)
  {
    if |cycles| > 0 {
      var init := cycles[..|cycles| - 1];
      DrainProgress(rows, init, bad, limit);
      HealthyCycleProgress(Cycles(rows, init), cycles[|cycles| - 1], bad, limit);
    }
  }

  /** Rows that always fail cannot starve the others: with f of them, fewer than the batch size B,
      every other pending row is published within ceil(good / (B - f)) cycles, whatever the order. */
  lemma DrainBound(rows: seq<Row>, cycles: seq<Cycle>, bad: set<nat>, limit: nat)
    requires AllHealthy(rows, cycles, bad, limit) && |Pending(rows) * bad| < limit
    requires |cycles| * (limit - |Pending(rows) * bad|) >= |Pending(rows) - bad|
    ensures Pending(Cycles(rows, cycles)) == Pending(rows) * bad
  {
    DrainProgress(rows, cycles, bad, limit);
    RoomIsProduct(|cycles|, limit - |Pending(rows) * bad|);
    var next := Cycles(rows, cycles);
    assert |Pending(next) - bad| == 0;
    assert Pending(next) == (Pending(next) - bad) + (Pending(next) * bad);
  }

  /** The rows that fail were queued before the ones that would not. */
  ghost predicate FailuresFirst(rows: seq<Row>, bad: set<nat>) {
    forall i, k :: i in Pending(rows) * bad && k in Pending(rows) - bad ==> rows[i].createdAt < rows[k].createdAt
  }

  lemma StarvingBatch(rows: seq<Row>, c: Cycle, bad: set<nat>, limit: nat)
    requires Healthy(rows, c, bad, limit) && FailuresFirst(rows, bad) && limit <= |Pending(rows) * bad|
    ensures Elements(c.picks) <= bad
  {
    HealthyCyclePending(rows, c, bad, limit);
    DistinctSize(c.picks);
    assert Pending(rows) - {} == Pending(rows);
    if g :| g in Elements(c.picks) && g !in bad {
      var j :| 0 <= j < |c.picks| && c.picks[j] == g;
      forall k | k in Pending(rows) * bad
        ensures k in Elements(c.picks) - {g}
      {
        assert k !in Elements(c.picks) ==> k in Pending(rows) - {} - Elements(c.picks);
      }
      assert Elements(c.picks) == (Elements(c.picks) - {g}) + {g};
      SubsetSize(Pending(rows) * bad, Elements(c.picks) - {g});
    }
  }

  /** The bound's condition is exact: once B always-failing rows are ahead of the others, no number of
      cycles publishes anything. */
  lemma {:induction false} Starvation(rows: seq<Row>, cycles: seq<Cycle>, bad: set<nat>, limit: nat)
    requires AllHealthy(rows, cycles, bad, limit) && FailuresFirst(rows, bad) && limit <= |Pending(rows) * bad|
    ensures Pending(Cycles(rows, cycles)) == Pending(rows) && FailuresFirst(Cycles(rows, cycles), bad)
    ensures |Cycles(rows, cycles)| == |rows|
  {
    if |cycles| > 0 {
      var init := cycles[..|cycles| - 1];
      var before := Cycles(rows, init);
      Starvation(rows, init, bad, limit);
      StarvingBatch(before, cycles[|cycles| - 1], bad, limit);
      HealthyCyclePending(before, cycles[|cycles| - 1], bad, limit);
    }
  }

  // ------------------------------------------------------------ the loop itself

  class OutboxPublisher {
    const batchSize: nat
    var rows: seq<Row>
    var log: seq<nat>

    ghost function State(): Relay
      reads this
    {
      Relay(rows, log)
    }

    constructor (batchSize: nat)
      ensures this.batchSize == batchSize && State() == Relay([], [])
    {
      this.batchSize, rows, log := batchSize, [], [];
    }

    /** Queue an event; the caller's transaction commits it. */
    method Enqueue(createdAt: int)
      modifies this`rows
      ensures rows == old(rows) + [Row(createdAt, false, 0)]
    {
      rows := rows + [Row(createdAt, false, 0)];
    }

    /** Send the batch row by row, keeping the ones that fail, and mark the rest in one statement. */
    method PublishBatch(picks: seq<nat>, refused: set<nat>, commits: bool) returns (published: nat)
      requires IsBatch(rows, {}, picks, batchSize)
      modifies this
      ensures State() == Publish(old(State()), Cycle(picks, refused, commits))
      ensures published == |Accepted(picks, refused)|
    {
      ghost var start := rows;
      var table := rows;
      var publishedIds: seq<nat> := [];
      var k := 0;
      while k < |picks|
        invariant 0 <= k <= |picks| && rows == start
        invariant publishedIds == Accepted(picks[..k], refused)
        invariant log == old(log) + publishedIds
        invariant table == Tried(start, picks[..k], refused)
      {
        assert picks[..k + 1][..k] == picks[..k];
        if picks[k] in refused {
          TriedOnce(start, picks, k, refused);
          table := table[picks[k] := table[picks[k]].(attempts := table[picks[k]].attempts + 1)];
        } else {
          log := log + [picks[k]];
          publishedIds := publishedIds + [picks[k]];
        }
        k := k + 1;
      }
      assert picks[..k] == picks;
      published := |publishedIds|;
      if commits {
        rows := Marked(table, publishedIds);
        MarkedIsSettled(start, picks, refused);
      }
    }
  }

  /** The rows with the failures of `picks` counted. */
  function Tried(rows: seq<Row>, picks: seq<nat>, refused: set<nat>): (r: seq<Row>)
    ensures |r| == |rows|
  {
    if |picks| == 0 then rows
    else
      var before := Tried(rows, picks[..|picks| - 1], refused);
      var last := picks[|picks| - 1];
      if last in refused && last < |rows| then before[last := before[last].(attempts := before[last].attempts + 1)]
      else before
  }

  /** `UPDATE ... SET published_at WHERE id IN ids`. */
  function Marked(rows: seq<Row>, ids: seq<nat>): seq<Row> {
    seq(|rows|, i requires 0 <= i < |rows| => if i in ids then rows[i].(published := true) else rows[i])
  }

  lemma TriedOnce(rows: seq<Row>, picks: seq<nat>, k: nat, refused: set<nat>)
    requires k < |picks| && picks[k] < |rows| && picks[k] in refused
    ensures Tried(rows, picks[..k + 1], refused) ==
      var before := Tried(rows, picks[..k], refused);
      before[picks[k] := before[picks[k]].(attempts := before[picks[k]].attempts + 1)]
  {
    assert picks[..k + 1][..k] == picks[..k];
  }

  lemma {:induction false} TriedRows(rows: seq<Row>, picks: seq<nat>, refused: set<nat>)
    requires Distinct(picks) && forall i :: 0 <= i < |picks| ==> picks[i] < |rows|
    ensures forall i :: 0 <= i < |rows| ==>
      Tried(rows, picks, refused)[i] ==
        if i in picks && i in refused then rows[i].(attempts := rows[i].attempts + 1) else rows[i]
  {
    if |picks| > 0 {
      var init := picks[..|picks| - 1];
      TriedRows(rows, init, refused);
      assert picks == init + [picks[|picks| - 1]];
    }
  }

  lemma MarkedIsSettled(rows: seq<Row>, picks: seq<nat>, refused: set<nat>)
    requires Distinct(picks) && forall i :: 0 <= i < |picks| ==> picks[i] < |rows|
    ensures Marked(Tried(rows, picks, refused), Accepted(picks, refused)) == SettledRows(rows, picks, refused)
  {
    var tried, accepted := Tried(rows, picks, refused), Accepted(picks, refused);
    TriedRows(rows, picks, refused);
    AcceptedAre(picks, refused);
    forall i | 0 <= i < |rows|
      ensures Marked(tried, accepted)[i] == SettledRows(rows, picks, refused)[i]
    {
      assert i in accepted <==> i in picks && i !in refused;
    }
  }
}
