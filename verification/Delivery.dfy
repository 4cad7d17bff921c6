/** At-least-once records in, exactly-once effects out: the consumer every service inherits.

    The functions below are one consumer group over its database. `ConsumerService` drives the same
    state with the poll and retry loops. */
module Delivery {
  import opened Prelude
  import opened Events

  // ------------------------------------------------------------ one event, one transaction

  /** A service's database: its tables, and `processed_events` in the order the markers went in. */
  datatype Database<S> = Database(tables: S, processed: seq<EventId>)

  /** `_dispatch`: the lookup, the handler's writes and the marker commit together or not at all.
      `written` is None when the handler raises. */
  function Dispatch<S>(db: Database<S>, id: EventId, written: Option<S>): Database<S> {
    if id in db.processed then db
    else if written == None then db
    else Database(written.value, db.processed + [id])
  }

  // ------------------------------------------------------------ one record

  /** A message's value, as far as it can be parsed. */
  datatype Record = Readable(id: EventId, event: Event) | Unreadable

  /** What the broker holds, partition by partition. */
  type Logs = seq<seq<Record>>

  datatype DeadLetter = DeadLetter(partition: nat, offset: nat, attempts: nat, original: Record)

  /** What a subclass supplies. `E` is what a handler depends on besides its event: a clock reading,
      the payment provider's answer. */
  datatype Group<!S, !E> = Group(handles: Kind -> bool, handler: (S, Event, E) -> Option<S>, maxRetries: nat)

  /** The surroundings of one attempt. `broken` is any failure that is not the handler's own. */
  datatype Try<E> = Try(env: E, broken: bool)

  datatype Consumer<S> = Consumer(db: Database<S>, position: seq<nat>, committed: seq<nat>, dead: seq<DeadLetter>)

  /** This attempt returns instead of raising: a known duplicate, or a handler that commits. */
  predicate Succeeds<S, E>(g: Group<S, E>, db: Database<S>, id: EventId, e: Event, t: Try<E>) {
    !t.broken && (id in db.processed || g.handler(db.tables, e, t.env).Some?)
  }

  /** The first attempt from `k` on that succeeds, or `maxRetries`. */
  function FirstSuccess<S, E>(g: Group<S, E>, db: Database<S>, id: EventId, e: Event, tries: nat -> Try<E>, k: nat): (r: nat)
    requires k <= g.maxRetries
    ensures k <= r <= g.maxRetries
    ensures r < g.maxRetries ==> Succeeds(g, db, id, e, tries(r))
    ensures forall j :: k <= j < r ==> !Succeeds(g, db, id, e, tries(j))
    decreases g.maxRetries - k
  {
    if k == g.maxRetries || Succeeds(g, db, id, e, tries(k)) then k
    else FirstSuccess(g, db, id, e, tries, k + 1)
  }

  /** Whether `_handle_record` parks the record, and after how many attempts. */
  function Parked<S, E>(g: Group<S, E>, db: Database<S>, r: Record, tries: nat -> Try<E>): Option<nat> {
    match r
    case Unreadable => Some(0)
    case Readable(id, e) =>
      if g.handles(KindOf(e)) && g.maxRetries > 0 && FirstSuccess(g, db, id, e, tries, 0) == g.maxRetries
      then Some(g.maxRetries) else None
  }

  /** What `_handle_record` leaves in the database. */
  function Effect<S, E>(g: Group<S, E>, db: Database<S>, r: Record, tries: nat -> Try<E>): Database<S> {
    match r
    case Unreadable => db
    case Readable(id, e) =>
      var k := FirstSuccess(g, db, id, e, tries, 0);
      if g.handles(KindOf(e)) && k < g.maxRetries then Dispatch(db, id, g.handler(db.tables, e, tries(k).env))
      else db
  }

  /** Every attempt raises: it breaks, or the handler does on an event that is not marked. */
  predicate Unhandled<S, E>(g: Group<S, E>, db: Database<S>, id: EventId, e: Event, tries: nat -> Try<E>) {
    forall k: nat :: k < g.maxRetries ==>
      tries(k).broken || (id !in db.processed && g.handler(db.tables, e, tries(k).env) == None)
  }

  /** A record is parked, after exactly `maxRetries` attempts, if and only if every one of them raised. */
  lemma ParkedIff<S, E>(g: Group<S, E>, db: Database<S>, id: EventId, e: Event, tries: nat -> Try<E>)
    requires g.handles(KindOf(e)) && g.maxRetries > 0
    ensures Parked(g, db, Readable(id, e), tries) ==
      if Unhandled(g, db, id, e, tries) then Some(g.maxRetries) else None
  {
    var first := FirstSuccess(g, db, id, e, tries, 0);
    assert forall k: nat :: k < g.maxRetries ==>
      (Succeeds(g, db, id, e, tries(k)) <==>
        !(tries(k).broken || (id !in db.processed && g.handler(db.tables, e, tries(k).env) == None)));
    if first < g.maxRetries {
      assert Succeeds(g, db, id, e, tries(first));
    }
  }

  /** `k` is the first attempt that does not raise. */
  predicate FirstToReturn<S, E>(g: Group<S, E>, db: Database<S>, id: EventId, e: Event, tries: nat -> Try<E>, k: nat) {
    && !tries(k).broken && (id in db.processed || g.handler(db.tables, e, tries(k).env).Some?)
    && forall j: nat :: j < k ==>
      tries(j).broken || (id !in db.processed && g.handler(db.tables, e, tries(j).env) == None)
  }

  /** Otherwise the first attempt that does not raise decides: its writes and the marker commit, once. */
  lemma FirstReturnDecides<S, E>(g: Group<S, E>, db: Database<S>, id: EventId, e: Event, tries: nat -> Try<E>, k: nat)
    requires g.handles(KindOf(e)) && k < g.maxRetries && FirstToReturn(g, db, id, e, tries, k)
    ensures Parked(g, db, Readable(id, e), tries) == None
    ensures Effect(g, db, Readable(id, e), tries) ==
      if id in db.processed then db
      else Database(g.handler(db.tables, e, tries(k).env).value, db.processed + [id])
  {
    var first := FirstSuccess(g, db, id, e, tries, 0);
    assert Succeeds(g, db, id, e, tries(k));
    assert forall j: nat :: j < k ==> !Succeeds(g, db, id, e, tries(j));
    assert first == k;
  }

  // ------------------------------------------------------------ the run loop

  /** A consumer group and the log it reads. */
  datatype World<S> = World(consumer: Consumer<S>, logs: Logs)

  /** What the surroundings do next. `survives` is false when the process is lost after handling the
      record and before committing its offset. */
  datatype Tick<!E> =
    | Arrive(partition: nat, record: Record)
    | PollOne(partition: nat, tries: nat -> Try<E>, dlqUp: bool, survives: bool)
    | PollFails
    | Restart

  predicate Sized<S>(w: World<S>) {
    |w.consumer.position| == |w.logs| && |w.consumer.committed| == |w.logs|
  }

  /** One pass of the loop over partition `p`. A record that can neither be handled nor parked is
      sought back to. `commit` covers every partition's position, not only this one's. */
  function Poll<S, E>(g: Group<S, E>, w: World<S>, p: nat, tries: nat -> Try<E>, dlqUp: bool, survives: bool): World<S>
    requires Sized(w) && p < |w.logs|
  {
    var c := w.consumer;
    var at := c.position[p];
    if at >= |w.logs[p]| then w
    else
      var r := w.logs[p][at];
      var parked := Parked(g, c.db, r, tries);
      if parked.Some? && !dlqUp then w
      else
        var position := c.position[p := at + 1];
        var dead := if parked.Some? then c.dead + [DeadLetter(p, at, parked.value, r)] else c.dead;
        var db := Effect(g, c.db, r, tries);
        if survives then w.(consumer := Consumer(db, position, position, dead))
        else w.(consumer := Consumer(db, c.committed, c.committed, dead))
  }

  function Advance<S, E>(g: Group<S, E>, w: World<S>, t: Tick<E>): (next: World<S>)
    requires Sized(w)
    ensures Sized(next) && |next.logs| == |w.logs|
  {
    match t
    case Arrive(p, r) => if p < |w.logs| then w.(logs := w.logs[p := w.logs[p] + [r]]) else w
    case PollOne(p, tries, dlqUp, survives) => if p < |w.logs| then Poll(g, w, p, tries, dlqUp, survives) else w
    case PollFails => w
    case Restart => w.(consumer := w.consumer.(position := w.consumer.committed))
  }

  function RunFrom<S, E>(g: Group<S, E>, w: World<S>, ticks: seq<Tick<E>>): (next: World<S>)
    requires Sized(w)
    ensures Sized(next) && |next.logs| == |w.logs|
  {
    if |ticks| == 0 then w else Advance(g, RunFrom(g, w, ticks[..|ticks| - 1]), ticks[|ticks| - 1])
  }

  /** A group that has read nothing of `n` empty partitions. */
  function Fresh<S>(tables: S, n: nat): World<S> {
    World(Consumer(Database(tables, []), seq(n, _ => 0), seq(n, _ => 0), []), seq(n, _ => []))
  }

  // ------------------------------------------------------------ offset safety

  predicate DeadLettered<S>(c: Consumer<S>, p: nat, k: nat) {
    exists d :: d in c.dead && d.partition == p && d.offset == k
  }

  /** Record `k` of partition `p` needs no more work: its event was handled, it was parked, or nobody
      is registered for it. */
  predicate Resolved<S, E>(g: Group<S, E>, w: World<S>, p: nat, k: nat)
    requires p < |w.logs| && k < |w.logs[p]|
  {
    || DeadLettered(w.consumer, p, k)
    || (&& w.logs[p][k].Readable?
        && (w.logs[p][k].id in w.consumer.db.processed || !g.handles(KindOf(w.logs[p][k].event))))
  }

  predicate InBounds<S>(w: World<S>) {
    && Sized(w)
    && forall p :: 0 <= p < |w.logs| ==> w.consumer.committed[p] <= w.consumer.position[p] <= |w.logs[p]|
  }

  /** Nothing before a position is unresolved; committed offsets are never ahead of positions. */
  ghost predicate Safe<S(!new), E(!new)>(g: Group<S, E>, w: World<S>) {
    && InBounds(w)
    && forall p: nat, k: nat :: p < |w.logs| && k < w.consumer.position[p] ==> Resolved(g, w, p, k)
  }

  /** What can be done to a group without unresolving anything. */
  predicate Grows<S>(a: World<S>, b: World<S>) {
    && |a.logs| == |b.logs|
    && (forall p :: 0 <= p < |a.logs| ==> a.logs[p] <= b.logs[p])
    && (forall id :: id in a.consumer.db.processed ==> id in b.consumer.db.processed)
    && (forall d :: d in a.consumer.dead ==> d in b.consumer.dead)
  }

  lemma ResolvedStays<S, E>(g: Group<S, E>, a: World<S>, b: World<S>, p: nat, k: nat)
    requires Grows(a, b) && p < |a.logs| && k < |a.logs[p]| && Resolved(g, a, p, k)
    ensures p < |b.logs| && k < |b.logs[p]| && Resolved(g, b, p, k)
  {
    assert a.logs[p] <= b.logs[p];
  }

  lemma AdvanceGrows<S, E>(g: Group<S, E>, w: World<S>, t: Tick<E>)
    requires Sized(w)
    ensures Grows(w, Advance(g, w, t))
  {
  }

  /** The record a poll moves past is resolved by the end of that poll. */
  lemma PollResolves<S, E>(g: Group<S, E>, w: World<S>, p: nat, tries: nat -> Try<E>, dlqUp: bool, survives: bool)
    requires InBounds(w) && g.maxRetries > 0 && p < |w.logs| && w.consumer.position[p] < |w.logs[p]|
    requires Poll(g, w, p, tries, dlqUp, survives).consumer.position[p] > w.consumer.position[p]
    ensures Resolved(g, Poll(g, w, p, tries, dlqUp, survives), p, w.consumer.position[p])
  {
    var next := Poll(g, w, p, tries, dlqUp, survives);
    var at := w.consumer.position[p];
    var parked := Parked(g, w.consumer.db, w.logs[p][at], tries);
    if parked.Some? {
      assert DeadLetter(p, at, parked.value, w.logs[p][at]) in next.consumer.dead;
    }
  }

  lemma AdvanceKeepsSafe<S(!new), E(!new)>(g: Group<S, E>, w: World<S>, t: Tick<E>)
    requires Safe(g, w) && g.maxRetries > 0
    ensures Safe(g, Advance(g, w, t))
  {
    var next := Advance(g, w, t);
    AdvanceGrows(g, w, t);
    forall p: nat, k: nat | p < |next.logs| && k < next.consumer.position[p]
      ensures k < |next.logs[p]| && Resolved(g, next, p, k)
    {
      if k < w.consumer.position[p] {
        ResolvedStays(g, w, next, p, k);
      } else {
        PollResolves(g, w, p, t.tries, t.dlqUp, t.survives);
      }
    }
  }

  /** No record is skipped: below every committed offset everything has been handled, parked or has
      no handler, whatever fails, restarts or is delivered twice. */
  lemma OffsetSafety<S(!new), E(!new)>(g: Group<S, E>, tables: S, n: nat, ticks: seq<Tick<E>>, p: nat, k: nat)
    requires g.maxRetries > 0
    requires p < n && k < RunFrom(g, Fresh(tables, n), ticks).consumer.committed[p]
    ensures k < |RunFrom(g, Fresh(tables, n), ticks).logs[p]|
    ensures Resolved(g, RunFrom(g, Fresh(tables, n), ticks), p, k)
  {
    RunIsSafe(g, tables, n, ticks);
  }

  lemma {:induction false} RunIsSafe<S(!new), E(!new)>(g: Group<S, E>, tables: S, n: nat, ticks: seq<Tick<E>>)
    requires g.maxRetries > 0
    ensures Safe(g, RunFrom(g, Fresh(tables, n), ticks))
  {
    if |ticks| > 0 {
      RunIsSafe(g, tables, n, ticks[..|ticks| - 1]);
      AdvanceKeepsSafe(g, RunFrom(g, Fresh(tables, n), ticks[..|ticks| - 1]), ticks[|ticks| - 1]);
    }
  }

  /** Every dead letter is a copy of the record it names. */
  predicate CopiesOk<S>(w: World<S>) {
    forall d :: d in w.consumer.dead ==>
      d.partition < |w.logs| && d.offset < |w.logs[d.partition]| && w.logs[d.partition][d.offset] == d.original
  }

  lemma AdvanceKeepsCopies<S, E>(g: Group<S, E>, w: World<S>, t: Tick<E>)
    requires Sized(w) && CopiesOk(w)
    ensures CopiesOk(Advance(g, w, t))
  {
  }

  /** A poison record holds its partition for one poll only, as long as it can be parked. */
  lemma PoisonNeverBlocks<S, E>(g: Group<S, E>, w: World<S>, p: nat, tries: nat -> Try<E>)
    requires InBounds(w) && p < |w.logs| && w.consumer.position[p] < |w.logs[p]|
    ensures var next := Poll(g, w, p, tries, true, true).consumer;
      next.position == w.consumer.position[p := w.consumer.position[p] + 1] && next.committed == next.position
  {
  }

  // ------------------------------------------------------------ what a poll does, exactly

  /** Where a poll leaves the group that moves past a record: committed, or lost and read again. */
  function MovedPast<S>(w: World<S>, p: nat, db: Database<S>, dead: seq<DeadLetter>, survives: bool): World<S>
    requires Sized(w) && p < |w.logs|
  {
    var c := w.consumer;
    var position := c.position[p := c.position[p] + 1];
    w.(consumer := if survives then Consumer(db, position, position, dead)
                   else Consumer(db, c.committed, c.committed, dead))
  }

  /** An event that no attempt handles is parked after `maxRetries` of them, or stays where it is while the
      dead-letter topic refuses it. */
  lemma PollParks<S, E>(g: Group<S, E>, w: World<S>, p: nat, tries: nat -> Try<E>, dlqUp: bool, survives: bool,
                        id: EventId, e: Event)
    requires Sized(w) && p < |w.logs| && w.consumer.position[p] < |w.logs[p]| && g.maxRetries > 0
    requires w.logs[p][w.consumer.position[p]] == Readable(id, e) && g.handles(KindOf(e))
    requires Unhandled(g, w.consumer.db, id, e, tries)
    ensures var c := w.consumer;
      Poll(g, w, p, tries, dlqUp, survives) ==
        if dlqUp
        then MovedPast(w, p, c.db, c.dead + [DeadLetter(p, c.position[p], g.maxRetries, Readable(id, e))], survives)
        else w
  {
    ParkedIff(g, w.consumer.db, id, e, tries);
  }

  /** An event that some attempt handles takes effect through the first of them, and is not parked. */
  lemma PollHandles<S, E>(g: Group<S, E>, w: World<S>, p: nat, tries: nat -> Try<E>, dlqUp: bool, survives: bool,
                          id: EventId, e: Event, k: nat)
    requires Sized(w) && p < |w.logs| && w.consumer.position[p] < |w.logs[p]|
    requires w.logs[p][w.consumer.position[p]] == Readable(id, e) && g.handles(KindOf(e))
    requires k < g.maxRetries && FirstToReturn(g, w.consumer.db, id, e, tries, k)
    ensures var c := w.consumer;
      Poll(g, w, p, tries, dlqUp, survives) ==
        MovedPast(w, p,
                  if id in c.db.processed then c.db
                  else Database(g.handler(c.db.tables, e, tries(k).env).value, c.db.processed + [id]),
                  c.dead, survives)
  {
    FirstReturnDecides(g, w.consumer.db, id, e, tries, k);
  }

  /** What cannot be parsed is parked unattempted, and what nobody is registered for is passed over. */
  lemma PollPasses<S, E>(g: Group<S, E>, w: World<S>, p: nat, tries: nat -> Try<E>, dlqUp: bool, survives: bool)
    requires Sized(w) && p < |w.logs| && w.consumer.position[p] < |w.logs[p]|
    ensures var c := w.consumer; var r := w.logs[p][c.position[p]];
      && (r.Unreadable? ==>
            Poll(g, w, p, tries, dlqUp, survives) ==
              if dlqUp then MovedPast(w, p, c.db, c.dead + [DeadLetter(p, c.position[p], 0, r)], survives) else w)
      && (r.Readable? && !g.handles(KindOf(r.event)) ==>
            Poll(g, w, p, tries, dlqUp, survives) == MovedPast(w, p, c.db, c.dead, survives))
  {
  }

  /** What the other ticks do: an arrival goes to the end of its partition, a poll at the end or a failed one
      changes nothing, and a restart goes back to the committed offsets and forgets nothing else. */
  lemma OtherTicks<S, E>(g: Group<S, E>, w: World<S>, t: Tick<E>)
    requires Sized(w)
    ensures var next := Advance(g, w, t); var c := w.consumer;
      && (t.Arrive? && t.partition < |w.logs| ==>
            next == World(c, w.logs[t.partition := w.logs[t.partition] + [t.record]]))
      && (t.Arrive? && t.partition >= |w.logs| ==> next == w)
      && (t.PollOne? && (t.partition >= |w.logs| || c.position[t.partition] >= |w.logs[t.partition]|) ==> next == w)
      && (t.PollFails? ==> next == w)
      && (t.Restart? ==> next == World(Consumer(c.db, c.committed, c.committed, c.dead), w.logs))
  {
  }

  // ------------------------------------------------------------ exactly once

  /** One effective handling of an event. */
  datatype Application<E> = Application(id: EventId, event: Event, env: E)

  /** The application a poll performs, if any. */
  function Applies<S, E>(g: Group<S, E>, w: World<S>, t: Tick<E>): Option<Application<E>>
    requires Sized(w)
  {
    if t.PollOne? && t.partition < |w.logs| && w.consumer.position[t.partition] < |w.logs[t.partition]| then
      var r := w.logs[t.partition][w.consumer.position[t.partition]];
      if r.Readable? && g.handles(KindOf(r.event)) && r.id !in w.consumer.db.processed then
        var k := FirstSuccess(g, w.consumer.db, r.id, r.event, t.tries, 0);
        if k < g.maxRetries then Some(Application(r.id, r.event, t.tries(k).env)) else None
      else None
    else None
  }

  function Applied<S, E>(g: Group<S, E>, w: World<S>, ticks: seq<Tick<E>>): seq<Application<E>>
    requires Sized(w)
  {
    if |ticks| == 0 then []
    else
      var before := RunFrom(g, w, ticks[..|ticks| - 1]);
      var a := Applies(g, before, ticks[|ticks| - 1]);
      Applied(g, w, ticks[..|ticks| - 1]) + (if a.Some? then [a.value] else [])
  }

  /** The reference: every application once, in order, with nothing in between. None if one raises. */
  function Replay<S, E>(g: Group<S, E>, tables: S, applied: seq<Application<E>>): Option<S> {
    if |applied| == 0 then Some(tables)
    else
      var last := applied[|applied| - 1];
      match Replay(g, tables, applied[..|applied| - 1])
      case None => None
      case Some(before) => g.handler(before, last.event, last.env)
  }

  function IdsOf<E>(applied: seq<Application<E>>): seq<EventId> {
    if |applied| == 0 then [] else IdsOf(applied[..|applied| - 1]) + [applied[|applied| - 1].id]
  }

  predicate NoDuplicates(ids: seq<EventId>) {
    forall i, j :: 0 <= i < j < |ids| ==> ids[i] != ids[j]
  }

  predicate Delivered(logs: Logs, id: EventId, e: Event) {
    exists p :: 0 <= p < |logs| && Readable(id, e) in logs[p]
  }

  predicate AllDelivered<E>(logs: Logs, applied: seq<Application<E>>) {
    forall i :: 0 <= i < |applied| ==> Delivered(logs, applied[i].id, applied[i].event)
  }

  /** A tick changes the database by its application, or not at all. */
  lemma AdvanceApplies<S, E>(g: Group<S, E>, w: World<S>, t: Tick<E>)
    requires Sized(w)
    ensures var a := Applies(g, w, t); var next := Advance(g, w, t).consumer.db;
      if a.Some? then
        && a.value.id !in w.consumer.db.processed
        && g.handler(w.consumer.db.tables, a.value.event, a.value.env) == Some(next.tables)
        && next.processed == w.consumer.db.processed + [a.value.id]
        && Delivered(w.logs, a.value.id, a.value.event)
      else next == w.consumer.db
  {
    var a := Applies(g, w, t);
    if a.Some? {
      assert Readable(a.value.id, a.value.event) in w.logs[t.partition];
    }
  }

  lemma DeliveredStays<S, E>(g: Group<S, E>, w: World<S>, t: Tick<E>, id: EventId, e: Event)
    requires Sized(w) && Delivered(w.logs, id, e)
    ensures Delivered(Advance(g, w, t).logs, id, e)
  {
    var next := Advance(g, w, t);
    AdvanceGrows(g, w, t);
    var p :| 0 <= p < |w.logs| && Readable(id, e) in w.logs[p];
    assert w.logs[p] <= next.logs[p];
  }

  /** Exactly-once refinement: after any schedule of duplicates, failures, retries, rewinds, crashes
      and replays, the tables are what applying the events in `processed_events` once each, in marker
      order, gives; each of them was delivered, and none appears twice. */
  lemma {:induction false} ExactlyOnce<S, E>(g: Group<S, E>, tables: S, n: nat, ticks: seq<Tick<E>>)
    ensures var w := RunFrom(g, Fresh(tables, n), ticks);
      var applied := Applied(g, Fresh(tables, n), ticks);
      && Replay(g, tables, applied) == Some(w.consumer.db.tables)
      && IdsOf(applied) == w.consumer.db.processed
      && NoDuplicates(w.consumer.db.processed)
      && AllDelivered(w.logs, applied)
  {
    if |ticks| > 0 {
      var init := ticks[..|ticks| - 1];
      var t := ticks[|ticks| - 1];
      var w := RunFrom(g, Fresh(tables, n), init);
      var applied := Applied(g, Fresh(tables, n), init);
      ExactlyOnce(g, tables, n, init);
      AdvanceApplies(g, w, t);
      var a := Applies(g, w, t);
      if a.Some? {
        assert (applied + [a.value])[..|applied|] == applied;
      } else {
        assert applied + [] == applied;
      }
      var all := Applied(g, Fresh(tables, n), ticks);
      forall i | 0 <= i < |all|
        ensures Delivered(Advance(g, w, t).logs, all[i].id, all[i].event)
      {
        DeliveredStays(g, w, t, all[i].id, all[i].event);
      }
    }
  }
}
