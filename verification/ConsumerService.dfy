/** The consumer object: a poll loop around a retry loop, proved equal to `Delivery`. */
module ConsumerServices {
  import opened Prelude
  import opened Events
  import opened Delivery

  class BaseConsumer<S, E> {
    const group: Group<S, E>
    var tables: S
    var processed: seq<EventId>
    var logs: Logs
    var position: seq<nat>
    var committed: seq<nat>
    var dead: seq<DeadLetter>

    /** The group's database, offsets and log as one value. */
    ghost function State(): World<S>
      reads this
    {
      World(Consumer(Database(tables, processed), position, committed, dead), logs)
    }

    constructor (group: Group<S, E>, tables: S, partitions: nat)
      ensures this.group == group && State() == Fresh(tables, partitions)
    {
      this.group, this.tables, processed, dead := group, tables, [], [];
      logs, position, committed := seq(partitions, _ => []), seq(partitions, _ => 0), seq(partitions, _ => 0);
    }

    /** Run one handler in one transaction. The writes are kept only when nothing raised. */
    method TryDispatch(id: EventId, e: Event, t: Try<E>) returns (raised: bool)
      modifies this`tables, this`processed
      ensures raised == !Succeeds(group, old(State()).consumer.db, id, e, t)
      ensures Database(tables, processed) ==
        if raised then old(Database(tables, processed))
        else Dispatch(old(Database(tables, processed)), id, group.handler(old(tables), e, t.env))
    {
      if t.broken {
        return true;
      }
      if id in processed {
        return false;
      }
      var written := group.handler(tables, e, t.env);
      if written == None {
        return true;
      }
      tables := written.value;
      processed := processed + [id];
      return false;
    }

    /** Park a record; raises when the dead-letter topic does not take it either. */
    method Park(p: nat, offset: nat, attempts: nat, r: Record, dlqUp: bool) returns (raised: bool)
      modifies this`dead
      ensures raised == !dlqUp
      ensures dead == if raised then old(dead) else old(dead) + [DeadLetter(p, offset, attempts, r)]
    {
      if !dlqUp {
        return true;
      }
      dead := dead + [DeadLetter(p, offset, attempts, r)];
      return false;
    }

    /** Dedup, retry, then dead-letter. */
    method HandleRecord(p: nat, offset: nat, r: Record, tries: nat -> Try<E>, dlqUp: bool) returns (raised: bool)
      modifies this`tables, this`processed, this`dead
      ensures var parked := Parked(group, old(State()).consumer.db, r, tries);
        && raised == (parked.Some? && !dlqUp)
        && Database(tables, processed) == Effect(group, old(State()).consumer.db, r, tries)
        && dead == if parked.Some? && dlqUp then old(dead) + [DeadLetter(p, offset, parked.value, r)] else old(dead)
    {
      ghost var db := State().consumer.db;
      if r.Unreadable? {
        raised := Park(p, offset, 0, r, dlqUp);
        return;
      }
      if !group.handles(KindOf(r.event)) {
        return false;
      }
      var attempt := 0;
      while attempt < group.maxRetries
        invariant 0 <= attempt <= group.maxRetries && (attempt == group.maxRetries ==> attempt == 0)
        invariant State().consumer.db == db && dead == old(dead)
        invariant FirstSuccess(group, db, r.id, r.event, tries, 0)
               == FirstSuccess(group, db, r.id, r.event, tries, attempt)
      {
        var failed := TryDispatch(r.id, r.event, tries(attempt));
        if !failed {
          return false;
        }
        attempt := attempt + 1;
        if attempt == group.maxRetries {
          raised := Park(p, offset, attempt, r, dlqUp);
          return;
        }
      }
      return false;
    }

    /** One turn of the loop: fetch, handle, and commit or rewind. */
    method PollOnce(p: nat, tries: nat -> Try<E>, dlqUp: bool, survives: bool)
      requires Sized(State()) && p < |logs|
      modifies this
      ensures State() == Poll(group, old(State()), p, tries, dlqUp, survives)
    {
      if position[p] >= |logs[p]| {
        return;
      }
      var offset := position[p];
      var r := logs[p][offset];
      position := position[p := offset + 1];
      var raised := HandleRecord(p, offset, r, tries, dlqUp);
      if raised {
        position := position[p := offset];
        assert position == old(position);
        return;
      }
      if survives {
        committed := position;
      } else {
        position := committed;
      }
    }

    /** The loop over whatever the surroundings do. */
    method Run(ticks: seq<Tick<E>>)
      requires Sized(State())
      modifies this
      ensures State() == RunFrom(group, old(State()), ticks)
    {
      ghost var start := State();
      var i := 0;
      while i < |ticks|
        invariant 0 <= i <= |ticks| && Sized(State())
        invariant State() == RunFrom(group, start, ticks[..i])
      {
        assert ticks[..i + 1][..i] == ticks[..i];
        match ticks[i] {
          case Arrive(p, r) =>
            if p < |logs| {
              logs := logs[p := logs[p] + [r]];
            }
          case PollOne(p, tries, dlqUp, survives) =>
            if p < |logs| {
              PollOnce(p, tries, dlqUp, survives);
            }
          case PollFails =>
          case Restart =>
            position := committed;
        }
        i := i + 1;
      }
      assert ticks[..i] == ticks;
    }
  }
}
