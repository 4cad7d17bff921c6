/** The relay of `Outbox`, cycle by cycle, is the publisher that `SagaNetwork` runs step by step. */
module SagaRelay {
  import opened Prelude
  import opened Events
  import opened SagaSystem
  import opened SagaNetwork
  import opened SagaDraining
  import Delivery
  import Outbox

  function MarkedRows(rows: seq<Outbox.Row>): set<nat> {
    set i: nat | i < |rows| && rows[i].published
  }

  /** The relay's table is the service's outbox, and no batch is open. */
  ghost predicate Matches(net: Net, s: Service, rows: seq<Outbox.Row>)
  {
    && |rows| == |Box(BoxesOf(SystemOf(net)), s)|
    && PublisherOf(net, s) == Publisher(MarkedRows(rows), {})
  }

  function Sends(s: Service, ids: seq<nat>, p: nat): seq<NetStep> {
    if |ids| == 0 then [] else Sends(s, ids[..|ids| - 1], p) + [Send(s, ids[|ids| - 1], p)]
  }

  /** What the broker has received of a box. */
  function Records(s: Service, box: seq<Event>, ids: seq<nat>): seq<Delivery.Record> {
    if |ids| == 0 then []
    else
      var last := ids[|ids| - 1];
      Records(s, box, ids[..|ids| - 1])
      + (if last < |box| then [Delivery.Readable(EventId(s, last), box[last])] else [])
  }

  /** `b` is `a` after publisher `s` sent the rows `ids` to partition `p`. */
  ghost predicate SentTo(a: Net, b: Net, s: Service, ids: seq<nat>, p: nat)
    requires p < |a.logs|
  {
    && SystemOf(b) == SystemOf(a)
    && PublisherOf(b, s) == PublisherOf(a, s).(sent := PublisherOf(a, s).sent + Outbox.Elements(ids))
    && b.logs == a.logs[p := a.logs[p] + Records(s, Box(BoxesOf(SystemOf(a)), s), ids)]
  }

  /** Rows that the relay may send. */
  ghost predicate Sendable(net: Net, s: Service, ids: seq<nat>) {
    forall i :: i in ids ==> i < |Box(BoxesOf(SystemOf(net)), s)| && i !in PublisherOf(net, s).marked
  }

  lemma SendOnceMore(a: Net, b: Net, s: Service, ids: seq<nat>, p: nat)
    requires Sized(b) && p < |a.logs| && |ids| > 0 && Sendable(a, s, ids) && SentTo(a, b, s, ids[..|ids| - 1], p)
    ensures SentTo(a, NextNet(b, Send(s, ids[|ids| - 1], p)), s, ids, p)
  {
    var init, last := ids[..|ids| - 1], ids[|ids| - 1];
    var box := Box(BoxesOf(SystemOf(a)), s);
    assert Outbox.Elements(ids) == Outbox.Elements(init) + {last};
    assert a.logs[p] + Records(s, box, ids) == a.logs[p] + Records(s, box, init) + [Delivery.Readable(EventId(s, last), box[last])];
  }

  lemma SentNothing(net: Net, s: Service, p: nat)
    requires p < |net.logs|
    ensures SentTo(net, net, s, [], p)
  {
    assert net.logs[p] + [] == net.logs[p];
    assert net.logs[p := net.logs[p]] == net.logs;
  }

  lemma InOrder<T>(a: seq<T>, b: seq<T>, x: T)
    ensures a + (b + [x]) == a + b + [x]
  {
  }

  lemma {:induction false} SendsRun(n: nat, steps: seq<NetStep>, s: Service, ids: seq<nat>, p: nat)
    requires p < n && Sendable(NetRun(n, steps), s, ids)
    ensures SentTo(NetRun(n, steps), NetRun(n, steps + Sends(s, ids, p)), s, ids, p)
  {
    if |ids| == 0 {
      assert steps + [] == steps && ids == [];
      SentNothing(NetRun(n, steps), s, p);
    } else {
      var init := Sends(s, ids[..|ids| - 1], p);
      var step := Send(s, ids[|ids| - 1], p);
      assert forall i :: i in ids[..|ids| - 1] ==> i in ids;
      SendsRun(n, steps, s, ids[..|ids| - 1], p);
      NetSnoc(n, steps + init, step);
      SendOnceMore(NetRun(n, steps), NetRun(n, steps + init), s, ids, p);
      InOrder(steps, init, step);
    }
  }

  /** The network steps of one `_publish_batch`: send what the broker takes, then mark or lose the batch. */
  function CycleSteps(s: Service, c: Outbox.Cycle, p: nat): seq<NetStep> {
    Sends(s, Outbox.Accepted(c.picks, c.refused), p) + [if c.commits then MarkSent(s) else LoseBatch(s)]
  }

  lemma SettledMarks(rows: seq<Outbox.Row>, c: Outbox.Cycle)
    requires forall i :: i in c.picks ==> i < |rows|
    ensures MarkedRows(Outbox.SettledRows(rows, c.picks, c.refused))
         == MarkedRows(rows) + Outbox.Elements(Outbox.Accepted(c.picks, c.refused))
  {
    Outbox.AcceptedAre(c.picks, c.refused);
  }

  lemma BatchIsSendable(net: Net, s: Service, rows: seq<Outbox.Row>, locked: set<nat>, c: Outbox.Cycle, limit: nat)
    requires Matches(net, s, rows) && Outbox.IsBatch(rows, locked, c.picks, limit)
    ensures Sendable(net, s, Outbox.Accepted(c.picks, c.refused)) && forall i :: i in c.picks ==> i < |rows|
  {
    Outbox.AcceptedAre(c.picks, c.refused);
    forall i | i in c.picks
      ensures i < |rows| && i !in MarkedRows(rows)
    {
      var k :| 0 <= k < |c.picks| && c.picks[k] == i;
    }
  }

  /** Closing the batch, on the network and in the table. */
  lemma CloseBatch(a: Net, b: Net, s: Service, r: Outbox.Relay, c: Outbox.Cycle, p: nat)
    requires Sized(b) && p < |a.logs| && Matches(a, s, r.rows) && forall i :: i in c.picks ==> i < |r.rows|
    requires SentTo(a, b, s, Outbox.Accepted(c.picks, c.refused), p)
    ensures var next := NextNet(b, if c.commits then MarkSent(s) else LoseBatch(s));
      Matches(next, s, Outbox.Publish(r, c).rows) && SystemOf(next) == SystemOf(a) && next.logs == b.logs
  {
    SettledMarks(r.rows, c);
  }

  /** One cycle of the relay, refined: the same rows end up marked, the same rows reach the log in the
      same order, and the databases do not change. */
  lemma CycleRefines(n: nat, steps: seq<NetStep>, s: Service, r: Outbox.Relay, locked: set<nat>, c: Outbox.Cycle,
                     limit: nat, p: nat)
    requires p < n && Matches(NetRun(n, steps), s, r.rows) && Outbox.IsBatch(r.rows, locked, c.picks, limit)
    ensures var a, b := NetRun(n, steps), NetRun(n, steps + CycleSteps(s, c, p));
      && Matches(b, s, Outbox.Publish(r, c).rows)
      && SystemOf(b) == SystemOf(a)
      && b.logs == a.logs[p := a.logs[p] + Records(s, Box(BoxesOf(SystemOf(a)), s), Outbox.Accepted(c.picks, c.refused))]
  {
    var sends := Sends(s, Outbox.Accepted(c.picks, c.refused), p);
    var last := if c.commits then MarkSent(s) else LoseBatch(s);
    BatchIsSendable(NetRun(n, steps), s, r.rows, locked, c, limit);
    SendsRun(n, steps, s, Outbox.Accepted(c.picks, c.refused), p);
    NetSnoc(n, steps + sends, last);
    CloseBatch(NetRun(n, steps), NetRun(n, steps + sends), s, r, c, p);
    InOrder(steps, sends, last);
  }
}
