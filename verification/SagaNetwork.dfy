/** The saga over the real channel: outbox relays, a partitioned log, consumer groups with offsets,
    retries, dead letters and replays. Every run of it is a run of `SagaSystem`. */
module SagaNetwork {
  import opened Prelude
  import opened Events
  import opened OrderStatuses
  import opened SagaSystem
  import opened SagaProjection
  import opened SagaRuns
  import opened SagaRefunds
  import opened SagaTheorems
  import Delivery
  import Orders
  import Inventory
  import Payments

  // ------------------------------------------------------------ the network

  /** `consumer_max_retries`. */
  const MAX_RETRIES: nat := 3

  function OrderGroup(): Delivery.Group<Orders.Db, int> {
    Delivery.Group(k => Orders.Subscribes(k), (db, e, now) => Orders.Handle(db, e, now), MAX_RETRIES)
  }

  function InventoryGroup(): Delivery.Group<Inventory.Db, int> {
    Delivery.Group(k => Inventory.Subscribes(k), (db, e, now) => Inventory.Handle(db, e, now), MAX_RETRIES)
  }

  function PaymentGroup(): Delivery.Group<Payments.Db, Payments.Provider> {
    Delivery.Group(k => Payments.Subscribes(k), (db, e, provider) => Payments.Handle(db, e, provider), MAX_RETRIES)
  }

  /** A publisher: the rows marked published, and the rows its open transaction has sent. */
  datatype Publisher = Publisher(marked: set<nat>, sent: set<nat>)

  /** `logs` holds every partition of every topic; a group passes over what it has no handler for. */
  datatype Net = Net(orders: Delivery.Consumer<Orders.Db>,
                     inventory: Delivery.Consumer<Inventory.Db>,
                     payments: Delivery.Consumer<Payments.Db>,
                     publishers: map<Service, Publisher>,
                     logs: Delivery.Logs)

  function SystemOf(net: Net): System {
    System(net.orders.db, net.inventory.db, net.payments.db)
  }

  function OrderWorld(net: Net): Delivery.World<Orders.Db> {
    Delivery.World(net.orders, net.logs)
  }

  function InventoryWorld(net: Net): Delivery.World<Inventory.Db> {
    Delivery.World(net.inventory, net.logs)
  }

  function PaymentWorld(net: Net): Delivery.World<Payments.Db> {
    Delivery.World(net.payments, net.logs)
  }

  predicate Sized(net: Net) {
    && Delivery.Sized(OrderWorld(net))
    && Delivery.Sized(InventoryWorld(net))
    && Delivery.Sized(PaymentWorld(net))
  }

  function PublisherOf(net: Net, s: Service): Publisher {
    if s in net.publishers then net.publishers[s] else Publisher({}, {})
  }

  /** Nothing done yet, on `n` partitions. */
  function Empty(n: nat): Net {
    Net(Delivery.Fresh(Orders.EMPTY, n).consumer, Delivery.Fresh(Inventory.EMPTY, n).consumer,
        Delivery.Fresh(Payments.EMPTY, n).consumer,
        map[], Delivery.Fresh(Orders.EMPTY, n).logs)
  }

  // ------------------------------------------------------------ steps

  datatype NetStep =
    | Request(step: Step)
    | Send(service: Service, index: nat, partition: nat)
    | MarkSent(service: Service)
    | LoseBatch(service: Service)
    | Replay(partition: nat, source: nat, offset: nat)
    | Junk(partition: nat)
    | OrderTick(orderTick: Delivery.Tick<int>)
    | InventoryTick(inventoryTick: Delivery.Tick<int>)
    | PaymentTick(paymentTick: Delivery.Tick<Payments.Provider>)

  function WithSystem(net: Net, sys: System): Net {
    net.(orders := net.orders.(db := sys.orders), inventory := net.inventory.(db := sys.inventory),
         payments := net.payments.(db := sys.payments))
  }

  /** One more record at the end of a partition. */
  function Append(net: Net, p: nat, r: Delivery.Record): Net {
    if p < |net.logs| then net.(logs := net.logs[p := net.logs[p] + [r]]) else net
  }

  /** The relay sends one row of an open batch; rows already marked are not selected. */
  function SendRow(net: Net, s: Service, i: nat, p: nat): Net
    requires Sized(net)
  {
    var box := Box(BoxesOf(SystemOf(net)), s);
    var pub := PublisherOf(net, s);
    if i < |box| && i !in pub.marked && p < |net.logs| then
      Append(net, p, Delivery.Readable(EventId(s, i), box[i]))
      .(publishers := net.publishers[s := pub.(sent := pub.sent + {i})])
    else net
  }

  function NextNet(net: Net, s: NetStep): (next: Net)
    requires Sized(net)
    ensures Sized(next) && |next.logs| == |net.logs|
  {
    match s
    case Request(step) => if IsRequest(step) then WithSystem(net, Next(SystemOf(net), step)) else net
    case Send(service, i, p) => SendRow(net, service, i, p)
    case MarkSent(service) =>
      var pub := PublisherOf(net, service);
      net.(publishers := net.publishers[service := Publisher(pub.marked + pub.sent, {})])
    case LoseBatch(service) =>
      net.(publishers := net.publishers[service := PublisherOf(net, service).(sent := {})])
    case Replay(p, q, k) => if q < |net.logs| && k < |net.logs[q]| then Append(net, p, net.logs[q][k]) else net
    case Junk(p) => Append(net, p, Delivery.Unreadable)
    case OrderTick(t) => if t.Arrive? then net else net.(orders := Delivery.Advance(OrderGroup(), OrderWorld(net), t).consumer)
    case InventoryTick(t) =>
      if t.Arrive? then net else net.(inventory := Delivery.Advance(InventoryGroup(), InventoryWorld(net), t).consumer)
    case PaymentTick(t) =>
      if t.Arrive? then net else net.(payments := Delivery.Advance(PaymentGroup(), PaymentWorld(net), t).consumer)
  }

  function NetRun(n: nat, steps: seq<NetStep>): (net: Net)
    ensures Sized(net) && |net.logs| == n
  {
    if |steps| == 0 then Empty(n) else NextNet(NetRun(n, steps[..|steps| - 1]), steps[|steps| - 1])
  }

  // ------------------------------------------------------------ what a step means to the saga

  /** The system step a network step performs, if any. */
  function Abstract(net: Net, s: NetStep): Option<Step>
    requires Sized(net)
  {
    match s
    case Request(step) => if IsRequest(step) then Some(step) else None
    case OrderTick(t) =>
      (match Delivery.Applies(OrderGroup(), OrderWorld(net), t)
       case None => None
       case Some(a) => Some(OrderHandles(a.id, a.env)))
    case InventoryTick(t) =>
      (match Delivery.Applies(InventoryGroup(), InventoryWorld(net), t)
       case None => None
       case Some(a) => Some(InventoryHandles(a.id, a.env)))
    case PaymentTick(t) =>
      (match Delivery.Applies(PaymentGroup(), PaymentWorld(net), t)
       case None => None
       case Some(a) => Some(PaymentHandles(a.id, a.env)))
    case _ => None
  }

  function Trace(n: nat, steps: seq<NetStep>): seq<Step> {
    if |steps| == 0 then []
    else
      var step := Abstract(NetRun(n, steps[..|steps| - 1]), steps[|steps| - 1]);
      Trace(n, steps[..|steps| - 1]) + (if step.Some? then [step.value] else [])
  }

  /** What travels is what was published. */
  ghost predicate Truthful(logs: Delivery.Logs, b: Boxes) {
    forall p, k :: 0 <= p < |logs| && 0 <= k < |logs[p]| ==> TrueRecord(logs[p][k], b)
  }

  predicate TrueRecord(r: Delivery.Record, b: Boxes) {
    r.Readable? ==> Lookup(b, r.id) == Some(r.event)
  }

  lemma TrueStays(r: Delivery.Record, a: Boxes, b: Boxes)
    requires TrueRecord(r, a) && Extends(a, b)
    ensures TrueRecord(r, b)
  {
    if r.Readable? {
      KindsStay(a, b, r.id, 0);
    }
  }

  lemma DeliveredIsTrue(logs: Delivery.Logs, b: Boxes, id: EventId, e: Event)
    requires Truthful(logs, b) && Delivery.Delivered(logs, id, e)
    ensures Lookup(b, id) == Some(e)
  {
    var p :| 0 <= p < |logs| && Delivery.Readable(id, e) in logs[p];
    var k :| 0 <= k < |logs[p]| && logs[p][k] == Delivery.Readable(id, e);
    assert TrueRecord(logs[p][k], b);
  }

  lemma OrderTickRefines(net: Net, t: Delivery.Tick<int>)
    requires Sized(net) && Truthful(net.logs, BoxesOf(SystemOf(net))) && !t.Arrive?
    ensures var step := Abstract(net, OrderTick(t));
      SystemOf(NextNet(net, OrderTick(t))) == if step.Some? then Next(SystemOf(net), step.value) else SystemOf(net)
  {
    Delivery.AdvanceApplies(OrderGroup(), OrderWorld(net), t);
    var a := Delivery.Applies(OrderGroup(), OrderWorld(net), t);
    if a.Some? {
      DeliveredIsTrue(net.logs, BoxesOf(SystemOf(net)), a.value.id, a.value.event);
    }
  }

  lemma InventoryTickRefines(net: Net, t: Delivery.Tick<int>)
    requires Sized(net) && Truthful(net.logs, BoxesOf(SystemOf(net))) && !t.Arrive?
    ensures var step := Abstract(net, InventoryTick(t));
      SystemOf(NextNet(net, InventoryTick(t))) == if step.Some? then Next(SystemOf(net), step.value) else SystemOf(net)
  {
    Delivery.AdvanceApplies(InventoryGroup(), InventoryWorld(net), t);
    var a := Delivery.Applies(InventoryGroup(), InventoryWorld(net), t);
    if a.Some? {
      DeliveredIsTrue(net.logs, BoxesOf(SystemOf(net)), a.value.id, a.value.event);
    }
  }

  lemma PaymentTickRefines(net: Net, t: Delivery.Tick<Payments.Provider>)
    requires Sized(net) && Truthful(net.logs, BoxesOf(SystemOf(net))) && !t.Arrive?
    ensures var step := Abstract(net, PaymentTick(t));
      SystemOf(NextNet(net, PaymentTick(t))) == if step.Some? then Next(SystemOf(net), step.value) else SystemOf(net)
  {
    Delivery.AdvanceApplies(PaymentGroup(), PaymentWorld(net), t);
    var a := Delivery.Applies(PaymentGroup(), PaymentWorld(net), t);
    if a.Some? {
      DeliveredIsTrue(net.logs, BoxesOf(SystemOf(net)), a.value.id, a.value.event);
    }
  }

  /** One network step is one system step or none. */
  lemma StepRefines(net: Net, s: NetStep)
    requires Sized(net) && Truthful(net.logs, BoxesOf(SystemOf(net)))
    ensures var step := Abstract(net, s);
      SystemOf(NextNet(net, s)) == if step.Some? then Next(SystemOf(net), step.value) else SystemOf(net)
  {
    match s {
      case OrderTick(t) => if !t.Arrive? { OrderTickRefines(net, t); }
      case InventoryTick(t) => if !t.Arrive? { InventoryTickRefines(net, t); }
      case PaymentTick(t) => if !t.Arrive? { PaymentTickRefines(net, t); }
      case _ =>
    }
  }

  lemma AppendedIsTrue(net: Net, s: NetStep)
    requires Sized(net) && Truthful(net.logs, BoxesOf(SystemOf(net)))
    ensures Truthful(NextNet(net, s).logs, BoxesOf(SystemOf(net)))
  {
  }

  lemma StepKeepsTruth(trace: seq<Step>, net: Net, s: NetStep)
    requires Sized(net) && Truthful(net.logs, BoxesOf(SystemOf(net))) && SystemOf(net) == Run(trace)
    ensures Truthful(NextNet(net, s).logs, BoxesOf(SystemOf(NextNet(net, s))))
  {
    StepRefines(net, s);
    AppendedIsTrue(net, s);
    var next := NextNet(net, s);
    StepExtends(trace, net, s);
    forall p, k | 0 <= p < |next.logs| && 0 <= k < |next.logs[p]|
      ensures TrueRecord(next.logs[p][k], BoxesOf(SystemOf(next)))
    {
      TrueStays(next.logs[p][k], BoxesOf(SystemOf(net)), BoxesOf(SystemOf(next)));
    }
  }

  lemma StepExtends(trace: seq<Step>, net: Net, s: NetStep)
    requires Sized(net) && Truthful(net.logs, BoxesOf(SystemOf(net))) && SystemOf(net) == Run(trace)
    ensures Extends(BoxesOf(SystemOf(net)), BoxesOf(SystemOf(NextNet(net, s))))
  {
    StepRefines(net, s);
    EveryRunKeepsInv(trace);
    var step := Abstract(net, s);
    if step.Some? {
      NextExtends(Run(trace), step.value);
    }
  }

  /** Refinement: whatever the channel does, the databases are those of a run of the saga in which
      each service handles each of its events at most once. */
  lemma {:induction false} NetworkRefines(n: nat, steps: seq<NetStep>)
    ensures SystemOf(NetRun(n, steps)) == Run(Trace(n, steps))
    ensures Truthful(NetRun(n, steps).logs, BoxesOf(SystemOf(NetRun(n, steps))))
    ensures MarkersOk(SystemOf(NetRun(n, steps))) && HandledIsPublished(SystemOf(NetRun(n, steps)))
  {
    HandledAtMostOnce(Trace(n, steps));
    if |steps| > 0 {
      var init, s := steps[..|steps| - 1], steps[|steps| - 1];
      NetworkRefines(n, init);
      var net := NetRun(n, init);
      StepRefines(net, s);
      StepKeepsTruth(Trace(n, init), net, s);
      var step := Abstract(net, s);
      if step.Some? {
        RunSnoc(Trace(n, init), step.value);
      } else {
        assert Trace(n, init) + [] == Trace(n, init);
      }
    }
  }

  // ------------------------------------------------------------ nothing is lost on the way

  /** A row that a publisher marked or sent is in the log. */
  ghost predicate SentIsLogged(net: Net)
    requires Sized(net)
  {
    forall s: Service, i: nat :: Out(net, s, i) ==> Logged(net, s, i)
  }

  ghost predicate Logged(net: Net, s: Service, i: nat) {
    var box := Box(BoxesOf(SystemOf(net)), s);
    i < |box| && Delivery.Delivered(net.logs, EventId(s, i), box[i])
  }

  ghost predicate GroupsSafe(net: Net) {
    && Delivery.Safe(OrderGroup(), OrderWorld(net)) && Delivery.CopiesOk(OrderWorld(net))
    && Delivery.Safe(InventoryGroup(), InventoryWorld(net)) && Delivery.CopiesOk(InventoryWorld(net))
    && Delivery.Safe(PaymentGroup(), PaymentWorld(net)) && Delivery.CopiesOk(PaymentWorld(net))
  }

  lemma AppendKeepsSafe(net: Net, p: nat, r: Delivery.Record)
    requires Sized(net) && GroupsSafe(net)
    ensures GroupsSafe(Append(net, p, r))
  {
    Delivery.AdvanceKeepsSafe(OrderGroup(), OrderWorld(net), Delivery.Arrive(p, r));
    Delivery.AdvanceKeepsSafe(InventoryGroup(), InventoryWorld(net), Delivery.Arrive(p, r));
    Delivery.AdvanceKeepsSafe(PaymentGroup(), PaymentWorld(net), Delivery.Arrive(p, r));
  }

  /** A database that only grows its markers unresolves nothing. */
  lemma GrowthKeepsSafe<S(!new), E(!new)>(g: Delivery.Group<S, E>, a: Delivery.World<S>, b: Delivery.World<S>)
    requires Delivery.Safe(g, a) && Delivery.CopiesOk(a) && Delivery.Grows(a, b)
    requires b.logs == a.logs && b.consumer == a.consumer.(db := b.consumer.db)
    ensures Delivery.Safe(g, b) && Delivery.CopiesOk(b)
  {
    forall p: nat, k: nat | p < |b.logs| && k < b.consumer.position[p]
      ensures k < |b.logs[p]| && Delivery.Resolved(g, b, p, k)
    {
      Delivery.ResolvedStays(g, a, b, p, k);
    }
  }

  lemma RequestKeepsSafe(net: Net, step: Step)
    requires Sized(net) && GroupsSafe(net) && IsRequest(step)
    ensures GroupsSafe(WithSystem(net, Next(SystemOf(net), step)))
  {
    var next := WithSystem(net, Next(SystemOf(net), step));
    GrowthKeepsSafe(OrderGroup(), OrderWorld(net), OrderWorld(next));
    GrowthKeepsSafe(InventoryGroup(), InventoryWorld(net), InventoryWorld(next));
    GrowthKeepsSafe(PaymentGroup(), PaymentWorld(net), PaymentWorld(next));
  }

  lemma StepKeepsSafe(net: Net, s: NetStep)
    requires Sized(net) && GroupsSafe(net)
    ensures GroupsSafe(NextNet(net, s))
  {
    match s {
      case Request(step) => if IsRequest(step) { RequestKeepsSafe(net, step); }
      case Send(service, i, p) =>
        var box := Box(BoxesOf(SystemOf(net)), service);
        if i < |box| {
          AppendKeepsSafe(net, p, Delivery.Readable(EventId(service, i), box[i]));
        }
      case Replay(p, q, k) => if q < |net.logs| && k < |net.logs[q]| { AppendKeepsSafe(net, p, net.logs[q][k]); }
      case Junk(p) => AppendKeepsSafe(net, p, Delivery.Unreadable);
      case OrderTick(t) =>
        Delivery.AdvanceKeepsSafe(OrderGroup(), OrderWorld(net), t);
        Delivery.AdvanceKeepsCopies(OrderGroup(), OrderWorld(net), t);
      case InventoryTick(t) =>
        Delivery.AdvanceKeepsSafe(InventoryGroup(), InventoryWorld(net), t);
        Delivery.AdvanceKeepsCopies(InventoryGroup(), InventoryWorld(net), t);
      case PaymentTick(t) =>
        Delivery.AdvanceKeepsSafe(PaymentGroup(), PaymentWorld(net), t);
        Delivery.AdvanceKeepsCopies(PaymentGroup(), PaymentWorld(net), t);
      case _ =>
    }
  }

  lemma LoggedStays(a: Net, b: Net, s: Service, i: nat)
    requires Logged(a, s, i) && Extends(BoxesOf(SystemOf(a)), BoxesOf(SystemOf(b)))
    requires |a.logs| == |b.logs| && forall p :: 0 <= p < |a.logs| ==> a.logs[p] <= b.logs[p]
    ensures Logged(b, s, i)
  {
    var before, after := Box(BoxesOf(SystemOf(a)), s), Box(BoxesOf(SystemOf(b)), s);
    assert before <= after;
    var p :| 0 <= p < |a.logs| && Delivery.Readable(EventId(s, i), before[i]) in a.logs[p];
    assert Delivery.Readable(EventId(s, i), after[i]) in b.logs[p];
  }

  lemma LogsGrow(net: Net, s: NetStep)
    requires Sized(net)
    ensures forall p :: 0 <= p < |net.logs| ==> net.logs[p] <= NextNet(net, s).logs[p]
  {
  }

  lemma SendLogs(net: Net, s: Service, i: nat, p: nat)
    requires Sized(net) && i < |Box(BoxesOf(SystemOf(net)), s)| && i !in PublisherOf(net, s).marked && p < |net.logs|
    ensures Logged(SendRow(net, s, i, p), s, i)
  {
    var r := Delivery.Readable(EventId(s, i), Box(BoxesOf(SystemOf(net)), s)[i]);
    assert r in SendRow(net, s, i, p).logs[p];
  }

  predicate Out(net: Net, s: Service, i: nat) {
    i in PublisherOf(net, s).marked + PublisherOf(net, s).sent
  }

  /** A row goes out by being sent, and no other way. */
  lemma OutBySending(net: Net, s: NetStep, service: Service, i: nat)
    requires Sized(net) && Out(NextNet(net, s), service, i) && !Out(net, service, i)
    ensures s.Send? && s.service == service && s.index == i && s.partition < |net.logs|
    ensures i < |Box(BoxesOf(SystemOf(net)), service)|
  {
  }

  lemma StepKeepsLogged(trace: seq<Step>, net: Net, s: NetStep)
    requires Sized(net) && Truthful(net.logs, BoxesOf(SystemOf(net))) && SystemOf(net) == Run(trace)
    requires SentIsLogged(net)
    ensures SentIsLogged(NextNet(net, s))
  {
    var next := NextNet(net, s);
    StepExtends(trace, net, s);
    LogsGrow(net, s);
    forall service: Service, i: nat | Out(next, service, i)
      ensures Logged(next, service, i)
    {
      if Out(net, service, i) {
        LoggedStays(net, next, service, i);
      } else {
        OutBySending(net, s, service, i);
        SendLogs(net, service, i, s.partition);
      }
    }
  }

  lemma {:induction false} NetworkInvariants(n: nat, steps: seq<NetStep>)
    ensures GroupsSafe(NetRun(n, steps)) && SentIsLogged(NetRun(n, steps))
  {
    if |steps| > 0 {
      var init, s := steps[..|steps| - 1], steps[|steps| - 1];
      NetworkInvariants(n, init);
      NetworkRefines(n, init);
      StepKeepsSafe(NetRun(n, init), s);
      StepKeepsLogged(Trace(n, init), NetRun(n, init), s);
    }
  }

  // ------------------------------------------------------------ drained means agreed

  predicate CaughtUp<S>(w: Delivery.World<S>)
    requires Delivery.Sized(w)
  {
    forall p :: 0 <= p < |w.logs| ==> w.consumer.position[p] == |w.logs[p]|
  }

  /** Every parked event that was for the group has been replayed and handled since. */
  predicate Cleared<S, E>(g: Delivery.Group<S, E>, c: Delivery.Consumer<S>) {
    forall d :: d in c.dead ==>
      d.original.Readable? && g.handles(KindOf(d.original.event)) ==> d.original.id in c.db.processed
  }

  /** Every outbox row is marked, every group is at the end of every partition, and no dead letter
      waits for a replay. */
  ghost predicate Drained(net: Net)
    requires Sized(net)
  {
    && (forall id: EventId :: Lookup(BoxesOf(SystemOf(net)), id).Some? ==> id.index in PublisherOf(net, id.producer).marked)
    && CaughtUp(OrderWorld(net)) && Cleared(OrderGroup(), net.orders)
    && CaughtUp(InventoryWorld(net)) && Cleared(InventoryGroup(), net.inventory)
    && CaughtUp(PaymentWorld(net)) && Cleared(PaymentGroup(), net.payments)
  }

  /** A group that is caught up and cleared has handled every delivered event that is for it. */
  lemma CaughtUpHandles<S(!new), E(!new)>(g: Delivery.Group<S, E>, w: Delivery.World<S>, id: EventId, e: Event)
    requires Delivery.Safe(g, w) && Delivery.CopiesOk(w) && CaughtUp(w) && Cleared(g, w.consumer)
    requires Delivery.Delivered(w.logs, id, e) && g.handles(KindOf(e))
    ensures id in w.consumer.db.processed
  {
    var p :| 0 <= p < |w.logs| && Delivery.Readable(id, e) in w.logs[p];
    var k :| 0 <= k < |w.logs[p]| && w.logs[p][k] == Delivery.Readable(id, e);
    assert Delivery.Resolved(g, w, p, k);
    if Delivery.DeadLettered(w.consumer, p, k) {
      var d :| d in w.consumer.dead && d.partition == p && d.offset == k;
    }
  }

  lemma DrainedSettles(n: nat, steps: seq<NetStep>, id: EventId)
    requires Drained(NetRun(n, steps))
    ensures Settled(SystemOf(NetRun(n, steps)), id)
  {
    var net := NetRun(n, steps);
    var found := Lookup(BoxesOf(SystemOf(net)), id);
    NetworkInvariants(n, steps);
    if found.Some? {
      assert Out(net, id.producer, id.index) && Logged(net, id.producer, id.index);
      var e := found.value;
      if Orders.Subscribes(KindOf(e)) { CaughtUpHandles(OrderGroup(), OrderWorld(net), id, e); }
      if Inventory.Subscribes(KindOf(e)) { CaughtUpHandles(InventoryGroup(), InventoryWorld(net), id, e); }
      if Payments.Subscribes(KindOf(e)) { CaughtUpHandles(PaymentGroup(), PaymentWorld(net), id, e); }
    }
  }

  lemma DrainedIsQuiescent(n: nat, steps: seq<NetStep>, o: OrderId)
    requires Drained(NetRun(n, steps))
    ensures SystemOf(NetRun(n, steps)) == Run(Trace(n, steps)) && Quiescent(Run(Trace(n, steps)), o)
  {
    NetworkRefines(n, steps);
    forall id: EventId
      ensures Settled(SystemOf(NetRun(n, steps)), id)
    {
      DrainedSettles(n, steps, id);
    }
  }

  /** Agreement over the real channel: after any run with crashes, resends, duplicates, rewinds,
      retries, dead letters and replays, once the channel is drained the services agree about an order
      exactly when nothing disturbed it. */
  lemma DrainedAgreementIff(n: nat, steps: seq<NetStep>, o: OrderId)
    requires Drained(NetRun(n, steps)) && o < |SystemOf(NetRun(n, steps)).orders.tables.orders|
    ensures SystemOf(NetRun(n, steps)) == Run(Trace(n, steps))
    ensures ServicesAgree(SystemOf(NetRun(n, steps)), o) <==> NothingDisturbed(Trace(n, steps), o)
  {
    DrainedIsQuiescent(n, steps, o);
    AgreementIff(Trace(n, steps), o);
  }

  /** Compensation over the real channel: once drained, an order that was cancelled while paid has its
      payment REFUNDED and its units back, and none of its money is kept if and only if no
      administrator had given back a part before. */
  lemma DrainedCompensates(n: nat, steps: seq<NetStep>, o: OrderId)
    requires Drained(NetRun(n, steps)) && o < |SystemOf(NetRun(n, steps)).orders.tables.orders|
    requires PaidWhenCancelled(Trace(n, steps), o)
    ensures var sys := SystemOf(NetRun(n, steps));
      && StatusOf(sys, o) == CANCELLED
      && PaymentStatusOf(sys, o) == Some(Payments.REFUNDED)
      && HeldStatusOf(sys, o) in {Some(Inventory.RELEASED), Some(Inventory.EXPIRED)}
      && (RefundedOf(sys.payments.tables.payments[o]) == TotalOf(sys, o) <==> !PartlyRepaid(Trace(n, steps), o))
      && (MoneyKept(sys, o) == 0 <==> !PartlyRepaid(Trace(n, steps), o))
  {
    DrainedIsQuiescent(n, steps, o);
    PaidCancellationIsCompensated(Trace(n, steps), o);
  }
}
