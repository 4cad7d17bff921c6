/** From any state of the network, publishing, polling and replaying drain it: what
    `SagaNetwork.DrainedAgreementIff` speaks about is always within reach. */
module SagaDraining {
  import opened Prelude
  import opened Events
  import opened SagaSystem
  import opened SagaProjection
  import opened SagaRuns
  import opened SagaTheorems
  import opened SagaLiveness
  import opened SagaNetwork
  import Delivery
  import Orders
  import Inventory
  import Payments

  // ------------------------------------------------------------ longer network runs

  lemma NetSnoc(n: nat, steps: seq<NetStep>, s: NetStep)
    ensures NetRun(n, steps + [s]) == NextNet(NetRun(n, steps), s)
    ensures var step := Abstract(NetRun(n, steps), s);
      Trace(n, steps + [s]) == Trace(n, steps) + (if step.Some? then [step.value] else [])
  {
    assert (steps + [s])[..|steps|] == steps;
  }

  lemma SilentSnoc(n: nat, steps: seq<NetStep>, s: NetStep)
    requires Abstract(NetRun(n, steps), s) == None
    ensures NetRun(n, steps + [s]) == NextNet(NetRun(n, steps), s)
    ensures Trace(n, steps + [s]) == Trace(n, steps)
    ensures KeepsMarks(NetRun(n, steps), NetRun(n, steps + [s]))
  {
    NetSnoc(n, steps, s);
    StepKeepsMarks(NetRun(n, steps), s);
    var none: seq<Step> := [];
    assert Trace(n, steps) + none == Trace(n, steps);
  }

  /** Has some group parked this record? */
  predicate IsDeadLetter(net: Net, p: nat, k: nat) {
    || Delivery.DeadLettered(net.orders, p, k)
    || Delivery.DeadLettered(net.inventory, p, k)
    || Delivery.DeadLettered(net.payments, p, k)
  }

  /** The channel at work: nothing is asked of the services, nothing foreign arrives, and what is
      replayed is a dead letter. */
  predicate Carries(net: Net, s: NetStep) {
    match s
    case Send(_, _, _) => true
    case MarkSent(_) => true
    case Replay(_, q, k) => IsDeadLetter(net, q, k)
    case OrderTick(t) => t.PollOne?
    case InventoryTick(t) => t.PollOne?
    case PaymentTick(t) => t.PollOne?
    case _ => false
  }

  /** `r` goes on from `steps` by the channel alone. */
  ghost predicate CarriesOn(n: nat, steps: seq<NetStep>, r: seq<NetStep>) {
    steps <= r && forall i :: |steps| <= i < |r| ==> Carries(NetRun(n, r[..i]), r[i])
  }

  lemma CarriesOne(n: nat, steps: seq<NetStep>, s: NetStep)
    requires Carries(NetRun(n, steps), s)
    ensures CarriesOn(n, steps, steps + [s])
  {
    assert (steps + [s])[..|steps|] == steps;
  }

  lemma CarriesOnTrans(n: nat, a: seq<NetStep>, b: seq<NetStep>, c: seq<NetStep>)
    requires CarriesOn(n, a, b) && CarriesOn(n, b, c)
    ensures CarriesOn(n, a, c)
  {
    forall i | |a| <= i < |c|
      ensures Carries(NetRun(n, c[..i]), c[i])
    {
      if i < |b| {
        assert c[..i] == b[..i];
      }
    }
  }

  predicate IsMarked(net: Net, id: EventId) {
    id.index in PublisherOf(net, id.producer).marked
  }

  /** No row is ever taken back. */
  ghost predicate KeepsMarks(a: Net, b: Net) {
    forall id: EventId :: IsMarked(a, id) ==> IsMarked(b, id)
  }

  lemma StepKeepsMarks(net: Net, s: NetStep)
    requires Sized(net)
    ensures KeepsMarks(net, NextNet(net, s))
  {
  }

  // ------------------------------------------------------------ publishing

  /** Only the logs and the publishers move. */
  ghost predicate Publishes(n: nat, steps: seq<NetStep>, r: seq<NetStep>) {
    && CarriesOn(n, steps, r)
    && Trace(n, r) == Trace(n, steps)
    && SystemOf(NetRun(n, r)) == SystemOf(NetRun(n, steps))
    && KeepsMarks(NetRun(n, steps), NetRun(n, r))
  }

  /** The first `k` rows of a box are on their way, or were before. */
  ghost predicate OutUpTo(net: Net, s: Service, k: nat) {
    forall i: nat :: i < k ==> Out(net, s, i)
  }

  lemma SendKeepsOut(net: Net, s: Service, k: nat)
    requires Sized(net) && |net.logs| > 0 && k < |Box(BoxesOf(SystemOf(net)), s)|
    ensures forall i: nat :: Out(net, s, i) ==> Out(NextNet(net, Send(s, k, 0)), s, i)
    ensures Out(NextNet(net, Send(s, k, 0)), s, k)
  {
  }

  lemma SendOne(n: nat, steps: seq<NetStep>, s: Service, k: nat) returns (r: seq<NetStep>)
    requires n > 0 && k < |Box(BoxesOf(SystemOf(NetRun(n, steps))), s)| && OutUpTo(NetRun(n, steps), s, k)
    ensures Publishes(n, steps, r) && OutUpTo(NetRun(n, r), s, k + 1)
  {
    r := steps;
    if !Out(NetRun(n, steps), s, k) {
      r := steps + [Send(s, k, 0)];
      SilentSnoc(n, steps, Send(s, k, 0));
      CarriesOne(n, steps, Send(s, k, 0));
      SendKeepsOut(NetRun(n, steps), s, k);
    }
  }

  lemma PublishesTrans(n: nat, a: seq<NetStep>, b: seq<NetStep>, c: seq<NetStep>)
    requires Publishes(n, a, b) && Publishes(n, b, c)
    ensures Publishes(n, a, c)
  {
    CarriesOnTrans(n, a, b, c);
  }

  lemma {:induction false} SendAll(n: nat, steps: seq<NetStep>, s: Service, k: nat) returns (r: seq<NetStep>)
    requires n > 0 && k <= |Box(BoxesOf(SystemOf(NetRun(n, steps))), s)|
    ensures Publishes(n, steps, r) && OutUpTo(NetRun(n, r), s, k)
  {
    if k == 0 {
      r := steps;
    } else {
      var before := SendAll(n, steps, s, k - 1);
      r := SendOne(n, before, s, k - 1);
      PublishesTrans(n, steps, before, r);
    }
  }

  lemma MarkAll(n: nat, steps: seq<NetStep>, s: Service, k: nat)
    requires OutUpTo(NetRun(n, steps), s, k)
    ensures Publishes(n, steps, steps + [MarkSent(s)])
    ensures forall i: nat :: i < k ==> IsMarked(NetRun(n, steps + [MarkSent(s)]), EventId(s, i))
  {
    SilentSnoc(n, steps, MarkSent(s));
    CarriesOne(n, steps, MarkSent(s));
    forall i: nat | i < k
      ensures IsMarked(NetRun(n, steps + [MarkSent(s)]), EventId(s, i))
    {
      assert Out(NetRun(n, steps), s, i);
    }
  }

  ghost predicate BoxMarked(net: Net, s: Service) {
    forall i: nat :: i < |Box(BoxesOf(SystemOf(net)), s)| ==> IsMarked(net, EventId(s, i))
  }

  ghost predicate AllMarked(net: Net) {
    forall id: EventId :: Lookup(BoxesOf(SystemOf(net)), id).Some? ==> IsMarked(net, id)
  }

  lemma BoxStaysMarked(a: Net, b: Net, s: Service)
    requires BoxMarked(a, s) && SystemOf(b) == SystemOf(a) && KeepsMarks(a, b)
    ensures BoxMarked(b, s)
  {
  }

  lemma BoxesMarked(net: Net)
    requires BoxMarked(net, OrderSide) && BoxMarked(net, InventorySide) && BoxMarked(net, PaymentSide)
    ensures AllMarked(net)
  {
    forall id: EventId | Lookup(BoxesOf(SystemOf(net)), id).Some?
      ensures IsMarked(net, id)
    {
      assert id == EventId(id.producer, id.index);
    }
  }

  /** A whole outbox. */
  lemma PublishBox(n: nat, steps: seq<NetStep>, s: Service) returns (r: seq<NetStep>)
    requires n > 0
    ensures Publishes(n, steps, r) && BoxMarked(NetRun(n, r), s)
  {
    var k := |Box(BoxesOf(SystemOf(NetRun(n, steps))), s)|;
    var sent := SendAll(n, steps, s, k);
    MarkAll(n, sent, s, k);
    r := sent + [MarkSent(s)];
    PublishesTrans(n, steps, sent, r);
  }

  /** All three. */
  lemma PublishAll(n: nat, steps: seq<NetStep>) returns (r: seq<NetStep>)
    requires n > 0
    ensures Publishes(n, steps, r) && AllMarked(NetRun(n, r))
  {
    var r1 := PublishBox(n, steps, OrderSide);
    var r2 := PublishBox(n, r1, InventorySide);
    r := PublishBox(n, r2, PaymentSide);
    PublishesTrans(n, r1, r2, r);
    PublishesTrans(n, steps, r1, r);
    BoxStaysMarked(NetRun(n, r1), NetRun(n, r), OrderSide);
    BoxStaysMarked(NetRun(n, r2), NetRun(n, r), InventorySide);
    BoxesMarked(NetRun(n, r));
  }

  // ------------------------------------------------------------ one good poll

  /** Surroundings in which nothing breaks. */
  function Good<E>(env: E): nat -> Delivery.Try<E> {
    k => Delivery.Try(env, false)
  }

  function GoodTick<E>(p: nat, env: E): Delivery.Tick<E> {
    Delivery.PollOne(p, Good(env), true, true)
  }

  /** A record that its group has a handler for. */
  predicate Meant<S, E>(g: Delivery.Group<S, E>, r: Delivery.Record) {
    r.Readable? && g.handles(KindOf(r.event))
  }

  /** With nothing broken, one poll moves one record on; a record that is meant for the group and whose
      handler does not raise is handled by the end of it. */
  lemma GoodPoll<S, E>(g: Delivery.Group<S, E>, w: Delivery.World<S>, p: nat, env: E)
    requires Delivery.Sized(w) && p < |w.logs| && w.consumer.position[p] < |w.logs[p]| && g.maxRetries > 0
    requires var r := w.logs[p][w.consumer.position[p]];
      Meant(g, r) ==> g.handler(w.consumer.db.tables, r.event, env).Some?
    ensures var r := w.logs[p][w.consumer.position[p]];
      var next := Delivery.Advance(g, w, GoodTick(p, env)).consumer;
      var a := Delivery.Applies(g, w, GoodTick(p, env));
      && next.position == w.consumer.position[p := w.consumer.position[p] + 1]
      && (Meant(g, r) ==> r.id in next.db.processed)
      && (a.Some? ==> Meant(g, r) && r.id !in w.consumer.db.processed && a.value.env == env && a.value.id == r.id)
  {
    var r := w.logs[p][w.consumer.position[p]];
    if Meant(g, r) {
      assert Delivery.Succeeds(g, w.consumer.db, r.id, r.event, Good(env)(0));
    }
  }

  // ------------------------------------------------------------ the same for each of the three groups

  function PositionOf(net: Net, who: Service): seq<nat> {
    match who
    case OrderSide => net.orders.position
    case InventorySide => net.inventory.position
    case PaymentSide => net.payments.position
  }

  function PollStep(who: Service, p: nat, provider: Payments.Provider): NetStep {
    match who
    case OrderSide => OrderTick(GoodTick(p, 0))
    case InventorySide => InventoryTick(GoodTick(p, 0))
    case PaymentSide => PaymentTick(GoodTick(p, provider))
  }

  predicate IsFor(r: Delivery.Record, who: Service) {
    r.Readable? && Subscribes(who, KindOf(r.event))
  }

  /** The other groups, the logs and the publishers stay as they are. */
  predicate OnlyGroup(a: Net, b: Net, who: Service) {
    && b.logs == a.logs && b.publishers == a.publishers
    && (who != OrderSide ==> b.orders == a.orders)
    && (who != InventorySide ==> b.inventory == a.inventory)
    && (who != PaymentSide ==> b.payments == a.payments)
  }

  /** Nothing, or one delivery to `who`. */
  predicate AtMostOne(more: seq<Step>, who: Service, provider: Payments.Provider) {
    more == [] || (|more| == 1 && IsDelivery(more[0], who, provider))
  }

  predicate IsDelivery(step: Step, who: Service, provider: Payments.Provider) {
    !IsRequest(step) && step == Handles(who, step.id, provider)
  }

  /** What a good poll of partition `p` does to the network, `more` being its share of the saga's run. */
  ghost predicate Polled(a: Net, b: Net, who: Service, p: nat, r: Delivery.Record, more: seq<Step>, provider: Payments.Provider) {
    && OnlyGroup(a, b, who)
    && p < |PositionOf(a, who)|
    && PositionOf(b, who) == PositionOf(a, who)[p := PositionOf(a, who)[p] + 1]
    && (IsFor(r, who) ==> r.id in ProcessedBy(SystemOf(b), who))
    && AtMostOne(more, who, provider)
    && (more != [] ==> IsFor(r, who) && r.id !in ProcessedBy(SystemOf(a), who))
  }

  function More(step: Option<Step>): seq<Step> {
    if step.Some? then [step.value] else []
  }

  lemma OrderPoll(net: Net, p: nat, provider: Payments.Provider)
    requires Sized(net) && p < |net.logs| && net.orders.position[p] < |net.logs[p]|
    requires var r := net.logs[p][net.orders.position[p]];
      r.Readable? ==> Orders.Handle(net.orders.db.tables, r.event, 0).Some?
    ensures var s := PollStep(OrderSide, p, provider);
      Polled(net, NextNet(net, s), OrderSide, p, net.logs[p][net.orders.position[p]], More(Abstract(net, s)), provider)
  {
    GoodPoll(OrderGroup(), OrderWorld(net), p, 0);
  }

  lemma InventoryPoll(net: Net, p: nat, provider: Payments.Provider)
    requires Sized(net) && p < |net.logs| && net.inventory.position[p] < |net.logs[p]|
    requires var r := net.logs[p][net.inventory.position[p]];
      r.Readable? ==> Inventory.Handle(net.inventory.db.tables, r.event, 0).Some?
    ensures var s := PollStep(InventorySide, p, provider);
      Polled(net, NextNet(net, s), InventorySide, p, net.logs[p][net.inventory.position[p]], More(Abstract(net, s)), provider)
  {
    GoodPoll(InventoryGroup(), InventoryWorld(net), p, 0);
  }

  lemma PaymentPoll(net: Net, p: nat, provider: Payments.Provider)
    requires Sized(net) && p < |net.logs| && net.payments.position[p] < |net.logs[p]|
    requires var r := net.logs[p][net.payments.position[p]];
      r.Readable? ==> Payments.Handle(net.payments.db.tables, r.event, provider).Some?
    ensures var s := PollStep(PaymentSide, p, provider);
      Polled(net, NextNet(net, s), PaymentSide, p, net.logs[p][net.payments.position[p]], More(Abstract(net, s)), provider)
  {
    GoodPoll(PaymentGroup(), PaymentWorld(net), p, provider);
  }

  /** A record of a network run is an event the saga published, so no handler raises on it. */
  lemma NeverRaisesOn(n: nat, steps: seq<NetStep>, p: nat, k: nat, provider: Payments.Provider)
    requires var net := NetRun(n, steps); p < |net.logs| && k < |net.logs[p]| && net.logs[p][k].Readable?
    ensures var sys := SystemOf(NetRun(n, steps)); var r := NetRun(n, steps).logs[p][k];
      && Lookup(BoxesOf(sys), r.id) == Some(r.event)
      && Orders.Handle(sys.orders.tables, r.event, 0).Some?
      && Inventory.Handle(sys.inventory.tables, r.event, 0).Some?
      && Payments.Handle(sys.payments.tables, r.event, provider).Some?
  {
    var r := NetRun(n, steps).logs[p][k];
    NetworkRefines(n, steps);
    assert TrueRecord(r, BoxesOf(SystemOf(NetRun(n, steps))));
    NeverRaises(Trace(n, steps), r.id, 0, provider);
  }

  lemma PollOnce(n: nat, steps: seq<NetStep>, who: Service, p: nat, provider: Payments.Provider)
    requires var net := NetRun(n, steps); p < n && PositionOf(net, who)[p] < |net.logs[p]|
    ensures var net := NetRun(n, steps); var s := PollStep(who, p, provider);
      Polled(net, NextNet(net, s), who, p, net.logs[p][PositionOf(net, who)[p]], More(Abstract(net, s)), provider)
  {
    var net := NetRun(n, steps);
    var k := PositionOf(net, who)[p];
    if net.logs[p][k].Readable? {
      NeverRaisesOn(n, steps, p, k, provider);
    }
    match who {
      case OrderSide => OrderPoll(net, p, provider);
      case InventorySide => InventoryPoll(net, p, provider);
      case PaymentSide => PaymentPoll(net, p, provider);
    }
  }

  // ------------------------------------------------------------ one partition, to its end

  /** The saga's run goes on by deliveries to `who` alone. */
  ghost predicate Delivers(a: seq<Step>, b: seq<Step>, who: Service, provider: Payments.Provider) {
    a <= b && forall i :: |a| <= i < |b| ==> IsDelivery(b[i], who, provider)
  }

  /** The network goes on by the channel alone, and the saga by deliveries to `who` alone. */
  ghost predicate Serves(n: nat, steps: seq<NetStep>, r: seq<NetStep>, who: Service, provider: Payments.Provider) {
    && CarriesOn(n, steps, r)
    && Delivers(Trace(n, steps), Trace(n, r), who, provider)
    && KeepsMarks(NetRun(n, steps), NetRun(n, r))
  }

  lemma DeliversTrans(a: seq<Step>, b: seq<Step>, c: seq<Step>, who: Service, provider: Payments.Provider)
    requires Delivers(a, b, who, provider) && Delivers(b, c, who, provider)
    ensures Delivers(a, c, who, provider)
  {
    forall i | |a| <= i < |c|
      ensures IsDelivery(c[i], who, provider)
    {
      assert i < |b| ==> c[i] == b[i];
    }
  }

  lemma ServesTrans(n: nat, a: seq<NetStep>, b: seq<NetStep>, c: seq<NetStep>, who: Service, provider: Payments.Provider)
    requires Serves(n, a, b, who, provider) && Serves(n, b, c, who, provider)
    ensures Serves(n, a, c, who, provider)
  {
    CarriesOnTrans(n, a, b, c);
    DeliversTrans(Trace(n, a), Trace(n, b), Trace(n, c), who, provider);
  }

  lemma PublishingServes(n: nat, a: seq<NetStep>, b: seq<NetStep>, who: Service, provider: Payments.Provider)
    requires Publishes(n, a, b)
    ensures Serves(n, a, b, who, provider)
  {
  }

  lemma DeliversInit(a: seq<Step>, b: seq<Step>, who: Service, provider: Payments.Provider)
    requires Delivers(a, b, who, provider) && |b| > |a|
    ensures var last := b[|b| - 1];
      && Delivers(a, b[..|b| - 1], who, provider)
      && !IsRequest(last) && b == b[..|b| - 1] + [Handles(who, last.id, provider)]
  {
    assert IsDelivery(b[|b| - 1], who, provider);
  }

  lemma RoundGoesOn(a: seq<Step>, b: seq<Step>, who: Service, id: EventId, provider: Payments.Provider)
    requires Round(Run(a), Run(b), who, [])
    ensures Round(Run(a), Run(b + [Handles(who, id, provider)]), who, [])
  {
    OneDelivery(b, who, id, provider);
    RoundSnoc(Run(a), Run(b), Run(b + [Handles(who, id, provider)]), who, [], id);
  }

  /** Deliveries to one service are a round, whatever they deliver. */
  lemma {:induction false} DeliveriesRound(a: seq<Step>, b: seq<Step>, who: Service, provider: Payments.Provider)
    requires Delivers(a, b, who, provider)
    ensures Round(Run(a), Run(b), who, [])
    decreases |b|
  {
    if |b| == |a| {
      assert a == b;
      NothingHappens(Run(a), who);
    } else {
      DeliversInit(a, b, who, provider);
      DeliveriesRound(a, b[..|b| - 1], who, provider);
      RoundGoesOn(a, b[..|b| - 1], who, b[|b| - 1].id, provider);
    }
  }

  /** What serving one group means to the saga. */
  lemma ServingRound(n: nat, steps: seq<NetStep>, r: seq<NetStep>, who: Service, provider: Payments.Provider)
    requires Serves(n, steps, r, who, provider)
    ensures Round(SystemOf(NetRun(n, steps)), SystemOf(NetRun(n, r)), who, [])
  {
    NetworkRefines(n, steps);
    NetworkRefines(n, r);
    DeliveriesRound(Trace(n, steps), Trace(n, r), who, provider);
  }

  /** Every record that is for the group has been handled. */
  ghost predicate AllDone(net: Net, who: Service) {
    forall p, k :: 0 <= p < |net.logs| && 0 <= k < |net.logs[p]| && IsFor(net.logs[p][k], who) ==>
      net.logs[p][k].id in ProcessedBy(SystemOf(net), who)
  }

  /** The records of partition `p` from `start` on that are for the group have been handled. */
  ghost predicate DoneFrom(net: Net, who: Service, p: nat, start: nat) {
    forall k :: p < |net.logs| && start <= k < |net.logs[p]| && IsFor(net.logs[p][k], who) ==>
      net.logs[p][k].id in ProcessedBy(SystemOf(net), who)
  }

  lemma PositionInBounds(n: nat, steps: seq<NetStep>, who: Service, p: nat)
    requires p < n
    ensures |PositionOf(NetRun(n, steps), who)| == n
    ensures PositionOf(NetRun(n, steps), who)[p] <= |NetRun(n, steps).logs[p]|
  {
    NetworkInvariants(n, steps);
  }

  lemma MoreDelivers(trace: seq<Step>, more: seq<Step>, who: Service, provider: Payments.Provider)
    requires AtMostOne(more, who, provider)
    ensures Delivers(trace, trace + more, who, provider)
  {
  }

  /** One poll, as a step of the run. */
  lemma PollServes(n: nat, steps: seq<NetStep>, who: Service, p: nat, provider: Payments.Provider)
    requires p < n && p < |PositionOf(NetRun(n, steps), who)|
    requires PositionOf(NetRun(n, steps), who)[p] < |NetRun(n, steps).logs[p]|
    ensures var s := PollStep(who, p, provider); var net := NetRun(n, steps);
      && Serves(n, steps, steps + [s], who, provider)
      && NetRun(n, steps + [s]) == NextNet(net, s)
      && Trace(n, steps + [s]) == Trace(n, steps) + More(Abstract(net, s))
      && Polled(net, NextNet(net, s), who, p, net.logs[p][PositionOf(net, who)[p]], More(Abstract(net, s)), provider)
  {
    var s := PollStep(who, p, provider);
    PollOnce(n, steps, who, p, provider);
    NetSnoc(n, steps, s);
    StepKeepsMarks(NetRun(n, steps), s);
    CarriesOne(n, steps, s);
    MoreDelivers(Trace(n, steps), More(Abstract(NetRun(n, steps), s)), who, provider);
  }

  /** What polling partition `p` to its end leaves. */
  ghost predicate PolledOut(n: nat, steps: seq<NetStep>, r: seq<NetStep>, who: Service, p: nat, provider: Payments.Provider)
    requires p < n
  {
    var a, b := NetRun(n, steps), NetRun(n, r);
    && Serves(n, steps, r, who, provider)
    && OnlyGroup(a, b, who)
    && p < |PositionOf(a, who)|
    && PositionOf(b, who) == PositionOf(a, who)[p := |a.logs[p]|]
    && DoneFrom(b, who, p, PositionOf(a, who)[p])
    && (AllDone(a, who) ==> Trace(n, r) == Trace(n, steps))
  }

  lemma SameTraceDone(n: nat, steps: seq<NetStep>, r: seq<NetStep>, who: Service)
    requires Trace(n, r) == Trace(n, steps) && NetRun(n, r).logs == NetRun(n, steps).logs && AllDone(NetRun(n, steps), who)
    ensures SystemOf(NetRun(n, r)) == SystemOf(NetRun(n, steps)) && AllDone(NetRun(n, r), who)
  {
    NetworkRefines(n, steps);
    NetworkRefines(n, r);
  }

  /** Once more, and then to the end. */
  lemma OutAgain(a: Net, b: Net, c: Net, who: Service, p: nat, more: seq<Step>, provider: Payments.Provider)
    requires p < |a.logs| && p < |PositionOf(a, who)| && PositionOf(a, who)[p] < |a.logs[p]|
    requires Polled(a, b, who, p, a.logs[p][PositionOf(a, who)[p]], more, provider)
    requires OnlyGroup(b, c, who) && PositionOf(c, who) == PositionOf(b, who)[p := |b.logs[p]|]
    requires DoneFrom(c, who, p, PositionOf(b, who)[p]) && Remembers(SystemOf(b), SystemOf(c))
    ensures OnlyGroup(a, c, who) && PositionOf(c, who) == PositionOf(a, who)[p := |a.logs[p]|]
    ensures DoneFrom(c, who, p, PositionOf(a, who)[p])
    ensures AllDone(a, who) ==> more == []
  {
  }

  lemma PollThenOut(n: nat, steps: seq<NetStep>, r: seq<NetStep>, who: Service, p: nat, provider: Payments.Provider)
    requires p < n && PolledOut(n, steps + [PollStep(who, p, provider)], r, who, p, provider)
    requires p < |PositionOf(NetRun(n, steps), who)|
    requires PositionOf(NetRun(n, steps), who)[p] < |NetRun(n, steps).logs[p]|
    ensures PolledOut(n, steps, r, who, p, provider)
  {
    var s := PollStep(who, p, provider);
    var a, b, c := NetRun(n, steps), NetRun(n, steps + [s]), NetRun(n, r);
    PollServes(n, steps, who, p, provider);
    ServesTrans(n, steps, steps + [s], r, who, provider);
    ServingRound(n, steps + [s], r, who, provider);
    OutAgain(a, b, c, who, p, More(Abstract(a, s)), provider);
    if AllDone(a, who) {
      SameTraceDone(n, steps, steps + [s], who);
    }
  }

  lemma {:induction false} PollPartition(n: nat, steps: seq<NetStep>, who: Service, p: nat, provider: Payments.Provider)
    returns (r: seq<NetStep>)
    requires p < n
    ensures PolledOut(n, steps, r, who, p, provider)
    decreases var net := NetRun(n, steps);
      if p < |PositionOf(net, who)| && PositionOf(net, who)[p] <= |net.logs[p]| then |net.logs[p]| - PositionOf(net, who)[p]
      else 0
  {
    PositionInBounds(n, steps, who, p);
    var at := PositionOf(NetRun(n, steps), who)[p];
    if at == |NetRun(n, steps).logs[p]| {
      r := steps;
      assert PositionOf(NetRun(n, steps), who) == PositionOf(NetRun(n, steps), who)[p := at];
    } else {
      PollServes(n, steps, who, p, provider);
      r := PollPartition(n, steps + [PollStep(who, p, provider)], who, p, provider);
      PollThenOut(n, steps, r, who, p, provider);
    }
  }

  // ------------------------------------------------------------ every partition, to its end

  /** The group is at the end of the first `k` partitions. */
  ghost predicate EndUpTo(net: Net, who: Service, k: nat) {
    forall p :: 0 <= p < k && p < |PositionOf(net, who)| && p < |net.logs| ==> PositionOf(net, who)[p] == |net.logs[p]|
  }

  lemma EndOneMore(a: Net, b: Net, who: Service, k: nat)
    requires EndUpTo(a, who, k) && OnlyGroup(a, b, who) && k < |a.logs| == |PositionOf(a, who)|
    requires PositionOf(b, who) == PositionOf(a, who)[k := |a.logs[k]|]
    ensures EndUpTo(b, who, k + 1)
  {
  }

  /** A group catches up. With nothing left to handle, no database changes. */
  lemma {:induction false} CatchUp(n: nat, steps: seq<NetStep>, who: Service, k: nat, provider: Payments.Provider)
    returns (r: seq<NetStep>)
    requires k <= n
    ensures Serves(n, steps, r, who, provider)
    ensures OnlyGroup(NetRun(n, steps), NetRun(n, r), who)
    ensures EndUpTo(NetRun(n, r), who, k)
    ensures AllDone(NetRun(n, steps), who) ==> Trace(n, r) == Trace(n, steps)
  {
    if k == 0 {
      r := steps;
    } else {
      var before := CatchUp(n, steps, who, k - 1, provider);
      r := PollPartition(n, before, who, k - 1, provider);
      PositionInBounds(n, before, who, k - 1);
      EndOneMore(NetRun(n, before), NetRun(n, r), who, k - 1);
      ServesTrans(n, steps, before, r, who, provider);
      if AllDone(NetRun(n, steps), who) {
        SameTraceDone(n, steps, before, who);
      }
    }
  }

  lemma Quietly(n: nat, steps: seq<NetStep>, who: Service, provider: Payments.Provider) returns (r: seq<NetStep>)
    requires HasHandled(SystemOf(NetRun(n, steps)), who, Subscriptions(who))
    ensures CarriesOn(n, steps, r)
    ensures SystemOf(NetRun(n, r)) == SystemOf(NetRun(n, steps)) && OnlyGroup(NetRun(n, steps), NetRun(n, r), who)
    ensures EndUpTo(NetRun(n, r), who, n)
  {
    HandledMeansDone(n, steps, who);
    r := CatchUp(n, steps, who, n, provider);
    SameTraceDone(n, steps, r, who);
  }

  // ------------------------------------------------------------ one event, one service

  /** Where a marked row is. */
  lemma FindRow(n: nat, steps: seq<NetStep>, id: EventId) returns (q: nat, k: nat)
    requires IsMarked(NetRun(n, steps), id)
    ensures q < n && k < |NetRun(n, steps).logs[q]|
    ensures var r := NetRun(n, steps).logs[q][k];
      r.Readable? && r.id == id && Lookup(BoxesOf(SystemOf(NetRun(n, steps))), id) == Some(r.event)
  {
    var net := NetRun(n, steps);
    NetworkInvariants(n, steps);
    assert Out(net, id.producer, id.index);
    assert Logged(net, id.producer, id.index);
    var e := Box(BoxesOf(SystemOf(net)), id.producer)[id.index];
    q :| 0 <= q < |net.logs| && Delivery.Readable(id, e) in net.logs[q];
    k :| 0 <= k < |net.logs[q]| && net.logs[q][k] == Delivery.Readable(id, e);
  }

  lemma LastIsDone(net: Net, who: Service, before: seq<Delivery.Record>, r: Delivery.Record, start: nat)
    requires |net.logs| > 0 && net.logs[0] == before + [r] && start <= |before| && DoneFrom(net, who, 0, start)
    ensures IsFor(r, who) ==> r.id in ProcessedBy(SystemOf(net), who)
  {
    assert net.logs[0][|before|] == r;
  }

  /** A group that has read everything and not handled an event that is for it has parked it. */
  lemma UnhandledIsParked(n: nat, steps: seq<NetStep>, who: Service, q: nat, k: nat)
    requires q < n && k < |NetRun(n, steps).logs[q]| && EndUpTo(NetRun(n, steps), who, n)
    requires var net := NetRun(n, steps); var r := net.logs[q][k];
      IsFor(r, who) && r.id !in ProcessedBy(SystemOf(net), who)
    ensures IsDeadLetter(NetRun(n, steps), q, k)
  {
    var net := NetRun(n, steps);
    PositionInBounds(n, steps, who, q);
    NetworkInvariants(n, steps);
    match who {
      case OrderSide => assert Delivery.Resolved(OrderGroup(), OrderWorld(net), q, k);
      case InventorySide => assert Delivery.Resolved(InventoryGroup(), InventoryWorld(net), q, k);
      case PaymentSide => assert Delivery.Resolved(PaymentGroup(), PaymentWorld(net), q, k);
    }
  }

  /** A dead letter that is replayed is handled. */
  lemma ReplayOne(n: nat, steps: seq<NetStep>, who: Service, q: nat, k: nat, provider: Payments.Provider)
    returns (r: seq<NetStep>)
    requires q < n && k < |NetRun(n, steps).logs[q]| && IsDeadLetter(NetRun(n, steps), q, k)
    ensures Serves(n, steps, r, who, provider)
    ensures var d := NetRun(n, steps).logs[q][k];
      IsFor(d, who) ==> d.id in ProcessedBy(SystemOf(NetRun(n, r)), who)
  {
    var net := NetRun(n, steps);
    ReplayAppends(n, steps, q, k, who, provider);
    r := PollPartition(n, steps + [Replay(0, q, k)], who, 0, provider);
    ServesTrans(n, steps, steps + [Replay(0, q, k)], r, who, provider);
    PositionInBounds(n, steps, who, 0);
    LastIsDone(NetRun(n, r), who, net.logs[0], net.logs[q][k], PositionOf(net, who)[0]);
  }

  /** A published row finds its way to a service, even from a dead letter. */
  lemma DeliverOne(n: nat, steps: seq<NetStep>, who: Service, id: EventId, provider: Payments.Provider)
    returns (r: seq<NetStep>)
    requires n > 0 && IsMarked(NetRun(n, steps), id)
    ensures Serves(n, steps, r, who, provider)
    ensures Wants(SystemOf(NetRun(n, steps)), who, id) ==> id in ProcessedBy(SystemOf(NetRun(n, r)), who)
  {
    var before := CatchUp(n, steps, who, n, provider);
    r := before;
    if Wants(SystemOf(NetRun(n, steps)), who, id) && id !in ProcessedBy(SystemOf(NetRun(n, before)), who) {
      WantsOn(n, steps, before, who, id, provider);
      var q, k := FindRow(n, before, id);
      UnhandledIsParked(n, before, who, q, k);
      r := ReplayOne(n, before, who, q, k, provider);
      ServesTrans(n, steps, before, r, who, provider);
    }
  }

  lemma WantsOn(n: nat, steps: seq<NetStep>, r: seq<NetStep>, who: Service, id: EventId, provider: Payments.Provider)
    requires Serves(n, steps, r, who, provider) && Wants(SystemOf(NetRun(n, steps)), who, id)
    ensures Wants(SystemOf(NetRun(n, r)), who, id)
  {
    ServingRound(n, steps, r, who, provider);
    WantsStays(SystemOf(NetRun(n, steps)), SystemOf(NetRun(n, r)), who, id);
  }

  lemma ReplayAppends(n: nat, steps: seq<NetStep>, q: nat, k: nat, who: Service, provider: Payments.Provider)
    requires n > 0 && q < n && k < |NetRun(n, steps).logs[q]| && IsDeadLetter(NetRun(n, steps), q, k)
    ensures var a, b := NetRun(n, steps), NetRun(n, steps + [Replay(0, q, k)]);
      && Serves(n, steps, steps + [Replay(0, q, k)], who, provider)
      && b.logs[0] == a.logs[0] + [a.logs[q][k]]
      && PositionOf(b, who) == PositionOf(a, who)
  {
    SilentSnoc(n, steps, Replay(0, q, k));
    CarriesOne(n, steps, Replay(0, q, k));
    PublishingServes(n, steps, steps + [Replay(0, q, k)], who, provider);
  }

  /** Every event of `ids` is published and marked so. */
  ghost predicate Sent(net: Net, ids: seq<EventId>) {
    forall id :: id in ids ==> IsMarked(net, id) && Lookup(BoxesOf(SystemOf(net)), id).Some?
  }

  lemma WantsStays(a: System, b: System, who: Service, id: EventId)
    requires Extends(BoxesOf(a), BoxesOf(b)) && Wants(a, who, id)
    ensures Wants(b, who, id)
  {
    KindsStay(BoxesOf(a), BoxesOf(b), id, 0);
  }

  lemma HandledOneMore(a: System, b: System, c: System, who: Service, ids: seq<EventId>)
    requires |ids| > 0 && AllHandled(a, b, who, ids[..|ids| - 1]) && Extends(BoxesOf(a), BoxesOf(b)) && Remembers(b, c)
    requires Wants(b, who, ids[|ids| - 1]) ==> ids[|ids| - 1] in ProcessedBy(c, who)
    ensures AllHandled(a, c, who, ids)
  {
    forall id | id in ids && Wants(a, who, id)
      ensures id in ProcessedBy(c, who)
    {
      WantsStays(a, b, who, id);
      assert id == ids[|ids| - 1] || id in ids[..|ids| - 1];
    }
  }

  lemma SentInit(net: Net, ids: seq<EventId>)
    requires Sent(net, ids) && |ids| > 0
    ensures Sent(net, ids[..|ids| - 1]) && IsMarked(net, ids[|ids| - 1])
  {
  }

  lemma DeliverNext(n: nat, a: seq<NetStep>, b: seq<NetStep>, c: seq<NetStep>, who: Service, ids: seq<EventId>,
                    provider: Payments.Provider)
    requires |ids| > 0 && Serves(n, a, b, who, provider) && Serves(n, b, c, who, provider)
    requires AllHandled(SystemOf(NetRun(n, a)), SystemOf(NetRun(n, b)), who, ids[..|ids| - 1])
    requires Wants(SystemOf(NetRun(n, b)), who, ids[|ids| - 1]) ==>
      ids[|ids| - 1] in ProcessedBy(SystemOf(NetRun(n, c)), who)
    ensures Serves(n, a, c, who, provider)
    ensures AllHandled(SystemOf(NetRun(n, a)), SystemOf(NetRun(n, c)), who, ids)
  {
    ServesTrans(n, a, b, c, who, provider);
    ServingRound(n, a, b, who, provider);
    ServingRound(n, b, c, who, provider);
    HandledOneMore(SystemOf(NetRun(n, a)), SystemOf(NetRun(n, b)), SystemOf(NetRun(n, c)), who, ids);
  }

  lemma {:induction false} DeliverIds(n: nat, steps: seq<NetStep>, who: Service, ids: seq<EventId>, provider: Payments.Provider)
    returns (r: seq<NetStep>)
    requires n > 0 && Sent(NetRun(n, steps), ids)
    ensures Serves(n, steps, r, who, provider)
    ensures AllHandled(SystemOf(NetRun(n, steps)), SystemOf(NetRun(n, r)), who, ids)
  {
    if |ids| == 0 {
      r := steps;
    } else {
      SentInit(NetRun(n, steps), ids);
      var before := DeliverIds(n, steps, who, ids[..|ids| - 1], provider);
      r := DeliverOne(n, before, who, ids[|ids| - 1], provider);
      DeliverNext(n, steps, before, r, who, ids, provider);
    }
  }

  // ------------------------------------------------------------ one round

  lemma {:induction false} IdsPublished(s: Service, k: nat)
    ensures forall id :: id in Ids(s, k) ==> id.producer == s && id.index < k
  {
    if k > 0 {
      IdsPublished(s, k - 1);
    }
  }

  lemma AllIdsPublished(b: Boxes)
    ensures forall id :: id in AllIds(b) ==> Lookup(b, id).Some?
  {
    IdsPublished(OrderSide, |b.orders|);
    IdsPublished(InventorySide, |b.inventory|);
    IdsPublished(PaymentSide, |b.payments|);
  }

  /** Publish everything, then bring it all to one service. */
  lemma NetRound(n: nat, steps: seq<NetStep>, start: seq<NetStep>, who: Service, provider: Payments.Provider)
    returns (r: seq<NetStep>)
    requires n > 0 && CarriesOn(n, start, steps)
    ensures CarriesOn(n, start, r)
    ensures Rounded(SystemOf(NetRun(n, steps)), SystemOf(NetRun(n, r)), who)
  {
    var sent := PublishAll(n, steps);
    var a := SystemOf(NetRun(n, steps));
    var ids := AllIds(BoxesOf(a));
    AllIdsPublished(BoxesOf(a));
    AllPublished(BoxesOf(a));
    r := DeliverIds(n, sent, who, ids, provider);
    ServingRound(n, sent, r, who, provider);
    HandledBefore(a, SystemOf(NetRun(n, r)), who, ids);
    CarriesOnTrans(n, steps, sent, r);
    CarriesOnTrans(n, start, steps, r);
  }

  // ------------------------------------------------------------ draining

  lemma HandledMeansDone(n: nat, steps: seq<NetStep>, who: Service)
    requires HasHandled(SystemOf(NetRun(n, steps)), who, Subscriptions(who))
    ensures AllDone(NetRun(n, steps), who)
  {
    var net := NetRun(n, steps);
    NetworkRefines(n, steps);
    forall p, k | 0 <= p < |net.logs| && 0 <= k < |net.logs[p]| && IsFor(net.logs[p][k], who)
      ensures net.logs[p][k].id in ProcessedBy(SystemOf(net), who)
    {
      assert TrueRecord(net.logs[p][k], BoxesOf(SystemOf(net)));
    }
  }

  lemma FiveNetRounds(n: nat, steps: seq<NetStep>, provider: Payments.Provider) returns (r: seq<NetStep>)
    requires n > 0
    ensures CarriesOn(n, steps, r) && HandledByAll(SystemOf(NetRun(n, r)))
  {
    var r1 := NetRound(n, steps, steps, InventorySide, provider);
    var r2 := NetRound(n, r1, steps, PaymentSide, provider);
    var r3 := NetRound(n, r2, steps, OrderSide, provider);
    var r4 := NetRound(n, r3, steps, InventorySide, provider);
    r := NetRound(n, r4, steps, PaymentSide, provider);
    FiveRounds(SystemOf(NetRun(n, steps)), SystemOf(NetRun(n, r1)), SystemOf(NetRun(n, r2)), SystemOf(NetRun(n, r3)),
               SystemOf(NetRun(n, r4)), SystemOf(NetRun(n, r)));
  }

  /** Every dead letter names an event that has been handled since. */
  lemma NothingLeft(n: nat, steps: seq<NetStep>)
    requires HandledByAll(SystemOf(NetRun(n, steps)))
    ensures var net := NetRun(n, steps);
      && Cleared(OrderGroup(), net.orders) && Cleared(InventoryGroup(), net.inventory)
      && Cleared(PaymentGroup(), net.payments)
  {
    NetworkInvariants(n, steps);
    HandledMeansDone(n, steps, OrderSide);
    HandledMeansDone(n, steps, InventorySide);
    HandledMeansDone(n, steps, PaymentSide);
  }

  lemma CatchUpAll(n: nat, steps: seq<NetStep>, provider: Payments.Provider) returns (r: seq<NetStep>)
    requires HandledByAll(SystemOf(NetRun(n, steps)))
    ensures CarriesOn(n, steps, r)
    ensures SystemOf(NetRun(n, r)) == SystemOf(NetRun(n, steps)) && NetRun(n, r).publishers == NetRun(n, steps).publishers
    ensures EndUpTo(NetRun(n, r), OrderSide, n) && EndUpTo(NetRun(n, r), InventorySide, n)
    ensures EndUpTo(NetRun(n, r), PaymentSide, n)
  {
    var r1 := Quietly(n, steps, OrderSide, provider);
    var r2 := Quietly(n, r1, InventorySide, provider);
    r := Quietly(n, r2, PaymentSide, provider);
    CarriesOnTrans(n, steps, r1, r2);
    CarriesOnTrans(n, steps, r2, r);
  }

  /** From every state of the network, whatever was lost, dead-lettered or left half-sent, the channel
      alone can drain it. */
  lemma CanAlwaysDrain(n: nat, steps: seq<NetStep>, provider: Payments.Provider) returns (r: seq<NetStep>)
    requires n > 0
    ensures CarriesOn(n, steps, r)
    ensures Drained(NetRun(n, r))
  {
    var settled := FiveNetRounds(n, steps, provider);
    var sent := PublishAll(n, settled);
    r := CatchUpAll(n, sent, provider);
    NothingLeft(n, r);
    CarriesOnTrans(n, steps, settled, sent);
    CarriesOnTrans(n, steps, sent, r);
  }
}
