/** Every fair schedule settles: four rounds in which what was published before reaches whom it is for
    are enough, in any order and whatever else the channel does meanwhile. */
module SagaFairness {
  import opened Prelude
  import opened Events
  import opened OrderStatuses
  import opened SagaSystem
  import opened SagaViews
  import opened SagaProjection
  import opened SagaSimulation
  import opened SagaRuns
  import opened SagaRefunds
  import opened SagaTheorems
  import opened SagaLiveness
  import opened SagaNetwork
  import opened SagaDraining
  import Delivery
  import Inventory
  import Orders
  import Payments

  // ------------------------------------------------------------ steps that start nothing

  /** Not a creation, a cancellation or a retry: nothing that the saga has to answer. Sweeps, refunds,
      shipping and stock taking may go on. */
  predicate Harmless(step: Step) {
    !step.Place? && !step.CancelOrder? && !step.Retry?
  }

  ghost predicate GoesOn(a: seq<Step>, b: seq<Step>) {
    a <= b && forall i :: |a| <= i < |b| ==> Harmless(b[i])
  }

  /** The outboxes grow by no event of these kinds. */
  ghost predicate NoNew(a: System, b: System, kinds: set<Kind>) {
    && Extends(BoxesOf(a), BoxesOf(b))
    && forall id: EventId :: Lookup(BoxesOf(b), id).Some? && Lookup(BoxesOf(a), id) == None ==>
      KindOf(Lookup(BoxesOf(b), id).value) !in kinds
  }

  lemma GainsNothingElse(a: System, b: System, gained: set<Kind>, kinds: set<Kind>)
    requires Gains(a, b, gained) && gained !! kinds
    ensures NoNew(a, b, kinds)
  {
  }

  lemma NoNewTrans(a: System, b: System, c: System, kinds: set<Kind>)
    requires NoNew(a, b, kinds) && NoNew(b, c, kinds)
    ensures NoNew(a, c, kinds)
  {
    forall id: EventId | Lookup(BoxesOf(c), id).Some? && Lookup(BoxesOf(a), id) == None
      ensures KindOf(Lookup(BoxesOf(c), id).value) !in kinds
    {
      if Lookup(BoxesOf(b), id).Some? {
        KindsStay(BoxesOf(b), BoxesOf(c), id, 0);
      }
    }
  }

  // ------------------------------------------------------------ waves

  /** The kinds that are over, one wave after another: creations, reservations, results, cancellations. */
  function Wave(j: nat): set<Kind> {
    if j == 0 then {Kind.Created}
    else if j == 1 then {Kind.Created, Reserved, Refused}
    else if j == 2 then {Kind.Created, Reserved, Refused, Succeeded, Declined}
    else {Kind.Created, Reserved, Refused, Succeeded, Declined, Cancelled}
  }

  /** Everyone has handled all that is published of the first `j` waves. */
  ghost predicate Stage(sys: System, j: nat) {
    j > 0 ==> forall who: Service :: HasHandled(sys, who, Wave(j - 1) * Subscriptions(who))
  }

  lemma StageBefore(sys: System, j: nat)
    requires j > 0 && Stage(sys, j)
    ensures Stage(sys, j - 1)
  {
    if j > 1 {
      forall who: Service
        ensures HasHandled(sys, who, Wave(j - 2) * Subscriptions(who))
      {
        FewerKinds(sys, who, Wave(j - 1) * Subscriptions(who), Wave(j - 2) * Subscriptions(who));
      }
    }
  }

  lemma LastStage(sys: System)
    requires Stage(sys, 4)
    ensures HandledByAll(sys)
  {
    assert Wave(3) * Subscriptions(OrderSide) == Subscriptions(OrderSide);
    assert Wave(3) * Subscriptions(InventorySide) == Subscriptions(InventorySide);
    assert Wave(3) * Subscriptions(PaymentSide) == Subscriptions(PaymentSide);
  }

  /** What has been handled stays so while nothing new of the kinds comes. */
  lemma StageStays(a: System, b: System, j: nat)
    requires Stage(a, j) && NoNew(a, b, Wave(j)) && Remembers(a, b)
    ensures Stage(b, j)
  {
    if j > 0 {
      forall who: Service, id: EventId |
        Lookup(BoxesOf(b), id).Some? && KindOf(Lookup(BoxesOf(b), id).value) in Wave(j - 1) * Subscriptions(who)
        ensures id in ProcessedBy(b, who)
      {
        assert HasHandled(a, who, Wave(j - 1) * Subscriptions(who));
        if Lookup(BoxesOf(a), id).Some? {
          KindsStay(BoxesOf(a), BoxesOf(b), id, 0);
        }
      }
    }
  }

  // ------------------------------------------------------------ one step publishes nothing of its wave

  lemma InventoryStage(sys: System, j: nat)
    requires Stage(sys, j) && j > 0
    ensures HasHandled(sys, InventorySide, Opening(InventorySide))
  {
    FewerKinds(sys, InventorySide, Wave(j - 1) * Subscriptions(InventorySide), Opening(InventorySide));
  }

  lemma PaymentStage(sys: System, j: nat)
    requires Stage(sys, j) && j > 1
    ensures HasHandled(sys, PaymentSide, Opening(PaymentSide))
  {
    FewerKinds(sys, PaymentSide, Wave(j - 1) * Subscriptions(PaymentSide), Opening(PaymentSide));
  }

  lemma OrderStage(sys: System, j: nat)
    requires Stage(sys, j) && j > 2
    ensures HasHandled(sys, OrderSide, Subscriptions(OrderSide))
  {
    FewerKinds(sys, OrderSide, Wave(j - 1) * Subscriptions(OrderSide), Subscriptions(OrderSide));
  }

  /** An order service with nothing left to handle does not change. */
  lemma OrderIsDone(sys: System, id: EventId, now: int)
    requires HasHandled(sys, OrderSide, Subscriptions(OrderSide))
    ensures OrderConsumes(sys, id, now) == sys
  {
    var found := Lookup(BoxesOf(sys), id);
    if found.Some? && Orders.Subscribes(KindOf(found.value)) {
      assert id in ProcessedBy(sys, OrderSide);
    }
  }

  lemma SameHasNothingNew(sys: System, kinds: set<Kind>)
    ensures NoNew(sys, sys, kinds) && Remembers(sys, sys)
  {
  }

  lemma OrderStepNoNew(steps: seq<Step>, step: Step, j: nat)
    requires step.OrderHandles? && Stage(Run(steps), j) && j <= 3
    ensures NoNew(Run(steps), Run(steps + [step]), Wave(j))
  {
    if j == 3 {
      OrderStage(Run(steps), j);
      OrderIsDone(Run(steps), step.id, step.now);
      RunSnoc(steps, step);
      DeliveryIs(Run(steps), step);
      SameHasNothingNew(Run(steps), Wave(j));
    } else {
      AnyDelivery(steps, step);
      GainsNothingElse(Run(steps), Run(steps + [step]), Answers(OrderSide), Wave(j));
    }
  }

  lemma InventoryStepNoNew(steps: seq<Step>, step: Step, j: nat)
    requires step.InventoryHandles? && Stage(Run(steps), j) && j <= 3
    ensures NoNew(Run(steps), Run(steps + [step]), Wave(j))
  {
    var a, b := Run(steps), Run(steps + [step]);
    AnyDelivery(steps, step);
    if j == 0 {
      assert Answers(InventorySide) !! Wave(j);
      GainsNothingElse(a, b, Answers(InventorySide), Wave(j));
    } else {
      assert LateAnswers(InventorySide) !! Wave(j);
      InventoryStage(a, j);
      GainsNothingElse(a, b, LateAnswers(InventorySide), Wave(j));
    }
  }

  lemma PaymentStepNoNew(steps: seq<Step>, step: Step, j: nat)
    requires step.PaymentHandles? && Stage(Run(steps), j) && j <= 3
    ensures NoNew(Run(steps), Run(steps + [step]), Wave(j))
  {
    AnyDelivery(steps, step);
    if j <= 1 {
      GainsNothingElse(Run(steps), Run(steps + [step]), Answers(PaymentSide), Wave(j));
    } else {
      PaymentStage(Run(steps), j);
      GainsNothingElse(Run(steps), Run(steps + [step]), LateAnswers(PaymentSide), Wave(j));
    }
  }

  lemma OrderRequestPublishesNothing(db: Orders.Db, step: Step)
    requires Harmless(step)
    ensures OrderRequest(db, step).outbox == db.outbox
  {
  }

  lemma RefundPublishes(db: Payments.Db, step: Step)
    requires Payments.Inv(db) && step.AdminRefund?
    ensures TailIn(db.outbox, PaymentRequest(db, step).outbox, {Refunded})
  {
    AdminRefundIs(db, step);
  }

  lemma StockTail(before: seq<Event>, after: seq<Event>)
    requires AddsStock(before, after)
    ensures TailIn(before, after, {Stock})
  {
  }

  lemma SupplyNoNew(steps: seq<Step>, step: Step, j: nat)
    requires step.Sweep? || step.Restock? || step.Recount?
    ensures NoNew(Run(steps), Run(steps + [step]), Wave(j))
  {
    var a, b := Run(steps), Run(steps + [step]);
    RunSnoc(steps, step);
    InventoryRequestOnlyStock(a.inventory.tables, step);
    StockTail(a.inventory.tables.outbox, b.inventory.tables.outbox);
    GainsFrom(a, b, InventorySide, {Stock});
    GainsNothingElse(a, b, {Stock}, Wave(j));
  }

  lemma RefundNoNew(steps: seq<Step>, step: Step, j: nat)
    requires step.AdminRefund?
    ensures NoNew(Run(steps), Run(steps + [step]), Wave(j))
  {
    var a, b := Run(steps), Run(steps + [step]);
    RunSnoc(steps, step);
    RunPaymentsInv(steps);
    RefundPublishes(a.payments.tables, step);
    GainsFrom(a, b, PaymentSide, {Refunded});
    GainsNothingElse(a, b, {Refunded}, Wave(j));
  }

  lemma RequestHandlesNothing(steps: seq<Step>, step: Step)
    requires IsRequest(step)
    ensures Remembers(Run(steps), Run(steps + [step]))
  {
    RunSnoc(steps, step);
  }

  /** A harmless request publishes stock movements or refunds, if anything, and handles nothing. */
  lemma RequestNoNew(steps: seq<Step>, step: Step, j: nat)
    requires IsRequest(step) && Harmless(step)
    ensures NoNew(Run(steps), Run(steps + [step]), Wave(j)) && Remembers(Run(steps), Run(steps + [step]))
  {
    RequestHandlesNothing(steps, step);
    if step.Sweep? || step.Restock? || step.Recount? {
      SupplyNoNew(steps, step, j);
    } else if step.AdminRefund? {
      RefundNoNew(steps, step, j);
    } else {
      RunSnoc(steps, step);
      OrderRequestPublishesNothing(Run(steps).orders.tables, step);
    }
  }

  lemma StepNoNew(steps: seq<Step>, step: Step, j: nat)
    requires Harmless(step) && Stage(Run(steps), j) && j <= 3
    ensures NoNew(Run(steps), Run(steps + [step]), Wave(j)) && Remembers(Run(steps), Run(steps + [step]))
  {
    if IsRequest(step) {
      RequestNoNew(steps, step, j);
    } else {
      AnyDelivery(steps, step);
      match step {
        case OrderHandles(_, _) => OrderStepNoNew(steps, step, j);
        case InventoryHandles(_, _) => InventoryStepNoNew(steps, step, j);
        case PaymentHandles(_, _) => PaymentStepNoNew(steps, step, j);
        case _ =>
      }
    }
  }

  // ------------------------------------------------------------ rounds

  lemma RemembersTrans(a: System, b: System, c: System)
    requires Remembers(a, b) && Remembers(b, c)
    ensures Remembers(a, c)
  {
  }

  lemma OneMore(a: System, b: System, c: System, j: nat)
    requires NoNew(a, b, Wave(j)) && Remembers(a, b) && NoNew(b, c, Wave(j)) && Remembers(b, c) && Stage(b, j)
    ensures NoNew(a, c, Wave(j)) && Remembers(a, c) && Stage(c, j)
  {
    NoNewTrans(a, b, c, Wave(j));
    RemembersTrans(a, b, c);
    StageStays(b, c, j);
  }

  /** A stage once reached stays, and its wave is over. */
  lemma {:induction false} StageGoesOn(a: seq<Step>, b: seq<Step>, j: nat)
    requires GoesOn(a, b) && Stage(Run(a), j) && j <= 3
    ensures NoNew(Run(a), Run(b), Wave(j)) && Remembers(Run(a), Run(b)) && Stage(Run(b), j)
    decreases |b|
  {
    if |b| == |a| {
      assert a == b;
      SameHasNothingNew(Run(a), Wave(j));
    } else {
      var c, last := b[..|b| - 1], b[|b| - 1];
      assert c + [last] == b;
      StageGoesOn(a, c, j);
      StepNoNew(c, last, j);
      OneMore(Run(a), Run(c), Run(b), j);
    }
  }

  /** What was published at `a` has been handled, by `b`, by everyone it is for. */
  ghost predicate Fair(a: System, b: System) {
    forall who: Service, id: EventId :: Wants(a, who, id) ==> id in ProcessedBy(b, who)
  }

  lemma WaveIsHandled(a: System, b: System, j: nat)
    requires NoNew(a, b, Wave(j)) && Fair(a, b)
    ensures Stage(b, j + 1)
  {
    forall who: Service, id: EventId |
      Lookup(BoxesOf(b), id).Some? && KindOf(Lookup(BoxesOf(b), id).value) in Wave(j) * Subscriptions(who)
      ensures id in ProcessedBy(b, who)
    {
      assert Lookup(BoxesOf(a), id).Some?;
      KindsStay(BoxesOf(a), BoxesOf(b), id, 0);
      assert Wants(a, who, id);
    }
  }

  /** One fair round brings the next stage. */
  lemma FairRound(a: seq<Step>, b: seq<Step>, j: nat)
    requires GoesOn(a, b) && Fair(Run(a), Run(b)) && Stage(Run(a), j) && j <= 3
    ensures Stage(Run(b), j + 1)
  {
    StageGoesOn(a, b, j);
    WaveIsHandled(Run(a), Run(b), j);
  }

  /** Four fair rounds settle everything, whatever the order of deliveries and whatever harmless steps
      come between. */
  lemma FourFairRounds(s0: seq<Step>, s1: seq<Step>, s2: seq<Step>, s3: seq<Step>, s4: seq<Step>)
    requires GoesOn(s0, s1) && GoesOn(s1, s2) && GoesOn(s2, s3) && GoesOn(s3, s4)
    requires Fair(Run(s0), Run(s1)) && Fair(Run(s1), Run(s2)) && Fair(Run(s2), Run(s3)) && Fair(Run(s3), Run(s4))
    ensures Stage(Run(s4), 4) && HandledByAll(Run(s4))
    ensures forall o: OrderId :: Quiescent(Run(s4), o)
  {
    FairRound(s0, s1, 0);
    FairRound(s1, s2, 1);
    FairRound(s2, s3, 2);
    FairRound(s3, s4, 3);
    LastStage(Run(s4));
    SettledForAll(Run(s4));
  }

  lemma SettledForAll(sys: System)
    requires HandledByAll(sys)
    ensures forall o: OrderId :: Quiescent(sys, o)
  {
    forall id: EventId
      ensures Settled(sys, id)
    {
      AllSettled(sys, id);
    }
  }

  /** Once settled it stays settled, for as long as nothing is started. */
  lemma StaysSettled(a: seq<Step>, b: seq<Step>)
    requires GoesOn(a, b) && Stage(Run(a), 4)
    ensures Stage(Run(b), 4) && HandledByAll(Run(b))
  {
    StageBefore(Run(a), 4);
    StageGoesOn(a, b, 3);
    FourthStays(Run(a), Run(b));
    LastStage(Run(b));
  }

  lemma FourthStays(a: System, b: System)
    requires Stage(a, 4) && NoNew(a, b, Wave(3)) && Remembers(a, b)
    ensures Stage(b, 4)
  {
    StageStays(a, b, 4);
  }

  // ------------------------------------------------------------ fair schedules of the network

  /** Nothing new is asked of the services. Everything may happen to the channel. */
  predicate NetHarmless(s: NetStep) {
    s.Request? ==> Harmless(s.step)
  }

  ghost predicate NetGoesOn(a: seq<NetStep>, b: seq<NetStep>) {
    a <= b && forall i :: |a| <= i < |b| ==> NetHarmless(b[i])
  }

  lemma StepIsHarmless(net: Net, s: NetStep)
    requires Sized(net) && NetHarmless(s)
    ensures Abstract(net, s).Some? ==> Harmless(Abstract(net, s).value)
  {
  }

  lemma GoesOnByOne(a: seq<Step>, b: seq<Step>, more: Option<Step>)
    requires GoesOn(a, b) && (more.Some? ==> Harmless(more.value))
    ensures GoesOn(a, b + More(more))
  {
  }

  lemma {:induction false} TraceGoesOn(n: nat, a: seq<NetStep>, b: seq<NetStep>)
    requires NetGoesOn(a, b)
    ensures GoesOn(Trace(n, a), Trace(n, b))
    decreases |b|
  {
    if |b| == |a| {
      assert a == b;
    } else {
      var c, last := b[..|b| - 1], b[|b| - 1];
      assert c + [last] == b;
      TraceGoesOn(n, a, c);
      NetSnoc(n, c, last);
      StepIsHarmless(NetRun(n, c), last);
      GoesOnByOne(Trace(n, a), Trace(n, c), Abstract(NetRun(n, c), last));
    }
  }

  predicate ParkedBy(net: Net, who: Service, p: nat, k: nat) {
    match who
    case OrderSide => Delivery.DeadLettered(net.orders, p, k)
    case InventorySide => Delivery.DeadLettered(net.inventory, p, k)
    case PaymentSide => Delivery.DeadLettered(net.payments, p, k)
  }

  /** The group is past a copy of the event that it has not parked. */
  ghost predicate IsPast(net: Net, who: Service, id: EventId) {
    exists p: nat, k: nat :: PastCopy(net, who, id, p, k)
  }

  predicate PastCopy(net: Net, who: Service, id: EventId, p: nat, k: nat) {
    && p < |net.logs| && k < |net.logs[p]| && net.logs[p][k].Readable? && net.logs[p][k].id == id
    && p < |PositionOf(net, who)| && k < PositionOf(net, who)[p]
    && !ParkedBy(net, who, p, k)
  }

  /** A fair round of the network: at some moment of it, each group has moved past a copy, not parked, of
      each event that was published for it before the round. */
  ghost predicate NetFair(n: nat, a: seq<NetStep>, b: seq<NetStep>) {
    forall who: Service, id: EventId :: Wants(SystemOf(NetRun(n, a)), who, id) ==> PastDuring(n, a, b, who, id)
  }

  ghost predicate PastDuring(n: nat, a: seq<NetStep>, b: seq<NetStep>, who: Service, id: EventId) {
    exists m: nat :: |a| <= m <= |b| && IsPast(NetRun(n, b[..m]), who, id)
  }

  /** A group that is past a copy of an event meant for it has handled the event. */
  lemma PastIsHandled(n: nat, steps: seq<NetStep>, who: Service, id: EventId)
    requires IsPast(NetRun(n, steps), who, id) && Wants(SystemOf(NetRun(n, steps)), who, id)
    ensures id in ProcessedBy(SystemOf(NetRun(n, steps)), who)
  {
    var net := NetRun(n, steps);
    NetworkInvariants(n, steps);
    NetworkRefines(n, steps);
    var p: nat, k: nat :| PastCopy(net, who, id, p, k);
    assert TrueRecord(net.logs[p][k], BoxesOf(SystemOf(net)));
    match who {
      case OrderSide => assert Delivery.Resolved(OrderGroup(), OrderWorld(net), p, k);
      case InventorySide => assert Delivery.Resolved(InventoryGroup(), InventoryWorld(net), p, k);
      case PaymentSide => assert Delivery.Resolved(PaymentGroup(), PaymentWorld(net), p, k);
    }
  }

  /** What a stretch of the network keeps of the databases. */
  lemma NetKeeps(n: nat, a: seq<NetStep>, b: seq<NetStep>)
    requires NetGoesOn(a, b)
    ensures Extends(BoxesOf(SystemOf(NetRun(n, a))), BoxesOf(SystemOf(NetRun(n, b))))
    ensures Remembers(SystemOf(NetRun(n, a)), SystemOf(NetRun(n, b)))
  {
    NetworkRefines(n, a);
    NetworkRefines(n, b);
    TraceGoesOn(n, a, b);
    StageGoesOn(Trace(n, a), Trace(n, b), 0);
  }

  lemma NetGoesOnSplit(a: seq<NetStep>, b: seq<NetStep>, m: nat)
    requires NetGoesOn(a, b) && |a| <= m <= |b|
    ensures NetGoesOn(a, b[..m]) && NetGoesOn(b[..m], b)
  {
  }

  lemma PastStaysHandled(n: nat, a: seq<NetStep>, b: seq<NetStep>, who: Service, id: EventId)
    requires NetGoesOn(a, b) && PastDuring(n, a, b, who, id) && Wants(SystemOf(NetRun(n, a)), who, id)
    ensures id in ProcessedBy(SystemOf(NetRun(n, b)), who)
  {
    var m: nat :| |a| <= m <= |b| && IsPast(NetRun(n, b[..m]), who, id);
    NetGoesOnSplit(a, b, m);
    NetKeeps(n, a, b[..m]);
    NetKeeps(n, b[..m], b);
    WantsStays(SystemOf(NetRun(n, a)), SystemOf(NetRun(n, b[..m])), who, id);
    PastIsHandled(n, b[..m], who, id);
  }

  /** A fair round of the network is a fair round of the saga. */
  lemma NetFairIsFair(n: nat, a: seq<NetStep>, b: seq<NetStep>)
    requires NetGoesOn(a, b) && NetFair(n, a, b)
    ensures GoesOn(Trace(n, a), Trace(n, b)) && Fair(Run(Trace(n, a)), Run(Trace(n, b)))
  {
    TraceGoesOn(n, a, b);
    NetworkRefines(n, a);
    NetworkRefines(n, b);
    forall who: Service, id: EventId | Wants(SystemOf(NetRun(n, a)), who, id)
      ensures id in ProcessedBy(SystemOf(NetRun(n, b)), who)
    {
      assert PastDuring(n, a, b, who, id);
      PastStaysHandled(n, a, b, who, id);
    }
  }

  /** Every fair schedule settles: after four fair rounds in which nothing is started, with any crashes,
      lost batches, duplicates, rewinds, broken tries, junk and replays in between, everything published
      has been handled by everyone it is for, and the services agree exactly on what was not disturbed. */
  lemma FairSchedulesSettle(n: nat, s0: seq<NetStep>, s1: seq<NetStep>, s2: seq<NetStep>, s3: seq<NetStep>, s4: seq<NetStep>)
    requires NetGoesOn(s0, s1) && NetGoesOn(s1, s2) && NetGoesOn(s2, s3) && NetGoesOn(s3, s4)
    requires NetFair(n, s0, s1) && NetFair(n, s1, s2) && NetFair(n, s2, s3) && NetFair(n, s3, s4)
    ensures SystemOf(NetRun(n, s4)) == Run(Trace(n, s4)) && Stage(Run(Trace(n, s4)), 4)
    ensures forall o: OrderId :: Quiescent(SystemOf(NetRun(n, s4)), o)
    ensures forall o: OrderId :: o < |SystemOf(NetRun(n, s4)).orders.tables.orders| ==>
      (ServicesAgree(SystemOf(NetRun(n, s4)), o) <==> NothingDisturbed(Trace(n, s4), o))
  {
    NetFairIsFair(n, s0, s1);
    NetFairIsFair(n, s1, s2);
    NetFairIsFair(n, s2, s3);
    NetFairIsFair(n, s3, s4);
    FourFairRounds(Trace(n, s0), Trace(n, s1), Trace(n, s2), Trace(n, s3), Trace(n, s4));
    NetworkRefines(n, s4);
    forall o: OrderId | o < |SystemOf(NetRun(n, s4)).orders.tables.orders|
      ensures ServicesAgree(SystemOf(NetRun(n, s4)), o) <==> NothingDisturbed(Trace(n, s4), o)
    {
      AgreementIff(Trace(n, s4), o);
    }
  }

  /** And once settled, the network is drained whenever every row is marked and every group is at the end
      of every partition. */
  lemma FairSchedulesDrain(n: nat, s4: seq<NetStep>, r: seq<NetStep>)
    requires Stage(SystemOf(NetRun(n, s4)), 4) && NetGoesOn(s4, r)
    requires var net := NetRun(n, r);
      AllMarked(net) && CaughtUp(OrderWorld(net)) && CaughtUp(InventoryWorld(net)) && CaughtUp(PaymentWorld(net))
    ensures Drained(NetRun(n, r))
  {
    NetworkRefines(n, s4);
    NetworkRefines(n, r);
    TraceGoesOn(n, s4, r);
    StaysSettled(Trace(n, s4), Trace(n, r));
    NothingLeft(n, r);
  }
}
