/** From any state, deliveries alone settle everything: five rounds are enough. */
module SagaLiveness {
  import opened Prelude
  import opened Events
  import opened OrderStatuses
  import opened SagaSystem
  import opened SagaViews
  import opened SagaProjection
  import opened SagaSimulation
  import opened SagaRuns
  import opened SagaTheorems
  import Delivery
  import Inventory
  import Orders
  import Payments

  // ------------------------------------------------------------ one delivery

  function Handles(who: Service, id: EventId, provider: Payments.Provider): Step {
    match who
    case OrderSide => OrderHandles(id, 0)
    case InventorySide => InventoryHandles(id, 0)
    case PaymentSide => PaymentHandles(id, provider)
  }

  function ProcessedBy(sys: System, who: Service): seq<EventId> {
    match who
    case OrderSide => sys.orders.processed
    case InventorySide => sys.inventory.processed
    case PaymentSide => sys.payments.processed
  }

  predicate Subscribes(who: Service, k: Kind) {
    match who
    case OrderSide => Orders.Subscribes(k)
    case InventorySide => Inventory.Subscribes(k)
    case PaymentSide => Payments.Subscribes(k)
  }

  /** What a service may publish when it handles something. */
  function Answers(who: Service): set<Kind> {
    match who
    case OrderSide => {Confirmed, Cancelled}
    case InventorySide => {Stock, Reserved, Refused}
    case PaymentSide => {Succeeded, Declined, Refunded}
  }

  /** What it may publish when it has handled every event of its opening kind before. */
  function LateAnswers(who: Service): set<Kind> {
    match who
    case OrderSide => {Confirmed, Cancelled}
    case InventorySide => {Stock}
    case PaymentSide => {Refunded}
  }

  /** Every published event of a kind in `kinds` has been handled by `who`. */
  ghost predicate HasHandled(sys: System, who: Service, kinds: set<Kind>) {
    forall id: EventId ::
      Lookup(BoxesOf(sys), id).Some? && KindOf(Lookup(BoxesOf(sys), id).value) in kinds ==> id in ProcessedBy(sys, who)
  }

  function Opening(who: Service): set<Kind> {
    match who
    case OrderSide => {}
    case InventorySide => {Kind.Created}
    case PaymentSide => {Reserved}
  }

  /** The outboxes grow by events of these kinds only. */
  ghost predicate Gains(a: System, b: System, kinds: set<Kind>) {
    && Extends(BoxesOf(a), BoxesOf(b))
    && forall id: EventId :: Lookup(BoxesOf(b), id).Some? && Lookup(BoxesOf(a), id) == None ==>
      KindOf(Lookup(BoxesOf(b), id).value) in kinds
  }

  /** No marker is ever removed. */
  ghost predicate Remembers(a: System, b: System) {
    forall who: Service, id: EventId :: id in ProcessedBy(a, who) ==> id in ProcessedBy(b, who)
  }

  lemma GainsFrom(a: System, b: System, who: Service, kinds: set<Kind>)
    requires forall s :: s != who ==> Box(BoxesOf(a), s) == Box(BoxesOf(b), s)
    requires Box(BoxesOf(a), who) <= Box(BoxesOf(b), who)
    requires forall i :: |Box(BoxesOf(a), who)| <= i < |Box(BoxesOf(b), who)| ==> KindOf(Box(BoxesOf(b), who)[i]) in kinds
    ensures Gains(a, b, kinds)
  {
    assert Box(BoxesOf(a), OrderSide) <= Box(BoxesOf(b), OrderSide);
    assert Box(BoxesOf(a), InventorySide) <= Box(BoxesOf(b), InventorySide);
    assert Box(BoxesOf(a), PaymentSide) <= Box(BoxesOf(b), PaymentSide);
  }

  /** The kinds of the events behind the first `n` of a box. */
  ghost predicate TailIn(before: seq<Event>, after: seq<Event>, kinds: set<Kind>) {
    before <= after && forall i :: |before| <= i < |after| ==> KindOf(after[i]) in kinds
  }

  lemma OrderAnswers(db: Orders.Db, e: Event, now: int)
    requires Orders.Handle(db, e, now).Some?
    ensures TailIn(db.outbox, Orders.Handle(db, e, now).value.outbox, Answers(OrderSide))
  {
  }

  lemma ReserveAnswers(db: Inventory.Db, q: Inventory.ReserveRequest, expiresAt: int)
    ensures TailIn(db.outbox, Inventory.Reserve(db, q, expiresAt).outbox, Answers(InventorySide))
  {
    if Inventory.Decide(db, q) == Inventory.Granted {
      HoldPart(db, q, expiresAt, q.order);
    }
  }

  lemma InventoryAnswers(db: Inventory.Db, e: Event, now: int)
    requires Inventory.Handle(db, e, now).Some? && Inventory.Subscribes(KindOf(e))
    ensures TailIn(db.outbox, Inventory.Handle(db, e, now).value.outbox,
                   if e.OrderCreated? then Answers(InventorySide) else LateAnswers(InventorySide))
  {
    match e {
      case OrderCreated(_, _, _, _, _, _) => ReserveAnswers(db, Inventory.RequestOf(e), now + Inventory.RESERVATION_TTL);
      case PaymentSucceeded(o, _, _, _, _) => CommitPart(db, o, o);
      case PaymentFailed(o, _, _, _, _, _, _) => ReleasePart(db, o, o);
      case OrderCancelled(o, _, _, _, _) => ReleasePart(db, o, o);
      case _ =>
    }
  }

  lemma PaymentAnswers(db: Payments.Db, e: Event, provider: Payments.Provider)
    requires Payments.Handle(db, e, provider).Some? && Payments.Subscribes(KindOf(e))
    ensures TailIn(db.outbox, Payments.Handle(db, e, provider).value.outbox,
                   if e.InventoryReserved? then Answers(PaymentSide) else LateAnswers(PaymentSide))
  {
  }

  lemma NeverRaises(steps: seq<Step>, id: EventId, now: int, provider: Payments.Provider)
    requires Lookup(BoxesOf(Run(steps)), id).Some?
    ensures Orders.Handle(Run(steps).orders.tables, Lookup(BoxesOf(Run(steps)), id).value, now).Some?
    ensures Inventory.Handle(Run(steps).inventory.tables, Lookup(BoxesOf(Run(steps)), id).value, now).Some?
    ensures Payments.Handle(Run(steps).payments.tables, Lookup(BoxesOf(Run(steps)), id).value, provider).Some?
  {
    EveryRunKeepsInv(steps);
    HandlersNeverRaise(Run(steps), id, now, provider);
  }

  /** `id` is published, and for `who`. */
  predicate Wants(sys: System, who: Service, id: EventId) {
    Lookup(BoxesOf(sys), id).Some? && Subscribes(who, KindOf(Lookup(BoxesOf(sys), id).value))
  }

  /** The effect of a delivery on markers and outboxes. */
  ghost predicate Delivered(a: System, b: System, who: Service, id: EventId) {
    && Remembers(a, b)
    && Gains(a, b, Answers(who))
    && (HasHandled(a, who, Opening(who)) ==> Gains(a, b, LateAnswers(who)))
    && (Wants(a, who, id) ==> id in ProcessedBy(b, who))
  }

  lemma NothingHappens(a: System, who: Service)
    ensures Remembers(a, a) && Gains(a, a, Answers(who)) && Gains(a, a, LateAnswers(who))
  {
  }

  lemma OrderDelivery(steps: seq<Step>, id: EventId, now: int, provider: Payments.Provider)
    ensures Delivered(Run(steps), OrderConsumes(Run(steps), id, now), OrderSide, id)
  {
    var a := Run(steps);
    var b := OrderConsumes(a, id, now);
    NothingHappens(a, OrderSide);
    if Delivers(BoxesOf(a), a.orders.processed, id) && Orders.Subscribes(KindOf(Lookup(BoxesOf(a), id).value)) {
      NeverRaises(steps, id, now, provider);
      OrderAnswers(a.orders.tables, Lookup(BoxesOf(a), id).value, now);
      GainsFrom(a, b, OrderSide, Answers(OrderSide));
      assert b.orders.processed[|a.orders.processed|] == id;
    }
  }

  lemma InventoryDelivery(steps: seq<Step>, id: EventId, now: int, provider: Payments.Provider)
    ensures Delivered(Run(steps), InventoryConsumes(Run(steps), id, now), InventorySide, id)
  {
    var a := Run(steps);
    var b := InventoryConsumes(a, id, now);
    NothingHappens(a, InventorySide);
    if Delivers(BoxesOf(a), a.inventory.processed, id) && Inventory.Subscribes(KindOf(Lookup(BoxesOf(a), id).value)) {
      var e := Lookup(BoxesOf(a), id).value;
      NeverRaises(steps, id, now, provider);
      InventoryAnswers(a.inventory.tables, e, now);
      GainsFrom(a, b, InventorySide, Answers(InventorySide));
      if !e.OrderCreated? {
        GainsFrom(a, b, InventorySide, LateAnswers(InventorySide));
      }
      assert b.inventory.processed[|a.inventory.processed|] == id;
    }
  }

  lemma PaymentDelivery(steps: seq<Step>, id: EventId, provider: Payments.Provider)
    ensures Delivered(Run(steps), PaymentConsumes(Run(steps), id, provider), PaymentSide, id)
  {
    var a := Run(steps);
    var b := PaymentConsumes(a, id, provider);
    NothingHappens(a, PaymentSide);
    if Delivers(BoxesOf(a), a.payments.processed, id) && Payments.Subscribes(KindOf(Lookup(BoxesOf(a), id).value)) {
      var e := Lookup(BoxesOf(a), id).value;
      NeverRaises(steps, id, 0, provider);
      PaymentAnswers(a.payments.tables, e, provider);
      GainsFrom(a, b, PaymentSide, Answers(PaymentSide));
      if !e.InventoryReserved? {
        GainsFrom(a, b, PaymentSide, LateAnswers(PaymentSide));
      }
      assert b.payments.processed[|a.payments.processed|] == id;
    }
  }

  function ReceiverOf(step: Step): Service
    requires !IsRequest(step)
  {
    match step
    case OrderHandles(_, _) => OrderSide
    case InventoryHandles(_, _) => InventorySide
    case PaymentHandles(_, _) => PaymentSide
  }

  /** Any delivery, at any time. */
  lemma AnyDelivery(steps: seq<Step>, step: Step)
    requires !IsRequest(step)
    ensures Delivered(Run(steps), Run(steps + [step]), ReceiverOf(step), step.id)
  {
    RunSnoc(steps, step);
    DeliveryIs(Run(steps), step);
    match step {
      case OrderHandles(id, now) => OrderDelivery(steps, id, now, Payments.Provider(false, ""));
      case InventoryHandles(id, now) => InventoryDelivery(steps, id, now, Payments.Provider(false, ""));
      case PaymentHandles(id, provider) => PaymentDelivery(steps, id, provider);
    }
  }

  lemma OneDelivery(steps: seq<Step>, who: Service, id: EventId, provider: Payments.Provider)
    ensures Delivered(Run(steps), Run(steps + [Handles(who, id, provider)]), who, id)
  {
    AnyDelivery(steps, Handles(who, id, provider));
  }

  // ------------------------------------------------------------ one round

  function Ids(s: Service, n: nat): seq<EventId> {
    if n == 0 then [] else Ids(s, n - 1) + [EventId(s, n - 1)]
  }

  /** Everything published so far. */
  function AllIds(b: Boxes): seq<EventId> {
    Ids(OrderSide, |b.orders|) + Ids(InventorySide, |b.inventory|) + Ids(PaymentSide, |b.payments|)
  }

  lemma {:induction false} IdsContain(s: Service, n: nat, i: nat)
    requires i < n
    ensures EventId(s, i) in Ids(s, n)
  {
    if i < n - 1 {
      IdsContain(s, n - 1, i);
    }
  }

  lemma AllIdsContain(b: Boxes, id: EventId)
    requires Lookup(b, id).Some?
    ensures id in AllIds(b)
  {
    IdsContain(id.producer, |Box(b, id.producer)|, id.index);
  }

  function Deliveries(who: Service, ids: seq<EventId>, provider: Payments.Provider): seq<Step> {
    if |ids| == 0 then []
    else Deliveries(who, ids[..|ids| - 1], provider) + [Handles(who, ids[|ids| - 1], provider)]
  }

  lemma GainsTrans(a: System, b: System, c: System, kinds: set<Kind>)
    requires Gains(a, b, kinds) && Gains(b, c, kinds)
    ensures Gains(a, c, kinds)
  {
    forall id: EventId | Lookup(BoxesOf(c), id).Some? && Lookup(BoxesOf(a), id) == None
      ensures KindOf(Lookup(BoxesOf(c), id).value) in kinds
    {
      if Lookup(BoxesOf(b), id).Some? {
        KindsStay(BoxesOf(b), BoxesOf(c), id, 0);
      }
    }
  }

  /** What has been handled stays so while nothing of the kind is published. */
  lemma HandledStays(a: System, b: System, who: Service, kinds: set<Kind>, gained: set<Kind>)
    requires HasHandled(a, who, kinds) && Gains(a, b, gained) && Remembers(a, b) && kinds !! gained
    ensures HasHandled(b, who, kinds)
  {
    forall id: EventId | Lookup(BoxesOf(b), id).Some? && KindOf(Lookup(BoxesOf(b), id).value) in kinds
      ensures id in ProcessedBy(b, who)
    {
      if Lookup(BoxesOf(a), id).Some? {
        KindsStay(BoxesOf(a), BoxesOf(b), id, 0);
      }
    }
  }

  /** The effect of delivering `ids`, all of them known to `a`, to `who`. */
  ghost predicate Round(a: System, b: System, who: Service, ids: seq<EventId>) {
    && Remembers(a, b)
    && Gains(a, b, Answers(who))
    && (HasHandled(a, who, Opening(who)) ==> Gains(a, b, LateAnswers(who)))
    && AllHandled(a, b, who, ids)
  }

  ghost predicate AllHandled(a: System, b: System, who: Service, ids: seq<EventId>) {
    forall id :: id in ids && Wants(a, who, id) ==> id in ProcessedBy(b, who)
  }

  lemma RoundSnoc(a: System, b: System, c: System, who: Service, ids: seq<EventId>, id: EventId)
    requires Round(a, b, who, ids) && Delivered(b, c, who, id)
    ensures Round(a, c, who, ids + [id])
  {
    GainsTrans(a, b, c, Answers(who));
    if HasHandled(a, who, Opening(who)) {
      HandledStays(a, b, who, Opening(who), LateAnswers(who));
      GainsTrans(a, b, c, LateAnswers(who));
    }
    forall x | x in ids + [id] && Wants(a, who, x)
      ensures x in ProcessedBy(c, who)
    {
      KindsStay(BoxesOf(a), BoxesOf(b), x, 0);
    }
  }

  lemma {:induction false} OneRound(steps: seq<Step>, who: Service, ids: seq<EventId>, provider: Payments.Provider)
    ensures Round(Run(steps), Run(steps + Deliveries(who, ids, provider)), who, ids)
  {
    if |ids| == 0 {
      assert steps + [] == steps;
      NothingHappens(Run(steps), who);
    } else {
      var init, last := ids[..|ids| - 1], ids[|ids| - 1];
      var before := steps + Deliveries(who, init, provider);
      OneRound(steps, who, init, provider);
      OneDelivery(before, who, last, provider);
      RoundSnoc(Run(steps), Run(before), Run(before + [Handles(who, last, provider)]), who, init, last);
      assert before + [Handles(who, last, provider)] == steps + Deliveries(who, ids, provider);
      assert init + [last] == ids;
    }
  }

  /** Deliver to `who` everything published so far. */
  function RoundOf(steps: seq<Step>, who: Service, provider: Payments.Provider): seq<Step> {
    steps + Deliveries(who, AllIds(BoxesOf(Run(steps))), provider)
  }

  function Subscriptions(who: Service): set<Kind> {
    match who
    case OrderSide => {Reserved, Refused, Succeeded, Declined}
    case InventorySide => {Kind.Created, Succeeded, Declined, Cancelled}
    case PaymentSide => {Reserved, Cancelled}
  }

  /** A round: some deliveries to `who`, after which it has handled every event it subscribes to. */
  ghost predicate Rounded(a: System, b: System, who: Service) {
    && Remembers(a, b)
    && Gains(a, b, Answers(who))
    && (HasHandled(a, who, Opening(who)) ==> Gains(a, b, LateAnswers(who)))
    && HasHandled(b, who, Subscriptions(who))
  }

  /** A service publishes nothing it subscribes to: what was published before its round is all it has
      to handle. */
  lemma HandledBefore(a: System, b: System, who: Service, ids: seq<EventId>)
    requires Gains(a, b, Answers(who)) && AllHandled(a, b, who, ids)
    requires forall id: EventId :: Lookup(BoxesOf(a), id).Some? ==> id in ids
    ensures HasHandled(b, who, Subscriptions(who))
  {
    forall id: EventId | Lookup(BoxesOf(b), id).Some? && KindOf(Lookup(BoxesOf(b), id).value) in Subscriptions(who)
      ensures id in ProcessedBy(b, who)
    {
      if Lookup(BoxesOf(a), id).Some? {
        KindsStay(BoxesOf(a), BoxesOf(b), id, 0);
      }
    }
  }

  lemma AllPublished(b: Boxes)
    ensures forall id: EventId :: Lookup(b, id).Some? ==> id in AllIds(b)
  {
    forall id: EventId | Lookup(b, id).Some?
      ensures id in AllIds(b)
    {
      AllIdsContain(b, id);
    }
  }

  lemma RoundHandlesAll(steps: seq<Step>, who: Service, provider: Payments.Provider)
    ensures Rounded(Run(steps), Run(RoundOf(steps, who, provider)), who)
  {
    var a, b := Run(steps), Run(RoundOf(steps, who, provider));
    OneRound(steps, who, AllIds(BoxesOf(a)), provider);
    AllPublished(BoxesOf(a));
    HandledBefore(a, b, who, AllIds(BoxesOf(a)));
  }

  // ------------------------------------------------------------ five rounds

  /** `r` goes on from `steps` by deliveries alone. */
  ghost predicate Continues(steps: seq<Step>, r: seq<Step>) {
    steps <= r && forall i :: |steps| <= i < |r| ==> !IsRequest(r[i])
  }

  lemma {:induction false} DeliveriesOnly(who: Service, ids: seq<EventId>, provider: Payments.Provider)
    ensures forall i :: 0 <= i < |Deliveries(who, ids, provider)| ==> !IsRequest(Deliveries(who, ids, provider)[i])
  {
    if |ids| > 0 {
      DeliveriesOnly(who, ids[..|ids| - 1], provider);
    }
  }

  lemma RoundContinues(steps: seq<Step>, r: seq<Step>, who: Service, provider: Payments.Provider)
    requires Continues(steps, r)
    ensures Continues(steps, RoundOf(r, who, provider))
  {
    DeliveriesOnly(who, AllIds(BoxesOf(Run(r))), provider);
  }

  lemma FewerKinds(sys: System, who: Service, more: set<Kind>, kinds: set<Kind>)
    requires HasHandled(sys, who, more) && kinds <= more
    ensures HasHandled(sys, who, kinds)
  {
  }

  /** Creations, then reservations: after two rounds neither of them is left. */
  lemma TwoRounds(s0: System, s1: System, s2: System)
    requires Rounded(s0, s1, InventorySide) && Rounded(s1, s2, PaymentSide)
    ensures HasHandled(s2, InventorySide, Opening(InventorySide))
    ensures HasHandled(s2, PaymentSide, Opening(PaymentSide))
  {
    FewerKinds(s1, InventorySide, Subscriptions(InventorySide), Opening(InventorySide));
    HandledStays(s1, s2, InventorySide, Opening(InventorySide), Answers(PaymentSide));
    FewerKinds(s2, PaymentSide, Subscriptions(PaymentSide), Opening(PaymentSide));
  }

  /** Then results: three rounds leave only the answers to results. */
  lemma ThirdRound(s2: System, s3: System)
    requires HasHandled(s2, InventorySide, Opening(InventorySide)) && HasHandled(s2, PaymentSide, Opening(PaymentSide))
    requires Rounded(s2, s3, OrderSide)
    ensures HasHandled(s3, InventorySide, Opening(InventorySide)) && HasHandled(s3, PaymentSide, Opening(PaymentSide))
    ensures HasHandled(s3, OrderSide, Subscriptions(OrderSide))
  {
    HandledStays(s2, s3, InventorySide, Opening(InventorySide), Answers(OrderSide));
    HandledStays(s2, s3, PaymentSide, Opening(PaymentSide), Answers(OrderSide));
  }

  /** Which two more rounds settle without causing any that somebody subscribes to. */
  lemma LastRounds(s3: System, s4: System, s5: System)
    requires HasHandled(s3, InventorySide, Opening(InventorySide)) && HasHandled(s3, PaymentSide, Opening(PaymentSide))
    requires HasHandled(s3, OrderSide, Subscriptions(OrderSide))
    requires Rounded(s3, s4, InventorySide) && Rounded(s4, s5, PaymentSide)
    ensures HandledByAll(s5)
  {
    HandledStays(s3, s4, OrderSide, Subscriptions(OrderSide), LateAnswers(InventorySide));
    HandledStays(s3, s4, PaymentSide, Opening(PaymentSide), LateAnswers(InventorySide));
    HandledStays(s4, s5, OrderSide, Subscriptions(OrderSide), LateAnswers(PaymentSide));
    HandledStays(s4, s5, InventorySide, Subscriptions(InventorySide), LateAnswers(PaymentSide));
  }

  /** Everything published has been handled by everyone it is for. */
  ghost predicate HandledByAll(sys: System) {
    && HasHandled(sys, OrderSide, Subscriptions(OrderSide))
    && HasHandled(sys, InventorySide, Subscriptions(InventorySide))
    && HasHandled(sys, PaymentSide, Subscriptions(PaymentSide))
  }

  lemma FiveRounds(s0: System, s1: System, s2: System, s3: System, s4: System, s5: System)
    requires Rounded(s0, s1, InventorySide) && Rounded(s1, s2, PaymentSide) && Rounded(s2, s3, OrderSide)
    requires Rounded(s3, s4, InventorySide) && Rounded(s4, s5, PaymentSide)
    ensures HandledByAll(s5)
  {
    TwoRounds(s0, s1, s2);
    ThirdRound(s2, s3);
    LastRounds(s3, s4, s5);
  }

  lemma RoundAfter(steps: seq<Step>, r: seq<Step>, who: Service, provider: Payments.Provider) returns (next: seq<Step>)
    requires Continues(steps, r)
    ensures Continues(steps, next) && Rounded(Run(r), Run(next), who)
  {
    next := RoundOf(r, who, provider);
    RoundContinues(steps, r, who, provider);
    RoundHandlesAll(r, who, provider);
  }

  /** Every run can be continued, by deliveries alone, until nothing published is left unhandled: the
      situation `AgreementIff` speaks about is always within reach. */
  lemma CanAlwaysQuiesce(steps: seq<Step>, provider: Payments.Provider) returns (r: seq<Step>)
    ensures Continues(steps, r)
    ensures forall o: OrderId :: Quiescent(Run(r), o)
  {
    var r1 := RoundAfter(steps, steps, InventorySide, provider);
    var r2 := RoundAfter(steps, r1, PaymentSide, provider);
    var r3 := RoundAfter(steps, r2, OrderSide, provider);
    var r4 := RoundAfter(steps, r3, InventorySide, provider);
    r := RoundAfter(steps, r4, PaymentSide, provider);
    FiveRounds(Run(steps), Run(r1), Run(r2), Run(r3), Run(r4), Run(r));
    forall id: EventId
      ensures Settled(Run(r), id)
    {
      AllSettled(Run(r), id);
    }
  }

  lemma AllSettled(sys: System, id: EventId)
    requires HandledByAll(sys)
    ensures Settled(sys, id)
  {
    assert id in ProcessedBy(sys, OrderSide) <==> id in sys.orders.processed;
    assert id in ProcessedBy(sys, InventorySide) <==> id in sys.inventory.processed;
    assert id in ProcessedBy(sys, PaymentSide) <==> id in sys.payments.processed;
  }
}
