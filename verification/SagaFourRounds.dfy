/** The bound of `SagaFairness` is exact: three fair rounds can leave a cancellation unheard. */
module SagaFourRounds {
  import opened Prelude
  import opened Events
  import opened OrderStatuses
  import opened SagaAutomaton
  import opened SagaSystem
  import opened SagaProjection
  import opened SagaSimulation
  import opened SagaRuns
  import opened SagaTheorems
  import opened SagaLiveness
  import opened SagaFairness
  import opened SagaDisturbances
  import opened SagaLateRetry
  import SagaEarlyCancel
  import SagaCounterexamples
  import Orders
  import Inventory
  import Payments

  /** By `m`, everyone has heard of each kind that was published at `l`. */
  predicate HeardSince(l: Local, m: Local) {
    && (l.created > 0 ==> Kind.Created in m.inventorySaw)
    && (l.reserved > 0 ==> Reserved in m.orderSaw && Reserved in m.paymentSaw)
    && (l.refused > 0 ==> Refused in m.orderSaw)
    && (l.succeeded > 0 ==> Succeeded in m.orderSaw && Succeeded in m.inventorySaw)
    && (l.declined > 0 ==> Declined in m.orderSaw && Declined in m.inventorySaw)
    && (l.cancelled > 0 ==> Cancelled in m.inventorySaw && Cancelled in m.paymentSaw)
  }

  function SawOf(l: Local, who: Service): set<Kind> {
    match who
    case OrderSide => l.orderSaw
    case InventorySide => l.inventorySaw
    case PaymentSide => l.paymentSaw
  }

  lemma HeardKind(a: System, l: Local, m: Local, who: Service, id: EventId, k: Kind, o: OrderId)
    requires Produced(BoxesOf(a)) && l == View(a, o) && HeardSince(l, m)
    requires Names(a, id, k, o) && Subscribes(who, k)
    ensures k in SawOf(m, who)
  {
    PublishedIsCounted(BoxesOf(a), id, k, o);
  }

  /** An event of the one order, heard of by `who`, was handled under its own id. */
  lemma HeardIsHandled(b: System, who: Service, id: EventId, k: Kind, o: OrderId)
    requires Produced(BoxesOf(b)) && LocalsOk(b) && View(b, o).declined <= 1
    requires Names(b, id, k, o) && Subscribes(who, k) && k in SawOf(View(b, o), who)
    ensures id in ProcessedBy(b, who)
  {
    OnlyOneOf(View(b, o), k);
    PublishedMeansKnown(b, id, o);
    match who {
      case OrderSide => SeenIsHandled(BoxesOf(b), b.orders.processed, id, k, o);
      case InventorySide => SeenIsHandled(BoxesOf(b), b.inventory.processed, id, k, o);
      case PaymentSide => SeenIsHandled(BoxesOf(b), b.payments.processed, id, k, o);
    }
  }

  lemma OnlyOrderZero(a: System, id: EventId, k: Kind, o: OrderId)
    requires Produced(BoxesOf(a)) && LocalsOk(a) && |a.orders.tables.orders| == 1
    requires Names(a, id, k, o) && k != Confirmed && k != Refunded && k != Stock
    ensures o == 0
  {
    PublishedMeansKnown(a, id, o);
  }

  lemma RunFacts(steps: seq<Step>)
    ensures Produced(BoxesOf(Run(steps))) && LocalsOk(Run(steps))
  {
    EveryRunKeepsInv(steps);
  }

  lemma OneEventIsFair(a: System, b: System, who: Service, id: EventId)
    requires Produced(BoxesOf(a)) && LocalsOk(a) && Produced(BoxesOf(b)) && LocalsOk(b) && Extends(BoxesOf(a), BoxesOf(b))
    requires |a.orders.tables.orders| == 1 && HeardSince(View(a, 0), View(b, 0)) && View(b, 0).declined <= 1
    requires Wants(a, who, id)
    ensures id in ProcessedBy(b, who)
  {
    var e := Lookup(BoxesOf(a), id).value;
    var k := KindOf(e);
    OnlyOrderZero(a, id, k, e.order);
    NamesStays(a, b, id, k, 0);
    HeardKind(a, View(a, 0), View(b, 0), who, id, k, 0);
    HeardIsHandled(b, who, id, k, 0);
  }

  /** With a single order, a round is fair when everyone has heard of what was published about it. */
  lemma OneOrderIsFair(a: seq<Step>, b: seq<Step>)
    requires GoesOn(a, b) && |Run(a).orders.tables.orders| == 1
    requires HeardSince(View(Run(a), 0), View(Run(b), 0)) && View(Run(b), 0).declined <= 1
    ensures Fair(Run(a), Run(b))
  {
    RunFacts(a);
    RunFacts(b);
    StageGoesOn(a, b, 0);
    forall who: Service, id: EventId | Wants(Run(a), who, id)
      ensures id in ProcessedBy(Run(b), who)
    {
      OneEventIsFair(Run(a), Run(b), who, id);
    }
  }

  // ------------------------------------------------------------ a declined order

  lemma DeliveriesAddNoOrder(steps: seq<Step>, id: EventId, provider: Payments.Provider)
    ensures Run(steps + [PaymentHandles(id, provider)]).orders == Run(steps).orders
    ensures |Run(steps + [OrderHandles(id, 0)]).orders.tables.orders| == |Run(steps).orders.tables.orders|
  {
    RunPayment(steps, id, provider);
    RunOrder(steps, id);
  }

  lemma TwoStepsGoOn(steps: seq<Step>, a: Step, b: Step)
    requires Harmless(a) && Harmless(b)
    ensures GoesOn(steps, steps + [a] + [b])
  {
  }

  /** The decline of the one order, in two rounds: charged and told of its reservation, then told of the
      decline. The cancellation that the decline causes comes after both. */
  lemma DeclineRounds(s1: seq<Step>, id: EventId, declines: Payments.Provider) returns (s2: seq<Step>, s3: seq<Step>)
    requires |Run(s1).orders.tables.orders| == 1 && Waiting(Run(s1), 0, id) && !Captures(Run(s1), id, declines)
    ensures GoesOn(s1, s2) && GoesOn(s2, s3)
    ensures Fair(Run(s1), Run(s2)) && Fair(Run(s2), Run(s3))
    ensures View(Run(s3), 0) == LET_GO
  {
    var result := NextResult(Run(s1));
    s2 := s1 + [PaymentHandles(id, declines)] + [OrderHandles(id, 0)];
    s3 := s2 + [OrderHandles(result, 0)] + [InventoryHandles(result, 0)];
    TwoStepsGoOn(s1, PaymentHandles(id, declines), OrderHandles(id, 0));
    TwoStepsGoOn(s2, OrderHandles(result, 0), InventoryHandles(result, 0));
    DeclineFirst(s1, 0, id, declines);
    DeclineLetsGo(s1, 0, id, declines);
    InOneGo(s1, PaymentHandles(id, declines), OrderHandles(id, 0), OrderHandles(result, 0), InventoryHandles(result, 0));
    DeliveriesAddNoOrder(s1, id, declines);
    DeliveriesAddNoOrder(s1 + [PaymentHandles(id, declines)], id, declines);
    OneOrderIsFair(s1, s2);
    OneOrderIsFair(s2, s3);
  }

  lemma LetGoIsNotQuiet(steps: seq<Step>)
    requires View(Run(steps), 0) == LET_GO
    ensures !Quiescent(Run(steps), 0)
  {
    if Quiescent(Run(steps), 0) {
      QuiescentIsQuiet(Run(steps), 0);
      assert false;
    }
  }

  /** The round that holds the order's stock. */
  lemma HoldingRound(s0: seq<Step>, s1: seq<Step>)
    requires GoesOn(s0, s1) && |Run(s0).orders.tables.orders| == 1
    requires View(Run(s0), 0) == SagaEarlyCancel.PLACED && View(Run(s1), 0) == WAITING
    ensures Fair(Run(s0), Run(s1))
  {
    OneOrderIsFair(s0, s1);
  }

  lemma PrefixGoesOn(steps: seq<Step>, k: nat)
    requires k < |steps| && forall i :: k <= i < |steps| ==> Harmless(steps[i])
    ensures GoesOn(steps[..k], steps)
  {
  }

  lemma HoldGoesOn()
    ensures GoesOn(SagaCounterexamples.PREFIX[..3], SagaCounterexamples.PREFIX)
  {
    PrefixGoesOn(SagaCounterexamples.PREFIX, 3);
  }

  /** Where the counterexamples start. */
  lemma Beginning() returns (s0: seq<Step>, s1: seq<Step>, id: EventId, declines: Payments.Provider)
    ensures GoesOn(s0, s1) && |Run(s0).orders.tables.orders| == 1 && |Run(s1).orders.tables.orders| == 1
    ensures View(Run(s0), 0) == SagaEarlyCancel.PLACED
    ensures Waiting(Run(s1), 0, id) && !Captures(Run(s1), id, declines)
  {
    s0, s1 := SagaCounterexamples.PREFIX[..3], SagaCounterexamples.PREFIX;
    id, declines := SagaCounterexamples.RESERVED, SagaCounterexamples.DECLINES;
    HoldGoesOn();
    SagaCounterexamples.WaitingIsReachable();
    SagaCounterexamples.UnheardIsReachable();
    SagaCounterexamples.OneOrderFrom();
    SagaCounterexamples.PlacedTotal();
  }

  /** One order, declined: after three fair rounds its cancellation is still on its way. */
  lemma ThreeRoundsAreNotEnough() returns (s0: seq<Step>, s1: seq<Step>, s2: seq<Step>, s3: seq<Step>)
    ensures GoesOn(s0, s1) && GoesOn(s1, s2) && GoesOn(s2, s3)
    ensures Fair(Run(s0), Run(s1)) && Fair(Run(s1), Run(s2)) && Fair(Run(s2), Run(s3))
    ensures !Quiescent(Run(s3), 0)
  {
    var id: EventId, declines: Payments.Provider;
    s0, s1, id, declines := Beginning();
    HoldingRound(s0, s1);
    s2, s3 := DeclineRounds(s1, id, declines);
    LetGoIsNotQuiet(s3);
  }
}
