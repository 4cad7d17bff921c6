/** Each order's `Local`, read off the three databases, and the invariant of the whole system. */
module SagaProjection {
  import opened Prelude
  import opened Events
  import opened OrderStatuses
  import opened SagaAutomaton
  import opened SagaSystem
  import opened SagaViews
  import Delivery
  import Inventory
  import InventoryLedger
  import Orders
  import OrderInvariants
  import Payments

  // ------------------------------------------------------------ what has been handled

  /** The kind of event `id` is, when it is about order `o`. */
  function KindsAt(b: Boxes, id: EventId, o: OrderId): set<Kind> {
    match Lookup(b, id)
    case None => {}
    case Some(e) => if Is(e, KindOf(e), o) then {KindOf(e)} else {}
  }

  /** The kinds of event about `o` that a service has handled. */
  function Seen(b: Boxes, processed: seq<EventId>, o: OrderId): set<Kind> {
    if |processed| == 0 then {}
    else Seen(b, processed[..|processed| - 1], o) + KindsAt(b, processed[|processed| - 1], o)
  }

  /** Was an event of kind `first` about `o` handled when none of kind `second` had been? */
  function HeardFirst(b: Boxes, processed: seq<EventId>, o: OrderId, first: Kind, second: Kind): bool {
    if |processed| == 0 then false
    else
      var init := processed[..|processed| - 1];
      || HeardFirst(b, init, o, first, second)
      || (first in KindsAt(b, processed[|processed| - 1], o) && second !in Seen(b, init, o))
  }

  ghost predicate Known(b: Boxes, processed: seq<EventId>) {
    forall i :: 0 <= i < |processed| ==> Lookup(b, processed[i]).Some?
  }

  /** Outboxes only grow. */
  ghost predicate Extends(a: Boxes, b: Boxes) {
    a.orders <= b.orders && a.inventory <= b.inventory && a.payments <= b.payments
  }

  lemma KindsStay(a: Boxes, b: Boxes, id: EventId, o: OrderId)
    requires Extends(a, b) && Lookup(a, id).Some?
    ensures Lookup(b, id) == Lookup(a, id) && KindsAt(b, id, o) == KindsAt(a, id, o)
  {
    assert Box(a, id.producer) <= Box(b, id.producer);
  }

  /** What was handled does not change when more is published. */
  lemma {:induction false} SeenStays(a: Boxes, b: Boxes, processed: seq<EventId>, o: OrderId)
    requires Extends(a, b) && Known(a, processed)
    ensures Known(b, processed)
    ensures Seen(b, processed, o) == Seen(a, processed, o)
  {
    if |processed| > 0 {
      SeenStays(a, b, processed[..|processed| - 1], o);
      KindsStay(a, b, processed[|processed| - 1], o);
    }
  }

  lemma {:induction false} HeardStays(a: Boxes, b: Boxes, processed: seq<EventId>, o: OrderId, first: Kind, second: Kind)
    requires Extends(a, b) && Known(a, processed)
    ensures HeardFirst(b, processed, o, first, second) == HeardFirst(a, processed, o, first, second)
  {
    if |processed| > 0 {
      var init := processed[..|processed| - 1];
      HeardStays(a, b, init, o, first, second);
      SeenStays(a, b, init, o);
      KindsStay(a, b, processed[|processed| - 1], o);
    }
  }

  lemma SeenMark(b: Boxes, processed: seq<EventId>, id: EventId, o: OrderId)
    ensures Seen(b, processed + [id], o) == Seen(b, processed, o) + KindsAt(b, id, o)
  {
    assert (processed + [id])[..|processed|] == processed;
  }

  lemma HeardMark(b: Boxes, processed: seq<EventId>, id: EventId, o: OrderId, first: Kind, second: Kind)
    ensures HeardFirst(b, processed + [id], o, first, second) <==>
      HeardFirst(b, processed, o, first, second) || (first in KindsAt(b, id, o) && second !in Seen(b, processed, o))
  {
    assert (processed + [id])[..|processed|] == processed;
  }

  lemma {:induction false} SeenWitness(b: Boxes, processed: seq<EventId>, o: OrderId, k: Kind) returns (i: nat)
    requires k in Seen(b, processed, o)
    ensures i < |processed| && Lookup(b, processed[i]).Some? && Is(Lookup(b, processed[i]).value, k, o)
  {
    i := |processed| - 1;
    if k !in KindsAt(b, processed[i], o) {
      i := SeenWitness(b, processed[..|processed| - 1], o, k);
    }
  }

  // ------------------------------------------------------------ who publishes what

  ghost predicate ProducedBy(box: seq<Event>, s: Service) {
    forall i :: 0 <= i < |box| ==> ProducerOf(KindOf(box[i])) == s
  }

  ghost predicate Produced(b: Boxes) {
    ProducedBy(b.orders, OrderSide) && ProducedBy(b.inventory, InventorySide) && ProducedBy(b.payments, PaymentSide)
  }

  lemma ProducerIsRight(b: Boxes, id: EventId)
    requires Produced(b) && Lookup(b, id).Some?
    ensures id.producer == ProducerOf(KindOf(Lookup(b, id).value))
  {
  }

  /** A published event is counted. */
  lemma PublishedIsCounted(b: Boxes, id: EventId, k: Kind, o: OrderId)
    requires Produced(b) && Lookup(b, id).Some? && Is(Lookup(b, id).value, k, o)
    ensures Count(Box(b, ProducerOf(k)), k, o) >= 1
  {
    ProducerIsRight(b, id);
    CountAtLeast(Box(b, ProducerOf(k)), k, o, id.index, id.index);
  }

  /** An event of which there is only one, not handled under this id, has not been handled at all. */
  lemma FirstSight(b: Boxes, processed: seq<EventId>, id: EventId, k: Kind, o: OrderId)
    requires Produced(b) && Lookup(b, id).Some? && Is(Lookup(b, id).value, k, o) && id !in processed
    requires Count(Box(b, ProducerOf(k)), k, o) <= 1
    ensures k !in Seen(b, processed, o)
  {
    if k in Seen(b, processed, o) {
      var i := SeenWitness(b, processed, o, k);
      var other := processed[i];
      ProducerIsRight(b, id);
      ProducerIsRight(b, other);
      var first := if id.index < other.index then id.index else other.index;
      var last := if id.index < other.index then other.index else id.index;
      CountAtLeast(Box(b, ProducerOf(k)), k, o, first, last);
    }
  }

  // ------------------------------------------------------------ the view

  function View(sys: System, o: OrderId): Local {
    var b := BoxesOf(sys);
    var op := OrderPartOf(sys.orders.tables, o);
    var ip := InventoryPartOf(sys.inventory.tables, o);
    var pp := PaymentPartOf(sys.payments.tables, o);
    Local(op.known, op.status,
          Seen(b, sys.orders.processed, o), Seen(b, sys.inventory.processed, o), Seen(b, sys.payments.processed, o),
          ip.reservation, pp.payment, pp.attempts,
          op.created, op.cancelled, op.cancelledPaid,
          ip.reserved, ip.refused, pp.succeeded, pp.declined,
          HeardFirst(b, sys.orders.processed, o, Succeeded, Reserved),
          HeardFirst(b, sys.inventory.processed, o, Cancelled, Kind.Created))
  }

  // ------------------------------------------------------------ the invariant

  /** What inventory copied from an order is still what the order says. */
  ghost predicate ReservationMatches(orders: seq<Orders.OrderRow>, r: Inventory.Reservation) {
    && r.order < |orders|
    && r.user == orders[r.order].user
    && r.items == Inventory.InLockOrder(Inventory.Wanted(Inventory.Lines(orders[r.order].items)))
  }

  ghost predicate ReservedMatches(orders: seq<Orders.OrderRow>, e: Event) {
    e.InventoryReserved? ==>
      && e.order < |orders|
      && e.user == orders[e.order].user
      && e.total == orders[e.order].total
      && e.currency == orders[e.order].currency
      && e.payment == orders[e.order].payment
      && e.lines == Inventory.Wanted(Inventory.Lines(orders[e.order].items))
  }

  /** The amount of a payment is the order's total, unchanged through three services. */
  ghost predicate PaymentMatches(orders: seq<Orders.OrderRow>, o: OrderId, p: Payments.Payment) {
    && o < |orders|
    && p.user == orders[o].user
    && p.amount == orders[o].total
    && p.currency == orders[o].currency
  }

  ghost predicate InventoryMatches(orders: seq<Orders.OrderRow>, db: Inventory.Db) {
    && (forall i :: 0 <= i < |db.reservations| ==> ReservationMatches(orders, db.reservations[i]))
    && (forall i :: 0 <= i < |db.outbox| ==> ReservedMatches(orders, db.outbox[i]))
  }

  ghost predicate PaymentsMatch(orders: seq<Orders.OrderRow>, db: Payments.Db) {
    forall o :: o in db.payments ==> PaymentMatches(orders, o, db.payments[o])
  }

  ghost predicate HandledIsPublished(sys: System) {
    && Known(BoxesOf(sys), sys.orders.processed)
    && Known(BoxesOf(sys), sys.inventory.processed)
    && Known(BoxesOf(sys), sys.payments.processed)
  }

  /** Each service keeps its own invariant, events come from their producers, and what one service
      copied from another matches. */
  ghost predicate ServicesOk(sys: System) {
    && OrderInvariants.Inv(sys.orders.tables)
    && InventoryLedger.Inv(sys.inventory.tables)
    && Payments.Inv(sys.payments.tables)
    && Produced(BoxesOf(sys))
    && HandledIsPublished(sys)
    && InventoryMatches(sys.orders.tables.orders, sys.inventory.tables)
    && PaymentsMatch(sys.orders.tables.orders, sys.payments.tables)
  }

  ghost predicate LocalsOk(sys: System) {
    forall o: OrderId :: LocalInv(View(sys, o))
  }

  ghost predicate SysInv(sys: System) {
    ServicesOk(sys) && LocalsOk(sys)
  }

  lemma StartInv()
    ensures SysInv(START)
  {
    forall o: OrderId
      ensures LocalInv(View(START, o))
    {
    }
  }
}
