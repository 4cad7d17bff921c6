/** What the saga guarantees across its three services, after any run. */
module SagaTheorems {
  import opened Prelude
  import opened Events
  import opened OrderStatuses
  import opened SagaAutomaton
  import opened SagaSystem
  import opened SagaViews
  import opened SagaProjection
  import opened SagaSimulation
  import opened SagaRuns
  import opened SagaRefunds
  import Delivery
  import Inventory
  import InventoryLedger
  import InventoryInvariants
  import Orders
  import OrderInvariants
  import Payments

  // ------------------------------------------------------------ the invariant, one fact at a time

  lemma LocalAt(steps: seq<Step>, o: OrderId)
    ensures LocalInv(View(Run(steps), o))
  {
    EveryRunKeepsInv(steps);
  }

  lemma OrderAt(steps: seq<Step>, o: OrderId)
    requires o < |Run(steps).orders.tables.orders|
    ensures OrderInvariants.RowOk(Run(steps).orders.tables.orders[o])
  {
    EveryRunKeepsInv(steps);
  }

  lemma PaymentAt(steps: seq<Step>, o: OrderId)
    requires o in Run(steps).payments.tables.payments
    ensures Payments.PaymentOk(Run(steps).payments.tables.payments[o])
    ensures PaymentMatches(Run(steps).orders.tables.orders, o, Run(steps).payments.tables.payments[o])
  {
    EveryRunKeepsInv(steps);
  }

  lemma ReservationAt(steps: seq<Step>, o: OrderId)
    requires Inventory.HasReservation(Run(steps).inventory.tables, o)
    ensures ReservationMatches(Run(steps).orders.tables.orders, Inventory.ReservationOf(Run(steps).inventory.tables, o))
  {
    EveryRunKeepsInv(steps);
  }

  // ------------------------------------------------------------ quiescence

  /** Everyone a published event is for has handled it. */
  ghost predicate Settled(sys: System, id: EventId) {
    var e := Lookup(BoxesOf(sys), id);
    e.Some? ==>
      && (Orders.Subscribes(KindOf(e.value)) ==> id in sys.orders.processed)
      && (Inventory.Subscribes(KindOf(e.value)) ==> id in sys.inventory.processed)
      && (Payments.Subscribes(KindOf(e.value)) ==> id in sys.payments.processed)
  }

  /** Every event about order `o` is settled. */
  ghost predicate Quiescent(sys: System, o: OrderId) {
    forall id: EventId ::
      Lookup(BoxesOf(sys), id).Some? && Is(Lookup(BoxesOf(sys), id).value, KindOf(Lookup(BoxesOf(sys), id).value), o)
      ==> Settled(sys, id)
  }

  lemma {:induction false} SeenContains(b: Boxes, processed: seq<EventId>, id: EventId, k: Kind, o: OrderId)
    requires id in processed && Lookup(b, id).Some? && Is(Lookup(b, id).value, k, o)
    ensures k in Seen(b, processed, o)
  {
    var init := processed[..|processed| - 1];
    if processed[|processed| - 1] != id {
      SeenContains(b, init, id, k, o);
    }
  }

  /** In a quiescent state every subscriber of a published kind has seen it. */
  lemma QuiescentSees(sys: System, k: Kind, o: OrderId)
    requires Quiescent(sys, o) && Count(Box(BoxesOf(sys), ProducerOf(k)), k, o) > 0
    ensures Orders.Subscribes(k) ==> k in View(sys, o).orderSaw
    ensures Inventory.Subscribes(k) ==> k in View(sys, o).inventorySaw
    ensures Payments.Subscribes(k) ==> k in View(sys, o).paymentSaw
  {
    var b := BoxesOf(sys);
    var i := CountWitness(Box(b, ProducerOf(k)), k, o);
    var id := EventId(ProducerOf(k), i);
    assert Lookup(b, id).Some? && Settled(sys, id);
    if Orders.Subscribes(k) { SeenContains(b, sys.orders.processed, id, k, o); }
    if Inventory.Subscribes(k) { SeenContains(b, sys.inventory.processed, id, k, o); }
    if Payments.Subscribes(k) { SeenContains(b, sys.payments.processed, id, k, o); }
  }

  lemma OrderEventsSeen(sys: System, o: OrderId)
    requires Quiescent(sys, o)
    ensures var l := View(sys, o);
      && (l.created > 0 ==> Kind.Created in l.inventorySaw)
      && (l.cancelled > 0 ==> Cancelled in l.inventorySaw && Cancelled in l.paymentSaw)
  {
    var l := View(sys, o);
    if l.created > 0 { QuiescentSees(sys, Kind.Created, o); }
    if l.cancelled > 0 { QuiescentSees(sys, Cancelled, o); }
  }

  lemma InventoryEventsSeen(sys: System, o: OrderId)
    requires Quiescent(sys, o)
    ensures var l := View(sys, o);
      && (l.reserved > 0 ==> Reserved in l.orderSaw && Reserved in l.paymentSaw)
      && (l.refused > 0 ==> Refused in l.orderSaw)
  {
    var l := View(sys, o);
    if l.reserved > 0 { QuiescentSees(sys, Reserved, o); }
    if l.refused > 0 { QuiescentSees(sys, Refused, o); }
  }

  lemma PaymentEventsSeen(sys: System, o: OrderId)
    requires Quiescent(sys, o)
    ensures var l := View(sys, o);
      && (l.succeeded > 0 ==> Succeeded in l.orderSaw && Succeeded in l.inventorySaw)
      && (l.declined > 0 ==> Declined in l.orderSaw && Declined in l.inventorySaw)
  {
    var l := View(sys, o);
    if l.succeeded > 0 { QuiescentSees(sys, Succeeded, o); }
    if l.declined > 0 { QuiescentSees(sys, Declined, o); }
  }

  lemma QuiescentIsQuiet(sys: System, o: OrderId)
    requires Quiescent(sys, o)
    ensures Quiet(View(sys, o))
  {
    OrderEventsSeen(sys, o);
    InventoryEventsSeen(sys, o);
    PaymentEventsSeen(sys, o);
  }

  // ------------------------------------------------------------ agreement

  function StatusOf(sys: System, o: OrderId): OrderStatus
    requires o < |sys.orders.tables.orders|
  {
    sys.orders.tables.orders[o].status
  }

  function PaymentStatusOf(sys: System, o: OrderId): Option<PaymentStatus> {
    if o in sys.payments.tables.payments then Some(sys.payments.tables.payments[o].status) else None
  }

  function HeldStatusOf(sys: System, o: OrderId): Option<Inventory.ReservationStatus> {
    ReservationStatusOf(sys.inventory.tables, o)
  }

  predicate WasCaptured(sys: System, o: OrderId) {
    o in sys.payments.tables.payments && Payments.WasCaptured(sys.payments.tables.payments[o])
  }

  /** What of the order's captured money has not been given back. */
  function MoneyKept(sys: System, o: OrderId): Money {
    if WasCaptured(sys, o)
    then sys.payments.tables.payments[o].amount - RefundedOf(sys.payments.tables.payments[o])
    else 0
  }

  function TotalOf(sys: System, o: OrderId): Money
    requires o < |sys.orders.tables.orders|
  {
    Orders.Total(sys.orders.tables.orders[o].items)
  }

  /** An accepted order is paid for in full and deducted; of one that failed or was cancelled neither
      money nor stock is kept. */
  predicate ServicesAgree(sys: System, o: OrderId)
    requires o < |sys.orders.tables.orders|
  {
    if Accepted(StatusOf(sys, o))
    then MoneyKept(sys, o) == TotalOf(sys, o) && HeldStatusOf(sys, o) == Some(Inventory.COMMITTED)
    else
      && (StatusOf(sys, o) == FAILED || IsCancelled(sys, o))
      && MoneyKept(sys, o) == 0 && !KeepsStock(HeldStatusOf(sys, o))
  }

  /** Accepted, paid and deducted; or failed, declined and released; or failed with neither a payment
      nor a reservation. */
  predicate EndedAsPlanned(sys: System, o: OrderId)
    requires o < |sys.orders.tables.orders|
  {
    OneOfThree(StatusOf(sys, o), PaymentStatusOf(sys, o), HeldStatusOf(sys, o))
  }

  function AttemptsOf(sys: System, o: OrderId): nat {
    if o in sys.payments.tables.payments then sys.payments.tables.payments[o].attempts else 0
  }

  /** Did the order service handle the capture before it knew of the reservation? */
  predicate CaptureOvertook(sys: System, o: OrderId) {
    HeardFirst(BoxesOf(sys), sys.orders.processed, o, Succeeded, Reserved)
  }

  /** Did inventory handle the cancellation before it knew of the order? */
  predicate CancellationOvertook(sys: System, o: OrderId) {
    HeardFirst(BoxesOf(sys), sys.inventory.processed, o, Cancelled, Kind.Created)
  }

  predicate IsCancelled(sys: System, o: OrderId) {
    o < |sys.orders.tables.orders| && StatusOf(sys, o) == CANCELLED
  }

  /** Was the order in a paid status when it was cancelled? */
  predicate PaidWhenCancelled(steps: seq<Step>, o: OrderId) {
    if |steps| == 0 then false
    else
      var before := Run(steps[..|steps| - 1]);
      || PaidWhenCancelled(steps[..|steps| - 1], o)
      || (o < |before.orders.tables.orders| && StatusOf(before, o) in PAID_STATUSES && IsCancelled(Run(steps), o))
  }

  /** Did an administrator's refund go through for the order? */
  predicate RepaidByAdmin(steps: seq<Step>, o: OrderId) {
    if |steps| == 0 then false
    else
      var init, last := steps[..|steps| - 1], steps[|steps| - 1];
      || RepaidByAdmin(init, o)
      || (&& last.AdminRefund? && last.order == o
          && PaymentStatusOf(Run(init), o) == Some(Payments.SUCCEEDED)
          && PaymentStatusOf(Run(steps), o) == Some(Payments.REFUNDED))
  }

  /** Did a sweep find the order's hold expired? */
  predicate HoldRanOut(steps: seq<Step>, o: OrderId) {
    if |steps| == 0 then false
    else
      var init, last := steps[..|steps| - 1], steps[|steps| - 1];
      || HoldRanOut(init, o)
      || (&& last.Sweep?
          && HeldStatusOf(Run(init), o) == Some(Inventory.HELD)
          && HeldStatusOf(Run(steps), o) == Some(Inventory.EXPIRED))
  }

  /** What agreement takes of an order whose money was captured. Cancelled: it was paid for at the time
      or an administrator repaid it, not in part, and it is not the case that inventory heard of the
      cancellation first, the first charge went through and the hold did not run out. Captured by a
      later attempt: it failed, and was repaid, not in part. Otherwise: the capture did not overtake the
      reservation, nobody repaid it and the hold did not run out. */
  predicate NothingDisturbed(steps: seq<Step>, o: OrderId)
    requires o < |Run(steps).orders.tables.orders|
  {
    var sys := Run(steps);
    WasCaptured(sys, o) ==>
      if IsCancelled(sys, o) then
        && (PaidWhenCancelled(steps, o) || RepaidByAdmin(steps, o)) && !PartlyRepaid(steps, o)
        && !(CancellationOvertook(sys, o) && AttemptsOf(sys, o) == 1 && !HoldRanOut(steps, o))
      else if AttemptsOf(sys, o) > 1 then
        StatusOf(sys, o) == FAILED && RepaidByAdmin(steps, o) && !PartlyRepaid(steps, o)
      else !CaptureOvertook(sys, o) && !RepaidByAdmin(steps, o) && !HoldRanOut(steps, o)
  }

  // ------------------------------------------------------------ amounts

  lemma {:induction false} PartlyIsByAdmin(steps: seq<Step>, o: OrderId)
    ensures PartlyRepaid(steps, o) ==> RepaidByAdmin(steps, o)
  {
    if |steps| > 0 {
      PartlyIsByAdmin(steps[..|steps| - 1], o);
      StepRefundsRight(steps, o);
    }
  }

  /** Nothing is kept exactly when nothing was captured or it was given back, not in part. */
  lemma NothingKeptIff(steps: seq<Step>, o: OrderId)
    ensures MoneyKept(Run(steps), o) >= 0
    ensures MoneyKept(Run(steps), o) == 0 <==>
      !WasCaptured(Run(steps), o) || (IsRefunded(PaymentsOf(steps), o) && !PartlyRepaid(steps, o))
  {
    RefundIsFullIff(steps, o);
    if WasCaptured(Run(steps), o) {
      PaymentAt(steps, o);
    }
  }

  /** All of a captured order's total is kept exactly when nothing was given back. */
  lemma AllKeptIff(steps: seq<Step>, o: OrderId)
    requires o < |Run(steps).orders.tables.orders| && WasCaptured(Run(steps), o)
    ensures MoneyKept(Run(steps), o) == TotalOf(Run(steps), o)
       <==> PaymentStatusOf(Run(steps), o) == Some(Payments.SUCCEEDED)
  {
    OrderAt(steps, o);
    PaymentAt(steps, o);
  }

  /** What a local state says of the three databases. */
  lemma ViewShows(sys: System, o: OrderId, l: Local)
    requires o < |sys.orders.tables.orders| && l == View(sys, o)
    ensures l.status == StatusOf(sys, o) && l.payment == PaymentStatusOf(sys, o) && l.reservation == HeldStatusOf(sys, o)
    ensures Captured(l) == WasCaptured(sys, o) && l.attempts == AttemptsOf(sys, o)
    ensures l.payment == Some(Payments.REFUNDED) <==> IsRefunded(sys.payments.tables, o)
  {
  }

  lemma AcceptedIsCaptured(l: Local)
    requires LocalInv(l) && l.known && Accepted(l.status)
    ensures Captured(l)
  {
  }

  lemma AcceptedAgreement(steps: seq<Step>, o: OrderId, l: Local)
    requires o < |Run(steps).orders.tables.orders| && l == View(Run(steps), o) && LocalInv(l) && Accepted(l.status)
    ensures ServicesAgree(Run(steps), o) <==> Agree(l)
  {
    ViewShows(Run(steps), o, l);
    AcceptedIsCaptured(l);
    AllKeptIff(steps, o);
  }

  lemma RefusedAgreement(steps: seq<Step>, o: OrderId, l: Local)
    requires o < |Run(steps).orders.tables.orders| && l == View(Run(steps), o) && LocalInv(l) && !Accepted(l.status)
    ensures ServicesAgree(Run(steps), o) <==> Agree(l) && !PartlyRepaid(steps, o)
  {
    ViewShows(Run(steps), o, l);
    NothingKeptIff(steps, o);
    RefundIsFullIff(steps, o);
  }

  /** Agreement in amounts is agreement of the statuses, and no partial refund of a failed or cancelled
      order. */
  lemma AgreementIsOfStatuses(steps: seq<Step>, o: OrderId, l: Local)
    requires o < |Run(steps).orders.tables.orders| && l == View(Run(steps), o) && LocalInv(l)
    ensures ServicesAgree(Run(steps), o) <==> Agree(l) && (Accepted(l.status) || !PartlyRepaid(steps, o))
  {
    if Accepted(l.status) {
      AcceptedAgreement(steps, o, l);
    } else {
      RefusedAgreement(steps, o, l);
    }
  }

  /** A payment is REFUNDED because an administrator repaid it or because the cancellation of a paid
      order was handled. */
  lemma {:induction false} RepaidHolds(steps: seq<Step>, o: OrderId)
    ensures RepaidOk(View(Run(steps), o), RepaidByAdmin(steps, o))
  {
    if |steps| > 0 {
      var init, last := steps[..|steps| - 1], steps[|steps| - 1];
      RepaidHolds(init, o);
      MovesAt(steps, o);
      MovesThatRepay(View(Run(init), o), View(Run(steps), o), DisturbanceOf(last, o));
    }
  }

  lemma {:induction false} ExpiredHolds(steps: seq<Step>, o: OrderId)
    ensures HeldStatusOf(Run(steps), o) == Some(Inventory.EXPIRED) <==> HoldRanOut(steps, o)
  {
    if |steps| > 0 {
      var init, last := steps[..|steps| - 1], steps[|steps| - 1];
      ExpiredHolds(init, o);
      MovesAt(steps, o);
      LocalAt(init, o);
      MovesThatExpire(View(Run(init), o), View(Run(steps), o), DisturbanceOf(last, o));
    }
  }

  /** The recorded flag of the cancellation says what the order's status was. */
  lemma {:induction false} PaidFlagHolds(steps: seq<Step>, o: OrderId)
    ensures View(Run(steps), o).cancelledPaid == PaidWhenCancelled(steps, o)
  {
    if |steps| > 0 {
      var init := steps[..|steps| - 1];
      PaidFlagHolds(init, o);
      MovesAt(steps, o);
      LocalAt(init, o);
      MovesThatFlag(View(Run(init), o), View(Run(steps), o), DisturbanceOf(steps[|steps| - 1], o));
    }
  }

  lemma MovesAt(steps: seq<Step>, o: OrderId)
    requires |steps| > 0
    ensures Moves(View(Run(steps[..|steps| - 1]), o), View(Run(steps), o), DisturbanceOf(steps[|steps| - 1], o))
  {
    EveryRunKeepsInv(steps[..|steps| - 1]);
    StepMoves(Run(steps[..|steps| - 1]), steps[|steps| - 1], o);
  }

  /** The facts about a settled order that the theorems below start from. */
  lemma SettledOrder(steps: seq<Step>, o: OrderId, l: Local)
    requires o < |Run(steps).orders.tables.orders| && Quiescent(Run(steps), o) && l == View(Run(steps), o)
    ensures LocalInv(l) && l.known && Quiet(l)
    ensures RepaidOk(l, RepaidByAdmin(steps, o)) && l.cancelledPaid == PaidWhenCancelled(steps, o)
    ensures l.reservation == Some(Inventory.EXPIRED) <==> HoldRanOut(steps, o)
  {
    ExpiredHolds(steps, o);
    LocalAt(steps, o);
    QuiescentIsQuiet(Run(steps), o);
    RepaidHolds(steps, o);
    PaidFlagHolds(steps, o);
  }

  /** What disturbs an order, in terms of its local state. */
  lemma UndisturbedIs(steps: seq<Step>, o: OrderId, l: Local)
    requires o < |Run(steps).orders.tables.orders| && l == View(Run(steps), o) && LocalInv(l) && l.known
    requires l.cancelledPaid == PaidWhenCancelled(steps, o)
    requires l.reservation == Some(Inventory.EXPIRED) <==> HoldRanOut(steps, o)
    ensures NothingDisturbed(steps, o) <==>
      Undisturbed(l, RepaidByAdmin(steps, o)) && (Accepted(l.status) || !PartlyRepaid(steps, o))
  {
    ViewShows(Run(steps), o, l);
    PartlyIsByAdmin(steps, o);
    RefundIsFullIff(steps, o);
  }

  /** Agreement, exactly: once every event about an order is settled, whatever the run was, the three
      services agree about it if and only if nothing disturbed it. */
  lemma AgreementIff(steps: seq<Step>, o: OrderId)
    requires o < |Run(steps).orders.tables.orders| && Quiescent(Run(steps), o)
    ensures ServicesAgree(Run(steps), o) <==> NothingDisturbed(steps, o)
  {
    var l := View(Run(steps), o);
    SettledOrder(steps, o, l);
    AgreeIffUndisturbed(l, RepaidByAdmin(steps, o));
    AgreementIsOfStatuses(steps, o, l);
    UndisturbedIs(steps, o, l);
  }

  /** The saga's own three endings, exactly: a settled order has one of them if and only if it was not
      cancelled, refunded or expired and any capture came on the first attempt and in order. */
  lemma EndedAsPlannedIff(steps: seq<Step>, o: OrderId)
    requires o < |Run(steps).orders.tables.orders| && Quiescent(Run(steps), o)
    ensures var sys := Run(steps);
      EndedAsPlanned(sys, o) <==>
        && !IsCancelled(sys, o) && !RepaidByAdmin(steps, o) && !HoldRanOut(steps, o)
        && (WasCaptured(sys, o) ==> AttemptsOf(sys, o) == 1 && !CaptureOvertook(sys, o))
  {
    var l := View(Run(steps), o);
    SettledOrder(steps, o, l);
    ViewShows(Run(steps), o, l);
    OneOfThreeUnlessRepaid(l, RepaidByAdmin(steps, o));
  }

  /** No step of the run is a cancellation, a retry or an administrator's refund of the order, or a
      sweep. Other orders may be treated in any way. */
  ghost predicate AllCalm(steps: seq<Step>, o: OrderId) {
    forall i :: 0 <= i < |steps| ==> DisturbanceOf(steps[i], o) == Calm
  }

  lemma {:induction false} CalmRuns(steps: seq<Step>, o: OrderId)
    requires AllCalm(steps, o)
    ensures IsCalm(View(Run(steps), o))
  {
    if |steps| > 0 {
      var init := steps[..|steps| - 1];
      CalmRuns(init, o);
      LocalAt(init, o);
      MovesAt(steps, o);
      CalmMovesKeepCalm(View(Run(init), o), View(Run(steps), o));
    }
  }

  lemma CalmIsNeverRepaid(steps: seq<Step>, o: OrderId)
    requires IsCalm(View(Run(steps), o)) && o < |Run(steps).orders.tables.orders|
    ensures !PartlyRepaid(steps, o)
  {
    ViewShows(Run(steps), o, View(Run(steps), o));
    RefundIsFullIff(steps, o);
  }

  /** In a calm run delivery order alone decides: a settled order has one of the three endings if and
      only if its capture did not overtake its reservation, and without one the services disagree. */
  lemma CalmAgreementIff(steps: seq<Step>, o: OrderId)
    requires AllCalm(steps, o) && o < |Run(steps).orders.tables.orders| && Quiescent(Run(steps), o)
    ensures EndedAsPlanned(Run(steps), o) <==> !CaptureOvertook(Run(steps), o)
    ensures ServicesAgree(Run(steps), o) <==> EndedAsPlanned(Run(steps), o)
  {
    var l := View(Run(steps), o);
    SettledOrder(steps, o, l);
    CalmRuns(steps, o);
    CalmIsNeverRepaid(steps, o);
    OneOfThreeIff(l);
    AgreeIffUndisturbed(l, RepaidByAdmin(steps, o));
    AgreementIsOfStatuses(steps, o, l);
  }

  /** The ends without agreement of the three statuses. */
  lemma StatusesDisagree(steps: seq<Step>, o: OrderId, l: Local)
    requires o < |Run(steps).orders.tables.orders| && Quiescent(Run(steps), o) && l == View(Run(steps), o) && !Agree(l)
    ensures var sys := Run(steps);
      && WasCaptured(sys, o)
      && l.status in {INVENTORY_RESERVED, FAILED, CANCELLED, CONFIRMED, SHIPPED, DELIVERED}
      && (l.status == INVENTORY_RESERVED ==> CaptureOvertook(sys, o) && l.attempts == 1)
      && (l.status == FAILED ==>
            l.payment == Some(Payments.SUCCEEDED) && l.attempts > 1 && !KeepsStock(l.reservation))
      && (l.status == CANCELLED ==>
            && !PaidWhenCancelled(steps, o)
            && (|| l.payment == Some(Payments.SUCCEEDED)
                || (CancellationOvertook(sys, o) && l.reservation == Some(Inventory.COMMITTED))))
      && (Accepted(l.status) ==>
            || l.payment == Some(Payments.REFUNDED)
            || l.reservation in {Some(Inventory.EXPIRED), Some(Inventory.RELEASED)})
  {
    SettledOrder(steps, o, l);
    DisturbedEnds(l, RepaidByAdmin(steps, o));
  }

  /** Where only the amount disagrees. */
  lemma OnlyAmountDisagrees(steps: seq<Step>, o: OrderId, l: Local)
    requires o < |Run(steps).orders.tables.orders| && l == View(Run(steps), o) && LocalInv(l)
    requires Agree(l) && !ServicesAgree(Run(steps), o)
    ensures PartlyRepaid(steps, o) && (l.status == FAILED || l.status == CANCELLED) && !KeepsStock(l.reservation)
    ensures WasCaptured(Run(steps), o)
    ensures l.status == FAILED ==> l.attempts > 1
  {
    AgreementIsOfStatuses(steps, o, l);
    RefundIsFullIff(steps, o);
    ViewShows(Run(steps), o, l);
  }

  /** Where the services disagree, money was captured, and one of four things is kept or missing:
      stuck in INVENTORY_RESERVED after an overtaking capture; FAILED with money of a later attempt and
      no stock; CANCELLED, with money, or with stock of which inventory heard too early; or accepted
      without its money or without its stock. Money that is kept was never given back or, by an
      administrator, in part. */
  lemma DisagreementIsOneOf(steps: seq<Step>, o: OrderId)
    requires o < |Run(steps).orders.tables.orders| && Quiescent(Run(steps), o) && !ServicesAgree(Run(steps), o)
    ensures var sys := Run(steps); var status := StatusOf(sys, o);
      var unpaid := PaymentStatusOf(sys, o) == Some(Payments.SUCCEEDED);
      && WasCaptured(sys, o)
      && status in {INVENTORY_RESERVED, FAILED, CANCELLED, CONFIRMED, SHIPPED, DELIVERED}
      && (status == INVENTORY_RESERVED ==> CaptureOvertook(sys, o) && AttemptsOf(sys, o) == 1)
      && (status == FAILED ==>
            (unpaid || PartlyRepaid(steps, o)) && AttemptsOf(sys, o) > 1 && !KeepsStock(HeldStatusOf(sys, o)))
      && (status == CANCELLED ==>
            || PartlyRepaid(steps, o)
            || (&& !PaidWhenCancelled(steps, o)
                && (unpaid || (CancellationOvertook(sys, o) && HeldStatusOf(sys, o) == Some(Inventory.COMMITTED)))))
      && (Accepted(status) ==>
            || PaymentStatusOf(sys, o) == Some(Payments.REFUNDED)
            || HeldStatusOf(sys, o) in {Some(Inventory.EXPIRED), Some(Inventory.RELEASED)})
  {
    var l := View(Run(steps), o);
    ViewShows(Run(steps), o, l);
    if Agree(l) {
      LocalAt(steps, o);
      OnlyAmountDisagrees(steps, o, l);
    } else {
      StatusesDisagree(steps, o, l);
    }
  }

  // ------------------------------------------------------------ cancellation

  /** A settled order that was cancelled while paid: its payment is REFUNDED, its units are back, and
      its total was given back if and only if no administrator had given back a part before. */
  lemma PaidCancellationIsCompensated(steps: seq<Step>, o: OrderId)
    requires o < |Run(steps).orders.tables.orders| && Quiescent(Run(steps), o) && PaidWhenCancelled(steps, o)
    ensures var sys := Run(steps);
      && StatusOf(sys, o) == CANCELLED
      && PaymentStatusOf(sys, o) == Some(Payments.REFUNDED)
      && HeldStatusOf(sys, o) in {Some(Inventory.RELEASED), Some(Inventory.EXPIRED)}
      && (RefundedOf(sys.payments.tables.payments[o]) == TotalOf(sys, o) <==> !PartlyRepaid(steps, o))
      && (MoneyKept(sys, o) == 0 <==> !PartlyRepaid(steps, o))
  {
    var l := View(Run(steps), o);
    SettledOrder(steps, o, l);
    PaidCancellationEnds(l);
    ViewShows(Run(steps), o, l);
    RefundOfTotal(steps, o);
    NothingKeptIff(steps, o);
  }

  lemma RefundOfTotal(steps: seq<Step>, o: OrderId)
    requires o < |Run(steps).orders.tables.orders| && IsRefunded(PaymentsOf(steps), o)
    ensures RefundedOf(PaymentsOf(steps).payments[o]) == TotalOf(Run(steps), o) <==> !PartlyRepaid(steps, o)
  {
    OrderAt(steps, o);
    PaymentAt(steps, o);
    RefundIsFullIff(steps, o);
  }

  /** Money, exactly: of a settled cancelled order nothing that was captured is kept if and only if the
      order was in a paid status when it was cancelled or an administrator repaid it, and no
      administrator gave back only a part. */
  lemma CancelledMoneyIff(steps: seq<Step>, o: OrderId)
    requires IsCancelled(Run(steps), o) && Quiescent(Run(steps), o) && WasCaptured(Run(steps), o)
    ensures MoneyKept(Run(steps), o) == 0
       <==> (PaidWhenCancelled(steps, o) || RepaidByAdmin(steps, o)) && !PartlyRepaid(steps, o)
  {
    var l := View(Run(steps), o);
    SettledOrder(steps, o, l);
    ViewShows(Run(steps), o, l);
    CancelledMoney(l, RepaidByAdmin(steps, o));
    NothingKeptIff(steps, o);
  }

  /** Stock, exactly: the units of a settled cancelled order stay deducted if and only if inventory
      heard of the cancellation before the order, the first charge went through and no sweep found the
      hold expired. None stay held. */
  lemma CancelledStockIff(steps: seq<Step>, o: OrderId)
    requires IsCancelled(Run(steps), o) && Quiescent(Run(steps), o)
    ensures var sys := Run(steps);
      && HeldStatusOf(sys, o) != Some(Inventory.HELD)
      && (HeldStatusOf(sys, o) == Some(Inventory.COMMITTED) <==>
            && CancellationOvertook(sys, o) && WasCaptured(sys, o) && AttemptsOf(sys, o) == 1
            && !HoldRanOut(steps, o))
  {
    var l := View(Run(steps), o);
    SettledOrder(steps, o, l);
    CancelledStock(l);
  }

  // ------------------------------------------------------------ paid means captured

  /** An order in a paid status has a captured payment for the sum of its lines, and a reservation
      with its lines added up by product. */
  lemma PaidIsCaptured(steps: seq<Step>, o: OrderId)
    requires o < |Run(steps).orders.tables.orders| && StatusOf(Run(steps), o) in PAID_STATUSES
    ensures var sys := Run(steps);
      var row := sys.orders.tables.orders[o];
      && o in sys.payments.tables.payments
      && Payments.WasCaptured(sys.payments.tables.payments[o])
      && sys.payments.tables.payments[o].amount == Orders.Total(row.items) > 0
      && sys.payments.tables.payments[o].user == row.user
      && Inventory.HasReservation(sys.inventory.tables, o)
      && forall p: ProductId ::
        InventoryLedger.Qty(Inventory.ReservationOf(sys.inventory.tables, o).items, p)
        == InventoryLedger.Qty(Inventory.Lines(row.items), p)
  {
    var sys := Run(steps);
    var items := Inventory.Lines(sys.orders.tables.orders[o].items);
    LocalAt(steps, o);
    OrderAt(steps, o);
    PaymentAt(steps, o);
    ReservationAt(steps, o);
    forall p: ProductId
      ensures InventoryLedger.Qty(Inventory.ReservationOf(sys.inventory.tables, o).items, p) == InventoryLedger.Qty(items, p)
    {
      InventoryLedger.QtySort(Inventory.Wanted(items), (line: Line) => line.product, p);
      InventoryLedger.WantedQty(items, p);
    }
  }

  /** A refused order holds nothing, is never charged and never paid; and it is never both refused
      and reserved. At most one capture is ever announced. */
  lemma RefusedIsNeverCharged(steps: seq<Step>, o: OrderId)
    ensures var sys := Run(steps);
      var refused := Count(sys.inventory.tables.outbox, Refused, o);
      && Count(sys.inventory.tables.outbox, Reserved, o) + refused <= 1
      && Count(sys.payments.tables.outbox, Succeeded, o) <= 1
      && (refused > 0 ==>
            && !Inventory.HasReservation(sys.inventory.tables, o)
            && o !in sys.payments.tables.payments
            && o < |sys.orders.tables.orders| && StatusOf(sys, o) !in PAID_STATUSES)
  {
    LocalAt(steps, o);
  }

  /** An event of the saga is always about an order that exists, and a payment result about one with a
      reservation: the unknown-order and no-reservation branches are dead. */
  lemma EventsHaveTheirRows(steps: seq<Step>, id: EventId)
    requires Lookup(BoxesOf(Run(steps)), id).Some?
    ensures var sys := Run(steps); var e := Lookup(BoxesOf(sys), id).value; var k := KindOf(e);
      && (k in {Kind.Created, Cancelled, Reserved, Refused, Succeeded, Declined} ==> e.order < |sys.orders.tables.orders|)
      && (k in {Succeeded, Declined} ==>
            Inventory.HasReservation(sys.inventory.tables, e.order) && e.order in sys.payments.tables.payments)
  {
    var e := Lookup(BoxesOf(Run(steps)), id).value;
    if KindOf(e) !in {Confirmed, Refunded, Stock} {
      LocalAt(steps, e.order);
      ProducedAt(steps);
      PublishedMeansKnown(Run(steps), id, e.order);
    }
  }

  lemma ProducedAt(steps: seq<Step>)
    ensures Produced(BoxesOf(Run(steps)))
  {
    EveryRunKeepsInv(steps);
  }

  // ------------------------------------------------------------ refunds

  /** The cancellation's flag, and what the order's state says when it is set. */
  lemma PaidCancellation(steps: seq<Step>, id: EventId)
    requires Lookup(BoxesOf(Run(steps)), id).Some?
    requires var e := Lookup(BoxesOf(Run(steps)), id).value; e.OrderCancelled? && e.wasPaid
    ensures var l := View(Run(steps), Lookup(BoxesOf(Run(steps)), id).value.order);
      && l.known && l.status == CANCELLED && Captured(l)
      && (id in Run(steps).payments.processed ==> l.payment == Some(Payments.REFUNDED))
  {
    var sys := Run(steps);
    var b := BoxesOf(sys);
    var o := Lookup(b, id).value.order;
    EveryRunKeepsInv(steps);
    ProducerIsRight(b, id);
    PublishedMeansKnown(sys, id, o);
    PaidCancelIs(b.orders, id.index, o);
    if id in sys.payments.processed {
      SeenContains(b, sys.payments.processed, id, Cancelled, o);
    }
  }

  lemma RefundAt(steps: seq<Step>, o: OrderId, reason: string)
    requires o in Run(steps).payments.tables.payments
    requires Run(steps).payments.tables.payments[o].status == Payments.SUCCEEDED
    ensures var r := Payments.RefundForOrder(Run(steps).payments.tables, o, reason, None);
      && r.Done? && r.value.Some? && o in r.value.value.payments
      && r.value.value.payments[o].status == Payments.REFUNDED
      && Payments.RefundedAmount(r.value.value.payments[o].refunds) == Run(steps).payments.tables.payments[o].amount
  {
    EveryRunKeepsInv(steps);
    Payments.FullRefundGoesThrough(Run(steps).payments.tables, o, reason);
  }

  /** Handling the cancellation of a paid order. */
  lemma RefundsNow(sys: System, id: EventId, e: Event, provider: Payments.Provider)
    requires Lookup(BoxesOf(sys), id) == Some(e) && e.OrderCancelled? && e.wasPaid
    requires id !in sys.payments.processed
    requires var r := Payments.RefundForOrder(sys.payments.tables, e.order, "order cancelled: " + e.reason, None);
      r.Done? && r.value.Some?
    ensures PaymentConsumes(sys, id, provider).payments
         == Delivery.Database(
              Payments.RefundForOrder(sys.payments.tables, e.order, "order cancelled: " + e.reason, None).value.value,
              sys.payments.processed + [id])
  {
  }

  /** Handling it again, or after an administrator's refund. */
  lemma NothingToRefund(sys: System, id: EventId, e: Event, provider: Payments.Provider)
    requires Lookup(BoxesOf(sys), id) == Some(e) && e.OrderCancelled?
    requires e.order in sys.payments.tables.payments && sys.payments.tables.payments[e.order].status != Payments.SUCCEEDED
    ensures PaymentConsumes(sys, id, provider).payments.tables == sys.payments.tables
    ensures id in PaymentConsumes(sys, id, provider).payments.processed
  {
  }

  /** A cancellation that says the order was paid always finds a captured payment, and leaves it
      refunded: for the order's total, unless an administrator had refunded it before. */
  lemma RefundCompleteness(steps: seq<Step>, id: EventId, provider: Payments.Provider)
    requires Lookup(BoxesOf(Run(steps)), id).Some?
    requires var e := Lookup(BoxesOf(Run(steps)), id).value; e.OrderCancelled? && e.wasPaid
    ensures var sys := Run(steps);
      var o := Lookup(BoxesOf(sys), id).value.order;
      var next := PaymentConsumes(sys, id, provider);
      && o < |sys.orders.tables.orders| && StatusOf(sys, o) == CANCELLED
      && o in sys.payments.tables.payments && Payments.WasCaptured(sys.payments.tables.payments[o])
      && o in next.payments.tables.payments && next.payments.tables.payments[o].status == Payments.REFUNDED
      && id in next.payments.processed
      && (sys.payments.tables.payments[o].status == Payments.SUCCEEDED ==>
            Payments.RefundedAmount(next.payments.tables.payments[o].refunds)
            == Orders.Total(sys.orders.tables.orders[o].items))
  {
    var sys := Run(steps);
    var e := Lookup(BoxesOf(sys), id).value;
    PaidCancellation(steps, id);
    OrderAt(steps, e.order);
    PaymentAt(steps, e.order);
    if sys.payments.tables.payments[e.order].status == Payments.SUCCEEDED {
      RefundAt(steps, e.order, "order cancelled: " + e.reason);
      RefundsNow(sys, id, e, provider);
    } else {
      NothingToRefund(sys, id, e, provider);
    }
  }

  // ------------------------------------------------------------ handlers

  ghost predicate MarkersOk(sys: System) {
    && Delivery.NoDuplicates(sys.orders.processed)
    && Delivery.NoDuplicates(sys.inventory.processed)
    && Delivery.NoDuplicates(sys.payments.processed)
  }

  lemma NextKeepsMarkers(sys: System, step: Step)
    requires MarkersOk(sys)
    ensures MarkersOk(Next(sys, step))
  {
  }

  /** Each service handles an event at most once, and only events that were published. */
  lemma {:induction false} HandledAtMostOnce(steps: seq<Step>)
    ensures MarkersOk(Run(steps)) && HandledIsPublished(Run(steps))
  {
    EveryRunKeepsInv(steps);
    if |steps| > 0 {
      HandledAtMostOnce(steps[..|steps| - 1]);
      NextKeepsMarkers(Run(steps[..|steps| - 1]), steps[|steps| - 1]);
    }
  }

  lemma {:induction false} LinesShape(items: seq<OrderLine>)
    ensures |Inventory.Lines(items)| == |items|
    ensures forall i :: 0 <= i < |items| ==>
      Inventory.Lines(items)[i] == Line(items[i].product, items[i].quantity)
  {
    if |items| > 0 {
      LinesShape(items[..|items| - 1]);
    }
  }

  /** No handler raises on an event the system publishes, in any reachable state: what is retried and
      dead-lettered is only what broke around the handler. */
  lemma HandlersNeverRaise(sys: System, id: EventId, now: int, provider: Payments.Provider)
    requires SysInv(sys) && Lookup(BoxesOf(sys), id).Some?
    ensures Orders.Handle(sys.orders.tables, Lookup(BoxesOf(sys), id).value, now).Some?
    ensures Inventory.Handle(sys.inventory.tables, Lookup(BoxesOf(sys), id).value, now).Some?
    ensures Payments.Handle(sys.payments.tables, Lookup(BoxesOf(sys), id).value, provider).Some?
  {
    var e := Lookup(BoxesOf(sys), id).value;
    CreatedIsOk(sys, id);
    if e.OrderCreated? {
      assert OrderInvariants.RowOk(sys.orders.tables.orders[e.order]);
      LinesShape(e.items);
    } else if e.OrderCancelled? && e.order in sys.payments.tables.payments
      && sys.payments.tables.payments[e.order].status == Payments.SUCCEEDED {
      Payments.FullRefundGoesThrough(sys.payments.tables, e.order, "order cancelled: " + e.reason);
    }
  }
}
