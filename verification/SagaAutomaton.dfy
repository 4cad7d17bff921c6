/** What one order can go through, across the three services, as a small automaton.

    A `Local` is everything the databases and event streams say about a single order. Each step of
    the system changes each order's `Local` by one of the moves below, or not at all. */
module SagaAutomaton {
  import opened Prelude
  import opened Events
  import opened OrderStatuses
  import opened Inventory
  import Payments

  type PaymentStatus = Payments.PaymentStatus

  datatype Local = Local(
    known: bool, status: OrderStatus,
    orderSaw: set<Kind>, inventorySaw: set<Kind>, paymentSaw: set<Kind>,
    reservation: Option<ReservationStatus>, payment: Option<PaymentStatus>, attempts: nat,
    created: nat, cancelled: nat, cancelledPaid: bool,
    reserved: nat, refused: nat, succeeded: nat, declined: nat,
    overtaken: bool, premature: bool)

  predicate Captured(l: Local) {
    l.payment == Some(Payments.SUCCEEDED) || l.payment == Some(Payments.REFUNDED)
  }

  // ------------------------------------------------------------ the invariant

  /** Nothing is said about an order that does not exist. */
  predicate NothingYet(l: Local) {
    && l.orderSaw == {} && l.inventorySaw == {} && l.paymentSaw == {}
    && l.reservation == None && l.payment == None && l.attempts == 0
    && l.created == 0 && l.cancelled == 0 && !l.cancelledPaid
    && l.reserved == 0 && l.refused == 0 && l.succeeded == 0 && l.declined == 0
    && !l.overtaken && !l.premature
  }

  /** Whatever has been handled has been published. */
  predicate SeenIsPublished(l: Local) {
    && (Reserved in l.orderSaw || Reserved in l.paymentSaw ==> l.reserved > 0)
    && (Refused in l.orderSaw ==> l.refused > 0)
    && (Succeeded in l.orderSaw || Succeeded in l.inventorySaw ==> l.succeeded > 0)
    && (Declined in l.orderSaw || Declined in l.inventorySaw ==> l.declined > 0)
    && (Cancelled in l.inventorySaw || Cancelled in l.paymentSaw ==> l.cancelled > 0)
  }

  /** Inventory answers order.created once: either way, never both. */
  predicate ReservationOk(l: Local) {
    && l.reserved + l.refused == (if Created in l.inventorySaw then 1 else 0)
    && (l.reservation.Some? <==> l.reserved == 1)
    && (l.reservation == Some(HELD) ==> Succeeded !in l.inventorySaw && Declined !in l.inventorySaw)
    && (l.reservation == Some(COMMITTED) ==> Succeeded in l.inventorySaw && Declined !in l.inventorySaw)
    && (l.reservation == Some(RELEASED) ==> Declined in l.inventorySaw || Cancelled in l.inventorySaw)
  }

  /** A payment exists once stock was reserved; each attempt published one result, at most one a capture. */
  predicate PaymentOk(l: Local) {
    && (l.payment.Some? <==> Reserved in l.paymentSaw)
    && l.payment != Some(Payments.PENDING)
    && l.succeeded + l.declined == l.attempts
    && (l.payment.Some? <==> l.attempts >= 1)
    && l.succeeded == (if Captured(l) then 1 else 0)
  }

  /** What the order's status says about the events it has handled. */
  predicate StatusOk(l: Local) {
    match l.status
    case PENDING =>
      Reserved !in l.orderSaw && Refused !in l.orderSaw && Declined !in l.orderSaw && l.cancelled == 0
      && (Succeeded in l.orderSaw ==> l.overtaken)
    case INVENTORY_RESERVED =>
      Reserved in l.orderSaw && Refused !in l.orderSaw && Declined !in l.orderSaw && l.cancelled == 0
      && (Succeeded in l.orderSaw ==> l.overtaken)
    case PAID => false
    case CONFIRMED => Reserved in l.orderSaw && Succeeded in l.orderSaw && !l.overtaken && l.cancelled == 0
    case SHIPPED => Reserved in l.orderSaw && Succeeded in l.orderSaw && !l.overtaken && l.cancelled == 0
    case DELIVERED => Reserved in l.orderSaw && Succeeded in l.orderSaw && !l.overtaken && l.cancelled == 0
    case CANCELLED => l.cancelled == 1
    case FAILED =>
      (Refused in l.orderSaw || Declined in l.orderSaw) && l.cancelled <= 1
      && (l.cancelled == 1 ==> Declined in l.orderSaw)
  }

  /** What inventory's handling of a cancellation leaves. One that came before the creation found
      nothing to release, and the order had not been paid. */
  predicate CancellationOk(l: Local) {
    && (l.premature ==> Cancelled in l.inventorySaw && l.status == CANCELLED && !l.cancelledPaid)
    && (Cancelled in l.inventorySaw && !l.premature ==>
          Created in l.inventorySaw && l.reservation != Some(HELD) && l.reservation != Some(COMMITTED))
    && (l.premature && l.reservation == Some(RELEASED) ==> Declined in l.inventorySaw)
  }

  predicate LocalInv(l: Local) {
    if !l.known then NothingYet(l)
    else
      && l.created == 1
      && SeenIsPublished(l)
      && ReservationOk(l)
      && PaymentOk(l)
      && StatusOk(l)
      && CancellationOk(l)
      && (l.overtaken ==> Succeeded in l.orderSaw)
      && (l.cancelledPaid ==> l.status == CANCELLED && Captured(l))
      && (l.cancelledPaid && Cancelled in l.paymentSaw ==> l.payment == Some(Payments.REFUNDED))
  }

  // ------------------------------------------------------------ the moves

  function Place(l: Local): Local {
    l.(known := true, status := PENDING, created := 1)
  }

  function InventorySeesCreated(l: Local, granted: bool): Local {
    if granted
    then l.(inventorySaw := l.inventorySaw + {Created}, reservation := Some(HELD), reserved := l.reserved + 1)
    else l.(inventorySaw := l.inventorySaw + {Created}, refused := l.refused + 1)
  }

  function InventorySeesSucceeded(l: Local): Local {
    l.(inventorySaw := l.inventorySaw + {Succeeded},
       reservation := if l.reservation == Some(HELD) then Some(COMMITTED) else l.reservation)
  }

  /** `payment.failed` or `order.cancelled`. */
  function InventorySeesFailure(l: Local, k: Kind): Local {
    l.(inventorySaw := l.inventorySaw + {k},
       premature := l.premature || (k == Cancelled && Created !in l.inventorySaw),
       reservation := if l.reservation == Some(HELD) || l.reservation == Some(COMMITTED) then Some(RELEASED)
                      else l.reservation)
  }

  function Expire(l: Local): Local {
    l.(reservation := Some(EXPIRED))
  }

  function OrderSeesReserved(l: Local): Local {
    l.(orderSaw := l.orderSaw + {Reserved},
       status := if l.status == PENDING then INVENTORY_RESERVED else l.status)
  }

  function OrderSeesRefused(l: Local): Local {
    l.(orderSaw := l.orderSaw + {Refused},
       status := if l.status == PENDING || l.status == INVENTORY_RESERVED then FAILED else l.status)
  }

  function OrderSeesSucceeded(l: Local): Local {
    l.(orderSaw := l.orderSaw + {Succeeded},
       overtaken := l.overtaken || Reserved !in l.orderSaw,
       status := if l.status == INVENTORY_RESERVED then CONFIRMED else l.status)
  }

  function OrderSeesDeclined(l: Local): Local {
    var fails := l.status == PENDING || l.status == INVENTORY_RESERVED;
    l.(orderSaw := l.orderSaw + {Declined},
       status := if fails then FAILED else l.status,
       cancelled := if fails then l.cancelled + 1 else l.cancelled)
  }

  function Cancel(l: Local): Local {
    l.(status := CANCELLED, cancelled := l.cancelled + 1,
       cancelledPaid := l.cancelledPaid || l.status in PAID_STATUSES)
  }

  function Advance(l: Local, target: OrderStatus): Local {
    l.(status := target)
  }

  function PaymentSeesReserved(l: Local, captured: bool): Local {
    l.(paymentSaw := l.paymentSaw + {Reserved},
       payment := Some(if captured then Payments.SUCCEEDED else Payments.FAILED), attempts := 1,
       succeeded := if captured then l.succeeded + 1 else l.succeeded,
       declined := if captured then l.declined else l.declined + 1)
  }

  function Retry(l: Local, captured: bool): Local {
    l.(payment := Some(if captured then Payments.SUCCEEDED else Payments.FAILED), attempts := l.attempts + 1,
       succeeded := if captured then l.succeeded + 1 else l.succeeded,
       declined := if captured then l.declined else l.declined + 1)
  }

  function Refund(l: Local): Local {
    l.(payment := Some(Payments.REFUNDED))
  }

  function PaymentSeesCancelled(l: Local): Local {
    l.(paymentSaw := l.paymentSaw + {Cancelled},
       payment := if l.cancelledPaid && l.payment == Some(Payments.SUCCEEDED) then Some(Payments.REFUNDED)
                  else l.payment)
  }

  /** What a step may do to an order besides moving the saga on. */
  datatype Disturbance = Calm | Cancels | Retries | Repays | Expires

  /** One order's share of one system step. An event of which there is only one is handled once. */
  ghost predicate Moves(l: Local, m: Local, d: Disturbance) {
    || m == l
    || (!l.known && m == Place(l))
    || (l.known && KnownMoves(l, m, d))
  }

  ghost predicate KnownMoves(l: Local, m: Local, d: Disturbance) {
    || InventoryMoves(l, m)
    || OrderMoves(l, m)
    || PaymentMoves(l, m)
    || Disturbs(l, m, d)
  }

  ghost predicate InventoryMoves(l: Local, m: Local) {
    || (Created !in l.inventorySaw && (m == InventorySeesCreated(l, true) || m == InventorySeesCreated(l, false)))
    || (l.succeeded > 0 && m == InventorySeesSucceeded(l))
    || (l.declined > 0 && m == InventorySeesFailure(l, Declined))
    || (l.cancelled > 0 && Cancelled !in l.inventorySaw && m == InventorySeesFailure(l, Cancelled))
  }

  ghost predicate OrderMoves(l: Local, m: Local) {
    || (l.reserved > 0 && m == OrderSeesReserved(l))
    || (l.refused > 0 && m == OrderSeesRefused(l))
    || (l.succeeded > 0 && Succeeded !in l.orderSaw && m == OrderSeesSucceeded(l))
    || (l.declined > 0 && m == OrderSeesDeclined(l))
    || (l.status == CONFIRMED && m == Advance(l, SHIPPED))
    || (l.status == SHIPPED && m == Advance(l, DELIVERED))
  }

  ghost predicate PaymentMoves(l: Local, m: Local) {
    || (l.reserved > 0 && l.payment == None && (m == PaymentSeesReserved(l, true) || m == PaymentSeesReserved(l, false)))
    || (l.cancelled > 0 && m == PaymentSeesCancelled(l))
  }

  ghost predicate Disturbs(l: Local, m: Local, d: Disturbance) {
    match d
    case Calm => false
    case Cancels => l.status in CUSTOMER_CANCELLABLE && m == Cancel(l)
    case Retries => l.payment == Some(Payments.FAILED) && (m == Retry(l, true) || m == Retry(l, false))
    case Repays => l.payment == Some(Payments.SUCCEEDED) && m == Refund(l)
    case Expires => l.reservation == Some(HELD) && m == Expire(l)
  }

  lemma InventoryMovesKeepInv(l: Local, m: Local)
    requires LocalInv(l) && l.known && InventoryMoves(l, m)
    ensures LocalInv(m)
  {
  }

  lemma OrderForwardKeepsInv(l: Local)
    requires LocalInv(l) && l.known
    ensures l.reserved > 0 ==> LocalInv(OrderSeesReserved(l))
    ensures l.succeeded > 0 && Succeeded !in l.orderSaw ==> LocalInv(OrderSeesSucceeded(l))
  {
  }

  lemma OrderFailureKeepsInv(l: Local)
    requires LocalInv(l) && l.known
    ensures l.refused > 0 ==> LocalInv(OrderSeesRefused(l))
    ensures l.declined > 0 ==> LocalInv(OrderSeesDeclined(l))
  {
  }

  lemma OrderMovesKeepInv(l: Local, m: Local)
    requires LocalInv(l) && l.known && OrderMoves(l, m)
    ensures LocalInv(m)
  {
    OrderForwardKeepsInv(l);
    OrderFailureKeepsInv(l);
  }

  lemma PaymentMovesKeepInv(l: Local, m: Local)
    requires LocalInv(l) && l.known && PaymentMoves(l, m)
    ensures LocalInv(m)
  {
  }

  lemma DisturbancesKeepInv(l: Local, m: Local, d: Disturbance)
    requires LocalInv(l) && l.known && Disturbs(l, m, d)
    ensures LocalInv(m)
  {
  }

  /** The invariant survives every move. */
  lemma MovesKeepInv(l: Local, m: Local, d: Disturbance)
    requires LocalInv(l) && Moves(l, m, d)
    ensures LocalInv(m)
  {
    if m == l || !l.known {
    } else if InventoryMoves(l, m) {
      InventoryMovesKeepInv(l, m);
    } else if OrderMoves(l, m) {
      OrderMovesKeepInv(l, m);
    } else if PaymentMoves(l, m) {
      PaymentMovesKeepInv(l, m);
    } else {
      DisturbancesKeepInv(l, m, d);
    }
  }

  /** What an order that nothing disturbed never shows. */
  predicate IsCalm(l: Local) {
    && l.status != CANCELLED && !l.cancelledPaid
    && l.payment != Some(Payments.REFUNDED)
    && l.reservation != Some(EXPIRED)
    && l.attempts <= 1
  }

  lemma CalmMovesKeepCalm(l: Local, m: Local)
    requires LocalInv(l) && IsCalm(l) && Moves(l, m, Calm)
    ensures IsCalm(m)
  {
  }

  // ------------------------------------------------------------ what undoes an order

  lemma InventoryMovesLeave(l: Local, m: Local)
    requires InventoryMoves(l, m)
    ensures m.payment == l.payment && m.paymentSaw == l.paymentSaw
    ensures m.status == l.status && m.cancelledPaid == l.cancelledPaid
  {
    if m == InventorySeesCreated(l, true) || m == InventorySeesCreated(l, false) {
    } else if m == InventorySeesSucceeded(l) {
    } else {
      assert m == InventorySeesFailure(l, Declined) || m == InventorySeesFailure(l, Cancelled);
    }
  }

  lemma OrderMovesLeave(l: Local, m: Local)
    requires OrderMoves(l, m)
    ensures m.payment == l.payment && m.paymentSaw == l.paymentSaw && m.cancelledPaid == l.cancelledPaid
    ensures m.reservation == l.reservation
    ensures m.status == CANCELLED <==> l.status == CANCELLED
  {
  }

  lemma PaymentMovesLeave(l: Local, m: Local)
    requires PaymentMoves(l, m)
    ensures m.reservation == l.reservation
    ensures m.status == l.status && m.cancelledPaid == l.cancelledPaid
    ensures l.payment == Some(Payments.REFUNDED) ==> m.payment == l.payment
    ensures m.payment == Some(Payments.REFUNDED) && m.payment != l.payment ==>
      l.payment == Some(Payments.SUCCEEDED) && m.cancelledPaid && Cancelled in m.paymentSaw
    ensures Cancelled in l.paymentSaw ==> Cancelled in m.paymentSaw
  {
  }

  lemma DisturbsLeaves(l: Local, m: Local, d: Disturbance)
    requires Disturbs(l, m, d)
    ensures m.reservation == l.reservation || (l.reservation == Some(HELD) && m.reservation == Some(EXPIRED) && d == Expires)
    ensures m.paymentSaw == l.paymentSaw
    ensures l.payment == Some(Payments.REFUNDED) ==> m.payment == l.payment
    ensures m.payment == Some(Payments.REFUNDED) && m.payment != l.payment ==>
      l.payment == Some(Payments.SUCCEEDED) && d == Repays
    ensures l.status == CANCELLED ==> m.status == CANCELLED && m.cancelledPaid == l.cancelledPaid
    ensures l.status != CANCELLED ==>
      m.cancelledPaid == (l.cancelledPaid || (m.status == CANCELLED && l.status in PAID_STATUSES))
  {
  }

  /** The only ways a payment becomes REFUNDED. */
  lemma MovesThatRepay(l: Local, m: Local, d: Disturbance)
    requires Moves(l, m, d)
    ensures l.payment == Some(Payments.REFUNDED) ==> m.payment == l.payment
    ensures m.payment == Some(Payments.REFUNDED) && m.payment != l.payment ==>
      l.payment == Some(Payments.SUCCEEDED) && (d == Repays || (m.cancelledPaid && Cancelled in m.paymentSaw))
    ensures Cancelled in l.paymentSaw ==> Cancelled in m.paymentSaw
    ensures l.cancelledPaid ==> m.cancelledPaid
  {
    if m == l || !l.known {
    } else if InventoryMoves(l, m) {
      InventoryMovesLeave(l, m);
    } else if OrderMoves(l, m) {
      OrderMovesLeave(l, m);
    } else if PaymentMoves(l, m) {
      PaymentMovesLeave(l, m);
    } else {
      DisturbsLeaves(l, m, d);
    }
  }

  lemma InventoryMovesKeepExpiry(l: Local, m: Local)
    requires LocalInv(l) && l.known && InventoryMoves(l, m)
    ensures m.reservation == Some(EXPIRED) <==> l.reservation == Some(EXPIRED)
  {
    if m == InventorySeesCreated(l, true) || m == InventorySeesCreated(l, false) {
    } else if m == InventorySeesSucceeded(l) {
    } else {
      assert m == InventorySeesFailure(l, Declined) || m == InventorySeesFailure(l, Cancelled);
    }
  }

  /** The only way a reservation becomes EXPIRED. */
  lemma MovesThatExpire(l: Local, m: Local, d: Disturbance)
    requires LocalInv(l) && Moves(l, m, d)
    ensures l.reservation == Some(EXPIRED) ==> m.reservation == Some(EXPIRED)
    ensures m.reservation == Some(EXPIRED) && l.reservation != Some(EXPIRED) ==>
      l.reservation == Some(HELD) && d == Expires
  {
    if m == l || !l.known {
    } else if InventoryMoves(l, m) {
      InventoryMovesKeepExpiry(l, m);
    } else if OrderMoves(l, m) {
      OrderMovesLeave(l, m);
    } else if PaymentMoves(l, m) {
      PaymentMovesLeave(l, m);
    } else {
      DisturbsLeaves(l, m, d);
    }
  }

  /** An order's one cancellation is a paid one exactly when the order was paid at the time. */
  lemma MovesThatCancel(l: Local, m: Local, d: Disturbance)
    requires l.known && Moves(l, m, d)
    ensures l.status == CANCELLED ==> m.status == CANCELLED && m.cancelledPaid == l.cancelledPaid
    ensures l.status != CANCELLED ==>
      m.cancelledPaid == (l.cancelledPaid || (m.status == CANCELLED && l.status in PAID_STATUSES))
  {
    if m == l {
    } else if InventoryMoves(l, m) {
      InventoryMovesLeave(l, m);
    } else if OrderMoves(l, m) {
      OrderMovesLeave(l, m);
    } else if PaymentMoves(l, m) {
      PaymentMovesLeave(l, m);
    } else {
      DisturbsLeaves(l, m, d);
    }
  }

  /** The recorded flag is set by cancelling in a paid status, and by nothing else. */
  lemma MovesThatFlag(l: Local, m: Local, d: Disturbance)
    requires LocalInv(l) && Moves(l, m, d)
    ensures m.cancelledPaid <==> l.cancelledPaid || (l.known && l.status in PAID_STATUSES && m.status == CANCELLED)
  {
    if l.known {
      MovesThatCancel(l, m, d);
    }
  }

  // ------------------------------------------------------------ agreement

  /** Everything published about the order has been handled by everyone it is for. */
  predicate Quiet(l: Local) {
    && (l.created > 0 ==> Created in l.inventorySaw)
    && (l.reserved > 0 ==> Reserved in l.orderSaw && Reserved in l.paymentSaw)
    && (l.refused > 0 ==> Refused in l.orderSaw)
    && (l.succeeded > 0 ==> Succeeded in l.orderSaw && Succeeded in l.inventorySaw)
    && (l.declined > 0 ==> Declined in l.orderSaw && Declined in l.inventorySaw)
    && (l.cancelled > 0 ==> Cancelled in l.inventorySaw && Cancelled in l.paymentSaw)
  }

  predicate Accepted(status: OrderStatus) {
    status == CONFIRMED || status == SHIPPED || status == DELIVERED
  }

  predicate KeepsMoney(payment: Option<PaymentStatus>) {
    payment == Some(Payments.PENDING) || payment == Some(Payments.SUCCEEDED)
  }

  predicate KeepsStock(reservation: Option<ReservationStatus>) {
    reservation == Some(HELD) || reservation == Some(COMMITTED)
  }

  /** The three statuses tell one story: an accepted order is paid for and deducted, and of one that
      failed or was cancelled no payment stands and no stock is kept. */
  predicate Agreed(status: OrderStatus, payment: Option<PaymentStatus>, reservation: Option<ReservationStatus>) {
    if Accepted(status) then payment == Some(Payments.SUCCEEDED) && reservation == Some(COMMITTED)
    else (status == FAILED || status == CANCELLED) && !KeepsMoney(payment) && !KeepsStock(reservation)
  }

  predicate Agree(l: Local) {
    Agreed(l.status, l.payment, l.reservation)
  }

  /** What agreement takes of an order whose money was captured; `repaid` is an administrator's refund.
      Cancelled: it was paid at the time or repaid since, and inventory did not hear of the
      cancellation first. Retried: it failed, and was repaid. Otherwise: nothing came between. */
  predicate Undisturbed(l: Local, repaid: bool) {
    Captured(l) ==>
      if l.status == CANCELLED then
        && (l.cancelledPaid || repaid)
        && !(l.premature && l.attempts == 1 && l.reservation != Some(EXPIRED))
      else if l.attempts > 1 then l.status == FAILED && repaid
      else !l.overtaken && !repaid && l.reservation != Some(EXPIRED)
  }

  /** A payment is REFUNDED by an administrator or by the handled cancellation of a paid order. */
  predicate RepaidOk(l: Local, repaid: bool) {
    && (repaid ==> l.payment == Some(Payments.REFUNDED))
    && (l.payment == Some(Payments.REFUNDED) ==> repaid || (l.cancelledPaid && Cancelled in l.paymentSaw))
  }

  /** Once quiet, a captured payment of a cancelled order is given back exactly when the order was paid
      at the cancellation or an administrator repaid it. */
  lemma CancelledMoney(l: Local, repaid: bool)
    requires LocalInv(l) && l.known && Quiet(l) && RepaidOk(l, repaid) && l.status == CANCELLED && Captured(l)
    ensures l.payment == Some(Payments.REFUNDED) <==> l.cancelledPaid || repaid
  {
  }

  /** Once quiet, a cancelled order's stock stays deducted exactly when inventory heard of the
      cancellation first, the first charge went through and the hold did not expire. */
  lemma CancelledStock(l: Local)
    requires LocalInv(l) && l.known && Quiet(l) && l.status == CANCELLED
    ensures l.reservation != Some(HELD)
    ensures l.reservation == Some(COMMITTED) <==>
      l.premature && Captured(l) && l.attempts == 1 && l.reservation != Some(EXPIRED)
  {
    match l.reservation {
      case None =>
      case Some(HELD) =>
      case Some(COMMITTED) =>
      case Some(RELEASED) =>
      case Some(EXPIRED) =>
    }
  }

  /** Once quiet, an order cancelled while paid is refunded and its units are back. */
  lemma PaidCancellationEnds(l: Local)
    requires LocalInv(l) && l.known && Quiet(l) && l.cancelledPaid
    ensures l.status == CANCELLED && l.payment == Some(Payments.REFUNDED)
    ensures l.reservation == Some(RELEASED) || l.reservation == Some(EXPIRED)
  {
    CancelledStock(l);
    match l.reservation {
      case None =>
      case Some(HELD) =>
      case Some(COMMITTED) =>
      case Some(RELEASED) =>
      case Some(EXPIRED) =>
    }
  }

  /** Without a capture nothing is kept. */
  lemma UncapturedAgrees(l: Local)
    requires LocalInv(l) && l.known && Quiet(l) && !Captured(l)
    ensures Agree(l)
  {
    if l.status == CANCELLED {
      CancelledStock(l);
    }
  }

  /** A captured order that was not cancelled. */
  lemma UncancelledAgrees(l: Local, repaid: bool)
    requires LocalInv(l) && l.known && Quiet(l) && RepaidOk(l, repaid) && l.status != CANCELLED && Captured(l)
    ensures Agree(l) <==> Undisturbed(l, repaid)
  {
    match l.reservation {
      case None =>
      case Some(HELD) =>
      case Some(COMMITTED) =>
      case Some(RELEASED) =>
      case Some(EXPIRED) =>
    }
  }

  /** Once quiet, the services agree exactly on the undisturbed orders. */
  lemma AgreeIffUndisturbed(l: Local, repaid: bool)
    requires LocalInv(l) && l.known && Quiet(l) && RepaidOk(l, repaid)
    ensures Agree(l) <==> Undisturbed(l, repaid)
  {
    if !Captured(l) {
      UncapturedAgrees(l);
    } else if l.status == CANCELLED {
      CancelledMoney(l, repaid);
      CancelledStock(l);
    } else {
      UncancelledAgrees(l, repaid);
    }
  }

  // ------------------------------------------------------------ the saga's own three endings

  /** Accepted, paid and deducted; or failed, declined and released; or failed with neither a payment
      nor a reservation. */
  predicate OneOfThree(status: OrderStatus, payment: Option<PaymentStatus>, reservation: Option<ReservationStatus>) {
    || (Accepted(status) && payment == Some(Payments.SUCCEEDED) && reservation == Some(COMMITTED))
    || (status == FAILED && payment == Some(Payments.FAILED) && reservation == Some(RELEASED))
    || (status == FAILED && payment == None && reservation == None)
  }

  /** Once quiet, an order ends in one of the three exactly when it was not cancelled, refunded or
      expired, and any capture came on the first attempt and in order. */
  lemma OneOfThreeIff(l: Local)
    requires LocalInv(l) && l.known && Quiet(l)
    ensures OneOfThree(l.status, l.payment, l.reservation) <==>
      && l.status != CANCELLED
      && l.payment != Some(Payments.REFUNDED)
      && l.reservation != Some(EXPIRED)
      && (l.payment == Some(Payments.SUCCEEDED) ==> l.attempts == 1 && !l.overtaken)
  {
    match l.reservation {
      case None =>
      case Some(HELD) =>
      case Some(COMMITTED) =>
      case Some(RELEASED) =>
      case Some(EXPIRED) =>
    }
    match l.payment {
      case None =>
      case Some(PENDING) =>
      case Some(SUCCEEDED) =>
      case Some(FAILED) =>
      case Some(REFUNDED) =>
    }
  }

  /** The same, in terms of who repaid it. */
  lemma OneOfThreeUnlessRepaid(l: Local, repaid: bool)
    requires LocalInv(l) && l.known && Quiet(l) && RepaidOk(l, repaid)
    ensures OneOfThree(l.status, l.payment, l.reservation) <==>
      && l.status != CANCELLED && !repaid && l.reservation != Some(EXPIRED)
      && (Captured(l) ==> l.attempts == 1 && !l.overtaken)
  {
    OneOfThreeIff(l);
  }

  /** The quiet ends without agreement, and what is kept in each. */
  lemma DisturbedEnds(l: Local, repaid: bool)
    requires LocalInv(l) && l.known && Quiet(l) && RepaidOk(l, repaid) && !Agree(l)
    ensures Captured(l)
    ensures l.status == INVENTORY_RESERVED || l.status == FAILED || l.status == CANCELLED || Accepted(l.status)
    ensures l.status == INVENTORY_RESERVED ==> l.overtaken && l.attempts == 1
    ensures l.status == FAILED ==>
      l.payment == Some(Payments.SUCCEEDED) && l.attempts > 1 && !KeepsStock(l.reservation)
    ensures l.status == CANCELLED ==>
      && !l.cancelledPaid
      && (l.payment == Some(Payments.SUCCEEDED) || (l.premature && l.reservation == Some(COMMITTED)))
    ensures Accepted(l.status) ==>
      l.payment == Some(Payments.REFUNDED) || l.reservation == Some(EXPIRED) || l.reservation == Some(RELEASED)
  {
    match l.reservation {
      case None =>
      case Some(HELD) =>
      case Some(COMMITTED) =>
      case Some(RELEASED) =>
      case Some(EXPIRED) =>
    }
  }
}
