/** Whose requests count: nobody changes anything about an order or a payment that is not theirs. */
module SagaOwners {
  import opened Prelude
  import opened Events
  import opened SagaSystem
  import opened SagaRuns
  import opened SagaRefunds
  import OrderOutcomes
  import Orders
  import PaymentOutcomes
  import Payments

  // ------------------------------------------------------------ strangers

  /** A retry by someone whose payment it is not, or a cancellation by someone who is neither the order's
      owner nor an administrator. */
  predicate IsStranger(sys: System, step: Step) {
    match step
    case Retry(o, _, caller, _) =>
      !(o in sys.payments.tables.payments && sys.payments.tables.payments[o].user == caller)
    case CancelOrder(o, caller, isAdmin, _, _) =>
      !isAdmin && !(o < |sys.orders.tables.orders| && sys.orders.tables.orders[o].user == caller)
    case _ => false
  }

  lemma StrangersChangeNothing(sys: System, step: Step)
    requires IsStranger(sys, step)
    ensures Next(sys, step) == sys
  {
    match step {
      case Retry(o, token, caller, provider) =>
        PaymentOutcomes.RetryOutcome(sys.payments.tables, o, token, caller, provider);
      case CancelOrder(o, caller, isAdmin, reason, now) =>
        OrderOutcomes.CancelOutcome(sys.orders.tables, o, caller, isAdmin, reason, now);
      case _ =>
    }
  }

  function WithoutStrangers(steps: seq<Step>): seq<Step> {
    if |steps| == 0 then []
    else
      var init, last := steps[..|steps| - 1], steps[|steps| - 1];
      WithoutStrangers(init) + (if IsStranger(Run(init), last) then [] else [last])
  }

  /** Every run is the run without the strangers in it. */
  lemma {:induction false} StrangersDoNotMatter(steps: seq<Step>)
    ensures Run(WithoutStrangers(steps)) == Run(steps)
  {
    if |steps| > 0 {
      var init, last := steps[..|steps| - 1], steps[|steps| - 1];
      StrangersDoNotMatter(init);
      if IsStranger(Run(init), last) {
        StrangersChangeNothing(Run(init), last);
        assert WithoutStrangers(init) + [] == WithoutStrangers(init);
      } else {
        RunSnoc(WithoutStrangers(init), last);
      }
    }
  }

  // ------------------------------------------------------------ attempts

  /** A retry by the payment's own user, of a payment that is not captured. */
  predicate IsOwnRetry(db: Payments.Db, step: Step, o: OrderId) {
    && step.Retry? && step.order == o && o in db.payments
    && db.payments[o].user == step.caller && !Payments.WasCaptured(db.payments[o])
  }

  function OwnRetries(steps: seq<Step>, o: OrderId): nat {
    if |steps| == 0 then 0
    else
      var init := steps[..|steps| - 1];
      OwnRetries(init, o) + (if IsOwnRetry(PaymentsOf(init), steps[|steps| - 1], o) then 1 else 0)
  }

  /** A row keeps its user and its amount; its attempts rise by one exactly on `retried`; a new row is the
      first attempt. */
  predicate AttemptsRight(a: Payments.Db, b: Payments.Db, o: OrderId, retried: bool) {
    if o in a.payments then
      && o in b.payments
      && b.payments[o].user == a.payments[o].user && b.payments[o].amount == a.payments[o].amount
      && b.payments[o].attempts == a.payments[o].attempts + (if retried then 1 else 0)
    else o in b.payments ==> b.payments[o].attempts == 1
  }

  lemma RetryAttempts(db: Payments.Db, step: Step, o: OrderId)
    requires step.Retry?
    ensures AttemptsRight(db, PaymentRequest(db, step), o, IsOwnRetry(db, step, o))
  {
    PaymentOutcomes.RetryOutcome(db, step.order, step.token, step.caller, step.provider);
  }

  lemma RefundAttempts(db: Payments.Db, step: Step, o: OrderId)
    requires Payments.Inv(db) && step.AdminRefund?
    ensures AttemptsRight(db, PaymentRequest(db, step), o, false)
  {
    AdminRefundIs(db, step);
  }

  lemma HandleAttempts(db: Payments.Db, e: Event, provider: Payments.Provider, o: OrderId)
    requires Payments.Inv(db) && Payments.Handle(db, e, provider).Some?
    ensures AttemptsRight(db, Payments.Handle(db, e, provider).value, o, false)
  {
    PaymentOutcomes.HandleOutcome(db, e, provider);
    if e.InventoryReserved? {
      PaymentOutcomes.ChargeOutcome(db, Payments.ChargeRequest(e.order, e.user, e.total, e.currency, e.payment), provider);
    } else if e.OrderCancelled? {
      PaymentOutcomes.RefundOutcome(db, e.order, "order cancelled: " + e.reason, None);
    }
  }

  lemma ConsumeAttempts(sys: System, id: EventId, provider: Payments.Provider, o: OrderId)
    requires Payments.Inv(sys.payments.tables)
    ensures AttemptsRight(sys.payments.tables, PaymentConsumes(sys, id, provider).payments.tables, o, false)
  {
    var found := Lookup(BoxesOf(sys), id);
    if found.Some? && Payments.Handle(sys.payments.tables, found.value, provider).Some? {
      HandleAttempts(sys.payments.tables, found.value, provider, o);
    }
  }

  lemma NextAttempts(sys: System, step: Step, o: OrderId)
    requires Payments.Inv(sys.payments.tables)
    ensures AttemptsRight(sys.payments.tables, Next(sys, step).payments.tables, o, IsOwnRetry(sys.payments.tables, step, o))
  {
    if step.AdminRefund? {
      RefundAttempts(sys.payments.tables, step, o);
    } else if step.Retry? {
      RetryAttempts(sys.payments.tables, step, o);
    } else if step.PaymentHandles? {
      ConsumeAttempts(sys, step.id, step.provider, o);
    }
  }

  /** The card is charged once for the reservation and once for each of its owner's retries, and for
      nothing else: attempts are counted exactly. */
  lemma {:induction false} AttemptsAreOwn(steps: seq<Step>, o: OrderId)
    ensures if o in PaymentsOf(steps).payments
            then PaymentsOf(steps).payments[o].attempts == 1 + OwnRetries(steps, o)
            else OwnRetries(steps, o) == 0
  {
    if |steps| > 0 {
      var init := steps[..|steps| - 1];
      AttemptsAreOwn(init, o);
      RunPaymentsInv(init);
      NextAttempts(Run(init), steps[|steps| - 1], o);
    }
  }
}
