/** How much of a captured payment is given back: one refund per payment, of whatever amount came first. */
module SagaRefunds {
  import opened Prelude
  import opened Events
  import opened SagaSystem
  import opened SagaRuns
  import opened SagaProjection
  import Delivery
  import Payments

  function PaymentsOf(steps: seq<Step>): Payments.Db {
    Run(steps).payments.tables
  }

  /** An administrator's refund of a part of the captured amount, about to go through. */
  predicate IsPartial(db: Payments.Db, step: Step, o: OrderId) {
    && step.AdminRefund? && step.order == o && step.amount.Some?
    && o in db.payments && db.payments[o].status == Payments.SUCCEEDED
    && 0 < step.amount.value < db.payments[o].amount
  }

  /** Did an administrator give back a part of the order's money before anything else gave it back? */
  predicate PartlyRepaid(steps: seq<Step>, o: OrderId) {
    if |steps| == 0 then false
    else
      || PartlyRepaid(steps[..|steps| - 1], o)
      || IsPartial(PaymentsOf(steps[..|steps| - 1]), steps[|steps| - 1], o)
  }

  // ------------------------------------------------------------ one step

  predicate IsRefunded(db: Payments.Db, o: OrderId) {
    o in db.payments && db.payments[o].status == Payments.REFUNDED
  }

  function RefundedOf(p: Payments.Payment): Money {
    Payments.RefundedAmount(p.refunds)
  }

  /** What one transaction may do to a payment row: a refunded row stays as it is, and a row becomes
      refunded with its whole amount given back, unless `partial`. */
  ghost predicate RefundsRight(a: Payments.Db, b: Payments.Db, o: OrderId, partial: bool) {
    && (IsRefunded(a, o) ==> o in b.payments && b.payments[o] == a.payments[o])
    && (IsRefunded(b, o) && !IsRefunded(a, o) ==>
          (RefundedOf(b.payments[o]) == b.payments[o].amount <==> !partial))
    && (partial ==> IsRefunded(b, o) && !IsRefunded(a, o))
  }

  lemma RepaidRefundsRight(db: Payments.Db, paid: OrderId, r: Payments.Refund, o: OrderId)
    requires Payments.Inv(db) && paid in db.payments && db.payments[paid].status == Payments.SUCCEEDED
    requires 0 < r.amount <= db.payments[paid].amount
    ensures RefundsRight(db, Payments.Repaid(db, paid, r), o, paid == o && r.amount < db.payments[paid].amount)
  {
    Payments.RepaidRow(db.payments[paid], r);
  }

  /** What the request leaves: a repaid row, or everything as it was. */
  lemma AdminRefundIs(db: Payments.Db, step: Step)
    requires Payments.Inv(db) && step.AdminRefund?
    ensures if step.order in db.payments && db.payments[step.order].status == Payments.SUCCEEDED
            then var r := Payments.RefundFor(db.payments[step.order], step.reason, step.amount);
              PaymentRequest(db, step)
              == if 0 < r.amount <= db.payments[step.order].amount then Payments.Repaid(db, step.order, r) else db
            else PaymentRequest(db, step) == db
  {
    if step.order in db.payments && db.payments[step.order].status == Payments.SUCCEEDED {
      Payments.RefundIsRepaid(db, step.order, step.reason, step.amount);
    }
  }

  lemma AdminRefundsRight(db: Payments.Db, step: Step, o: OrderId)
    requires Payments.Inv(db) && step.AdminRefund?
    ensures RefundsRight(db, PaymentRequest(db, step), o, IsPartial(db, step, o))
  {
    AdminRefundIs(db, step);
    if step.order in db.payments && db.payments[step.order].status == Payments.SUCCEEDED {
      var p := db.payments[step.order];
      var r := Payments.RefundFor(p, step.reason, step.amount);
      assert Payments.PaymentOk(p);
      if 0 < r.amount <= p.amount {
        RepaidRefundsRight(db, step.order, r, o);
      }
    }
  }

  lemma RetryRefundsRight(db: Payments.Db, step: Step, o: OrderId)
    requires step.Retry?
    ensures RefundsRight(db, PaymentRequest(db, step), o, false)
  {
  }

  lemma HandleRefundsRight(db: Payments.Db, e: Event, provider: Payments.Provider, o: OrderId)
    requires Payments.Inv(db) && Payments.Handle(db, e, provider).Some?
    ensures RefundsRight(db, Payments.Handle(db, e, provider).value, o, false)
  {
    if e.OrderCancelled? && e.wasPaid && e.order in db.payments && db.payments[e.order].status == Payments.SUCCEEDED {
      var r := Payments.RefundFor(db.payments[e.order], "order cancelled: " + e.reason, None);
      assert Payments.PaymentOk(db.payments[e.order]);
      Payments.RefundIsRepaid(db, e.order, "order cancelled: " + e.reason, None);
      RepaidRefundsRight(db, e.order, r, o);
    }
  }

  lemma ConsumeRefundsRight(sys: System, id: EventId, provider: Payments.Provider, o: OrderId)
    requires Payments.Inv(sys.payments.tables)
    ensures RefundsRight(sys.payments.tables, PaymentConsumes(sys, id, provider).payments.tables, o, false)
  {
    var found := Lookup(BoxesOf(sys), id);
    if found.Some? && Payments.Handle(sys.payments.tables, found.value, provider).Some? {
      HandleRefundsRight(sys.payments.tables, found.value, provider, o);
    }
  }

  lemma NextRefundsRight(sys: System, step: Step, o: OrderId)
    requires Payments.Inv(sys.payments.tables)
    ensures RefundsRight(sys.payments.tables, Next(sys, step).payments.tables, o, IsPartial(sys.payments.tables, step, o))
  {
    if step.AdminRefund? {
      AdminRefundsRight(sys.payments.tables, step, o);
    } else if step.Retry? {
      RetryRefundsRight(sys.payments.tables, step, o);
    } else if step.PaymentHandles? {
      ConsumeRefundsRight(sys, step.id, step.provider, o);
    }
  }

  // ------------------------------------------------------------ every run

  lemma RunPaymentsInv(steps: seq<Step>)
    ensures Payments.Inv(PaymentsOf(steps))
  {
    EveryRunKeepsInv(steps);
  }

  lemma StepRefundsRight(steps: seq<Step>, o: OrderId)
    requires |steps| > 0
    ensures RefundsRight(PaymentsOf(steps[..|steps| - 1]), PaymentsOf(steps), o,
                         IsPartial(PaymentsOf(steps[..|steps| - 1]), steps[|steps| - 1], o))
  {
    RunPaymentsInv(steps[..|steps| - 1]);
    NextRefundsRight(Run(steps[..|steps| - 1]), steps[|steps| - 1], o);
  }

  /** The amount given back, exactly: a refunded payment was given back in full if and only if no
      administrator's partial refund came first. */
  lemma {:induction false} RefundIsFullIff(steps: seq<Step>, o: OrderId)
    ensures IsRefunded(PaymentsOf(steps), o) ==>
      (RefundedOf(PaymentsOf(steps).payments[o]) == PaymentsOf(steps).payments[o].amount <==> !PartlyRepaid(steps, o))
    ensures PartlyRepaid(steps, o) ==> IsRefunded(PaymentsOf(steps), o)
  {
    if |steps| > 0 {
      RefundIsFullIff(steps[..|steps| - 1], o);
      StepRefundsRight(steps, o);
    }
  }

  /** A refund is final: whatever follows, the payment row stays as the refund left it. */
  lemma {:induction false} RefundIsFinal(steps: seq<Step>, r: seq<Step>, o: OrderId)
    requires steps <= r && IsRefunded(PaymentsOf(steps), o)
    ensures o in PaymentsOf(r).payments && PaymentsOf(r).payments[o] == PaymentsOf(steps).payments[o]
    decreases |r|
  {
    if |r| > |steps| {
      RefundIsFinal(steps, r[..|r| - 1], o);
      StepRefundsRight(r, o);
    } else {
      assert r == steps;
    }
  }
}
