/** The payment service object: rows updated around the provider call, proved equal to `Payments`. */
module PaymentServices {
  import opened Prelude
  import opened Events
  import opened Payments

  class PaymentService {
    var payments: map<OrderId, Payment>
    var outbox: seq<Event>

    /** The database as one value. */
    ghost function Tables(): Db
      reads this
    {
      Db(payments, outbox)
    }

    constructor ()
      ensures Tables() == EMPTY
    {
      payments, outbox := map[], [];
    }

    /** Call the provider and record the outcome, as a status and as an event, either way. */
    method AttemptCharge(o: OrderId, token: string, provider: Provider)
      requires o in payments
      modifies this
      ensures Tables() == Payments.AttemptCharge(old(Tables()), o, old(payments)[o], token, provider)
    {
      var p := payments[o];
      var verdict := Charge(p.amount, token, provider);
      match verdict {
        case Rejected(code, message, retryable) =>
          p := p.(status := FAILED);
          p := p.(failureCode := Some(code), failureMessage := Some(Truncate(message, 500)));
          payments := payments[o := p];
          outbox := outbox
            + [PaymentFailed(o, p.user, p.amount, p.currency, code, Truncate(message, 500), retryable)];
        case Captured(ref) =>
          p := p.(status := SUCCEEDED);
          p := p.(providerRef := Some(ref));
          payments := payments[o := p];
          outbox := outbox + [PaymentSucceeded(o, p.user, p.amount, p.currency, ref)];
      }
    }

    /** Charge once for an order; false when a payment exists already.

        The PENDING row goes in before the provider is called. */
    method ChargeForOrder(q: ChargeRequest, provider: Provider) returns (charged: bool)
      modifies this
      ensures charged == (q.order !in old(payments))
      ensures Tables() == Payments.ChargeForOrder(old(Tables()), q, provider)
      ensures Inv(old(Tables())) ==> Inv(Tables())
    {
      ghost var start := Tables();
      if Inv(start) {
        ChargeKeepsInv(start, q, provider);
      }
      if q.order in payments {
        return false;
      }
      payments := payments[q.order := NewPayment(q)];
      AttemptCharge(q.order, q.payment.token, provider);
      assert payments == Payments.ChargeForOrder(start, q, provider).payments;
      charged := true;
    }

    /** A customer's retry of a failed payment. */
    method RetryPayment(o: OrderId, token: string, caller: UserId, provider: Provider) returns (error: Option<Error>)
      modifies this
      ensures match Payments.RetryPayment(old(Tables()), o, token, caller, provider)
              case Done(next) => error == None && Tables() == next
              case Raised(e) => error == Some(e) && Tables() == old(Tables())
      ensures Inv(old(Tables())) ==> Inv(Tables())
    {
      ghost var start := Tables();
      if Inv(start) {
        RetryKeepsInv(start, o, token, caller, provider);
      }
      if o !in payments {
        return Some(NotFound);
      }
      var p := payments[o];
      if p.user != caller {
        return Some(Forbidden);
      }
      if p.status == SUCCEEDED {
        return Some(AlreadyPaid);
      }
      if p.status == REFUNDED {
        return Some(AlreadyRefunded);
      }
      p := p.(attempts := p.attempts + 1);
      p := p.(status := PENDING);
      p := p.(failureCode := None, failureMessage := None);
      payments := payments[o := p];
      AttemptCharge(o, token, provider);
      assert payments == Payments.AttemptCharge(start, o, p, token, provider).payments;
      error := None;
    }

    /** `refunded_amount`: what the completed refunds add up to. */
    method SumCompleted(refunds: seq<Refund>) returns (total: Money)
      ensures total == RefundedAmount(refunds)
    {
      total := 0;
      var i := 0;
      while i < |refunds|
        invariant 0 <= i <= |refunds| && total == RefundedAmount(refunds[..i])
      {
        assert refunds[..i + 1][..i] == refunds[..i];
        if refunds[i].status == REFUND_COMPLETED {
          total := total + refunds[i].amount;
        }
        i := i + 1;
      }
      assert refunds[..i] == refunds;
    }

    /** Compensation for a cancelled order that was paid, or an administrator's refund. */
    method RefundForOrder(o: OrderId, reason: string, amount: Option<Money>)
      returns (refunded: bool, error: Option<Error>)
      modifies this
      ensures match Payments.RefundForOrder(old(Tables()), o, reason, amount)
              case Done(None) => !refunded && error == None && Tables() == old(Tables())
              case Done(Some(next)) => refunded && error == None && Tables() == next
              case Raised(e) => !refunded && error == Some(e) && Tables() == old(Tables())
      ensures Inv(old(Tables())) ==> Inv(Tables())
    {
      ghost var start := Tables();
      if Inv(start) {
        RefundKeepsInv(start, o, reason, amount);
      }
      if o !in payments || payments[o].status == REFUNDED || payments[o].status != SUCCEEDED {
        return false, None;
      }
      var p := payments[o];
      var refundAmount := if amount.Some? then amount.value else p.amount;
      if refundAmount <= 0 {
        return false, Some(NotPositive);
      }
      var already := SumCompleted(p.refunds);
      if refundAmount > p.amount - already {
        return false, Some(ExceedsCaptured);
      }
      var refund := Refund(refundAmount, Truncate(reason, 300), REFUND_PENDING);
      if !RefundAccepted(if p.providerRef.Some? then p.providerRef.value else "") {
        refund := refund.(status := REFUND_FAILED);
        payments := payments[o := p.(refunds := p.refunds + [refund])];
        return true, None;
      }
      refund := refund.(status := REFUND_COMPLETED);
      p := p.(status := REFUNDED, refunds := p.refunds + [refund]);
      payments := payments[o := p];
      outbox := outbox + [PaymentRefunded(o, p.user, refundAmount, p.currency, Truncate(reason, 300))];
      return true, None;
    }
  }
}
