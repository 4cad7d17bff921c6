/** What each payment transaction answers and writes, field by field. */
module PaymentOutcomes {
  import opened Prelude
  import opened Events
  import opened Payments

  // ------------------------------------------------------------ the provider

  /** The provider's answer to every charge. */
  lemma ChargeAnswers(amount: Money, token: string, provider: Provider)
    ensures Charge(amount, token, provider) ==
      if token == "tok_test_declined" then Rejected("card_declined", "the card was declined by the issuing bank", true)
      else if token == "tok_test_insufficient" then
        Rejected("insufficient_funds", "the card has insufficient funds", true)
      else if token == "tok_test_expired" then Rejected("card_expired", "the card has expired", true)
      else if token == "tok_test_timeout" then
        Rejected("gateway_timeout", "the payment provider did not respond in time", false)
      else if provider.injectsFailure then
        Rejected("card_declined", "randomly injected decline (MOCK_FAILURE_RATE)", true)
      else if amount <= 0 then Rejected("card_declined", "amount must be positive", true)
      else Captured("mock_ch_" + provider.nonce)
  {
  }

  // ------------------------------------------------------------ one attempt

  /** `s[:n]`. */
  function First(s: string, n: nat): string {
    if |s| <= n then s else s[..n]
  }

  /** The row of `o` becomes `p` and `more` is published; nothing else changes. */
  ghost predicate Writes(db: Db, next: Db, o: OrderId, p: Payment, more: seq<Event>) {
    next == Db(db.payments[o := p], db.outbox + more)
  }

  /** One attempt at `p`: the provider is asked for its own amount with `token`, and the row and the one
      event say what it answered. */
  ghost predicate Attempts(db: Db, next: Db, o: OrderId, p: Payment, token: string, provider: Provider) {
    match Charge(p.amount, token, provider)
    case Captured(ref) =>
      Writes(db, next, o, p.(status := SUCCEEDED, providerRef := Some(ref)),
             [Event.PaymentSucceeded(o, p.user, p.amount, p.currency, ref)])
    case Rejected(code, message, retryable) =>
      Writes(db, next, o, p.(status := FAILED, failureCode := Some(code), failureMessage := Some(First(message, 500))),
             [Event.PaymentFailed(o, p.user, p.amount, p.currency, code, First(message, 500), retryable)])
  }

  /** The first charge of an order: its amount, its owner, its token, one attempt, no refunds. */
  lemma ChargeOutcome(db: Db, q: ChargeRequest, provider: Provider)
    ensures if q.order in db.payments then ChargeForOrder(db, q, provider) == db
            else Attempts(db, ChargeForOrder(db, q, provider), q.order,
                          Payment(q.user, q.amount, q.currency, PENDING, q.payment.kind, None, None, None, 1, []),
                          q.payment.token, provider)
  {
  }

  /** The exact answer to a retry: whose payment it is comes first, then whether it was captured. */
  lemma RetryOutcome(db: Db, o: OrderId, token: string, caller: UserId, provider: Provider)
    ensures var r := RetryPayment(db, o, token, caller, provider);
      if o !in db.payments then r == Raised(NotFound)
      else if db.payments[o].user != caller then r == Raised(Forbidden)
      else if db.payments[o].status == SUCCEEDED then r == Raised(AlreadyPaid)
      else if db.payments[o].status == REFUNDED then r == Raised(AlreadyRefunded)
      else
        && r.Done?
        && var p := db.payments[o];
           Attempts(db, r.value, o,
                    p.(attempts := p.attempts + 1, status := PENDING, failureCode := None, failureMessage := None),
                    token, provider)
  {
  }

  // ------------------------------------------------------------ one refund

  /** The exact answer to a refund of a payment row between transactions: nothing unless it is captured and
      not yet refunded; then an amount outside 1 to the captured amount raises, and any other is repaid. */
  lemma RefundOutcome(db: Db, o: OrderId, reason: string, amount: Option<Money>)
    requires Inv(db)
    ensures var r := RefundForOrder(db, o, reason, amount);
      if o !in db.payments || db.payments[o].status != SUCCEEDED then r == Done(None)
      else
        var p := db.payments[o];
        var asked := if amount.Some? then amount.value else p.amount;
        if asked <= 0 then r == Raised(NotPositive)
        else if asked > p.amount then r == Raised(ExceedsCaptured)
        else
          && r.Done? && r.value.Some?
          && Writes(db, r.value.value, o,
                    p.(status := REFUNDED, refunds := [Refund(asked, First(reason, 300), REFUND_COMPLETED)]),
                    [Event.PaymentRefunded(o, p.user, asked, p.currency, First(reason, 300))])
  {
    if o in db.payments && db.payments[o].status == SUCCEEDED {
      var p := db.payments[o];
      var done := Refund(if amount.Some? then amount.value else p.amount, First(reason, 300), REFUND_COMPLETED);
      RefundIsRepaid(db, o, reason, amount);
      NoRefundsBeforeCapture(p);
      assert p.refunds + [done] == [done];
    }
  }

  /** Any row: what is asked is compared with what is left of the amount, and a row without a provider
      reference records a failed refund and stays captured. */
  lemma RefundOfAnyRow(db: Db, o: OrderId, reason: string, amount: Option<Money>)
    requires o in db.payments && db.payments[o].status == SUCCEEDED
    ensures var r := RefundForOrder(db, o, reason, amount);
      var p := db.payments[o];
      var asked := if amount.Some? then amount.value else p.amount;
      && (asked <= 0 <==> r == Raised(NotPositive))
      && (0 < asked && asked > p.amount - RefundedAmount(p.refunds) <==> r == Raised(ExceedsCaptured))
      && (r.Done? && (p.providerRef == None || p.providerRef == Some("")) ==>
            && r.value.Some?
            && Writes(db, r.value.value, o, p.(refunds := p.refunds + [Refund(asked, First(reason, 300), REFUND_FAILED)]), []))
  {
    assert db.outbox + [] == db.outbox;
  }

  lemma {:induction false} RefundedAppend(a: seq<Refund>, b: seq<Refund>)
    ensures RefundedAmount(a + b) == RefundedAmount(a) + RefundedAmount(b)
  {
    if |b| == 0 {
      assert a + b == a;
    } else {
      assert (a + b)[..|a + b| - 1] == a + b[..|b| - 1];
      RefundedAppend(a, b[..|b| - 1]);
    }
  }

  /** With `RefundedAppend`, this is what has been given back: the completed refunds, added up. */
  lemma RefundedOne(r: Refund)
    ensures RefundedAmount([r]) == if r.status == REFUND_COMPLETED then r.amount else 0
  {
    assert [r][..0] == [];
  }

  // ------------------------------------------------------------ the consumer's handlers

  /** A reservation is charged for its own total and owner; the cancellation of a paid order is refunded in
      full, with its reason; every other event leaves the database alone. */
  lemma HandleOutcome(db: Db, e: Event, provider: Provider)
    ensures match e
      case InventoryReserved(o, user, _, _, total, currency, payment) =>
        Handle(db, e, provider) == Some(ChargeForOrder(db, ChargeRequest(o, user, total, currency, payment), provider))
      case OrderCancelled(o, _, reason, wasPaid, _) =>
        if !wasPaid then Handle(db, e, provider) == Some(db)
        else
          var r := RefundForOrder(db, o, "order cancelled: " + reason, None);
          Handle(db, e, provider) ==
            if r.Raised? then None else if r.value.Some? then r.value else Some(db)
      case _ => Handle(db, e, provider) == Some(db)
  {
  }
}
