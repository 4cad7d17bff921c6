/** Payment's transactions and the mock provider, as functions, with the lifetime every payment keeps. */
module Payments {
  import opened Prelude
  import opened Events

  datatype PaymentStatus = PENDING | SUCCEEDED | FAILED | REFUNDED

  datatype RefundStatus = REFUND_PENDING | REFUND_COMPLETED | REFUND_FAILED

  datatype Refund = Refund(amount: Money, reason: string, status: RefundStatus)

  datatype Payment = Payment(user: UserId, amount: Money, currency: string, status: PaymentStatus, kind: string,
                             providerRef: Option<string>, failureCode: Option<string>,
                             failureMessage: Option<string>, attempts: nat, refunds: seq<Refund>)

  /** `payments.order_id` is UNIQUE, so the table is a map. */
  datatype Db = Db(payments: map<OrderId, Payment>, outbox: seq<Event>)

  const EMPTY: Db := Db(map[], [])

  // ------------------------------------------------------------ the provider

  datatype Verdict = Captured(ref: string) | Rejected(code: string, message: string, retryable: bool)

  /** What a call to the provider depends on besides its arguments: the failure-rate verdict for
      the order, and the random part of a new reference. */
  datatype Provider = Provider(injectsFailure: bool, nonce: string)

  const TOKEN_DECLINED: string := "tok_test_declined"
  const TOKEN_INSUFFICIENT: string := "tok_test_insufficient"
  const TOKEN_TIMEOUT: string := "tok_test_timeout"
  const TOKEN_EXPIRED: string := "tok_test_expired"

  function Charge(amount: Money, token: string, provider: Provider): Verdict {
    if token == TOKEN_DECLINED then
      Rejected("card_declined", "the card was declined by the issuing bank", true)
    else if token == TOKEN_INSUFFICIENT then
      Rejected("insufficient_funds", "the card has insufficient funds", true)
    else if token == TOKEN_EXPIRED then
      Rejected("card_expired", "the card has expired", true)
    else if token == TOKEN_TIMEOUT then
      Rejected("gateway_timeout", "the payment provider did not respond in time", false)
    else if provider.injectsFailure then
      Rejected("card_declined", "randomly injected decline (MOCK_FAILURE_RATE)", true)
    else if amount <= 0 then
      Rejected("card_declined", "amount must be positive", true)
    else
      Captured("mock_ch_" + provider.nonce)
  }

  /** A refund goes through exactly when the charge has a reference. */
  predicate RefundAccepted(providerRef: string) {
    providerRef != ""
  }

  // ------------------------------------------------------------ charge and retry

  function ResultEvent(o: OrderId, p: Payment, verdict: Verdict): Event {
    match verdict
    case Captured(ref) => PaymentSucceeded(o, p.user, p.amount, p.currency, ref)
    case Rejected(code, message, retryable) =>
      PaymentFailed(o, p.user, p.amount, p.currency, code, Truncate(message, 500), retryable)
  }

  function Settled(p: Payment, verdict: Verdict): Payment {
    match verdict
    case Captured(ref) => p.(status := SUCCEEDED, providerRef := Some(ref))
    case Rejected(code, message, _) =>
      p.(status := FAILED, failureCode := Some(code), failureMessage := Some(Truncate(message, 500)))
  }

  /** `_attempt_charge`: the outcome is recorded as a status and as an event, either way. */
  function AttemptCharge(db: Db, o: OrderId, p: Payment, token: string, provider: Provider): Db {
    var verdict := Charge(p.amount, token, provider);
    Db(db.payments[o := Settled(p, verdict)], db.outbox + [ResultEvent(o, p, verdict)])
  }

  datatype ChargeRequest = ChargeRequest(order: OrderId, user: UserId, amount: Money, currency: string,
                                         payment: PaymentMethod)

  function NewPayment(q: ChargeRequest): Payment {
    Payment(q.user, q.amount, q.currency, PENDING, q.payment.kind, None, None, None, 1, [])
  }

  /** `charge_for_order`: once per order. */
  function ChargeForOrder(db: Db, q: ChargeRequest, provider: Provider): Db {
    if q.order in db.payments then db
    else AttemptCharge(db, q.order, NewPayment(q), q.payment.token, provider)
  }

  datatype Error = NotFound | Forbidden | AlreadyPaid | AlreadyRefunded | NotPositive | ExceedsCaptured

  datatype Outcome<T> = Done(value: T) | Raised(error: Error)

  /** `retry_payment`: only the owner, and never after a capture. */
  function RetryPayment(db: Db, o: OrderId, token: string, caller: UserId, provider: Provider): Outcome<Db> {
    if o !in db.payments then Raised(NotFound)
    else
      var p := db.payments[o];
      if p.user != caller then Raised(Forbidden)
      else if p.status == SUCCEEDED then Raised(AlreadyPaid)
      else if p.status == REFUNDED then Raised(AlreadyRefunded)
      else
        var again := p.(attempts := p.attempts + 1, status := PENDING, failureCode := None, failureMessage := None);
        Done(AttemptCharge(db, o, again, token, provider))
  }

  // ------------------------------------------------------------ refund

  function RefundedAmount(refunds: seq<Refund>): Money {
    if |refunds| == 0 then 0
    else
      var last := refunds[|refunds| - 1];
      RefundedAmount(refunds[..|refunds| - 1]) + (if last.status == REFUND_COMPLETED then last.amount else 0)
  }

  function RefundFor(p: Payment, reason: string, amount: Option<Money>): Refund {
    Refund(if amount.Some? then amount.value else p.amount, Truncate(reason, 300), REFUND_PENDING)
  }

  /** `refund_for_order`. Done(None) when there is nothing to refund. */
  function RefundForOrder(db: Db, o: OrderId, reason: string, amount: Option<Money>): Outcome<Option<Db>> {
    if o !in db.payments || db.payments[o].status != SUCCEEDED then Done(None)
    else
      var p := db.payments[o];
      var r := RefundFor(p, reason, amount);
      if r.amount <= 0 then Raised(NotPositive)
      else if r.amount > p.amount - RefundedAmount(p.refunds) then Raised(ExceedsCaptured)
      else if RefundAccepted(if p.providerRef.Some? then p.providerRef.value else "") then
        Done(Some(Db(
          db.payments[o := p.(status := REFUNDED, refunds := p.refunds + [r.(status := REFUND_COMPLETED)])],
          db.outbox + [PaymentRefunded(o, p.user, r.amount, p.currency, Truncate(reason, 300))])))
      else
        Done(Some(Db(db.payments[o := p.(refunds := p.refunds + [r.(status := REFUND_FAILED)])], db.outbox)))
  }

  // ------------------------------------------------------------ the consumer's handlers

  predicate Subscribes(k: Kind) {
    k == Reserved || k == Cancelled
  }

  function RequestOf(e: Event): ChargeRequest
    requires e.InventoryReserved?
  {
    ChargeRequest(e.order, e.user, e.total, e.currency, e.payment)
  }

  /** One event handled in one transaction; None when the handler raises. */
  function Handle(db: Db, e: Event, provider: Provider): Option<Db> {
    match e
    case InventoryReserved(_, _, _, _, _, _, _) => Some(ChargeForOrder(db, RequestOf(e), provider))
    case OrderCancelled(o, _, reason, wasPaid, _) =>
      if !wasPaid then Some(db)
      else
        match RefundForOrder(db, o, "order cancelled: " + reason, None) {
          case Done(next) => Some(if next.Some? then next.value else db)
          case Raised(_) => None
        }
    case _ => Some(db)
  }

  // ------------------------------------------------------------ the lifetime of a payment

  function CompletedRefunds(refunds: seq<Refund>): nat {
    if |refunds| == 0 then 0
    else
      CompletedRefunds(refunds[..|refunds| - 1]) + (if refunds[|refunds| - 1].status == REFUND_COMPLETED then 1 else 0)
  }

  predicate WasCaptured(p: Payment) {
    p.status == SUCCEEDED || p.status == REFUNDED
  }

  /** What holds of a payment row between transactions. */
  ghost predicate PaymentOk(p: Payment) {
    && p.status != PENDING
    && p.attempts >= 1
    && (WasCaptured(p) ==> p.amount > 0 && p.providerRef.Some? && p.providerRef.value != "")
    && CompletedRefunds(p.refunds) == (if p.status == REFUNDED then 1 else 0)
    && 0 <= RefundedAmount(p.refunds)
    && (p.status != REFUNDED ==> RefundedAmount(p.refunds) == 0)
    && (p.status == REFUNDED ==> 0 < RefundedAmount(p.refunds) <= p.amount)
    && (forall i :: 0 <= i < |p.refunds| ==> p.refunds[i].status == REFUND_COMPLETED && p.refunds[i].amount > 0)
  }

  /** What the outbox says about a payment row. */
  ghost predicate EventsOk(db: Db, o: OrderId) {
    var succeeded := Count(db.outbox, Succeeded, o);
    var declined := Count(db.outbox, Declined, o);
    var refunded := Count(db.outbox, Refunded, o);
    if o !in db.payments then succeeded == 0 && declined == 0 && refunded == 0
    else
      && succeeded == (if WasCaptured(db.payments[o]) then 1 else 0)
      && succeeded + declined == db.payments[o].attempts
      && refunded == (if db.payments[o].status == REFUNDED then 1 else 0)
  }

  /** Every event about a charge carries its payment's amount. */
  ghost predicate AmountOk(db: Db, e: Event) {
    (e.PaymentSucceeded? || e.PaymentFailed?) ==>
      e.order in db.payments && db.payments[e.order].amount == e.amount && db.payments[e.order].user == e.user
  }

  ghost predicate Inv(db: Db) {
    && (forall o :: o in db.payments ==> PaymentOk(db.payments[o]))
    && (forall o: OrderId :: EventsOk(db, o))
    && (forall i :: 0 <= i < |db.outbox| ==> AmountOk(db, db.outbox[i]))
  }

  lemma EmptyInv()
    ensures Inv(EMPTY)
  {
  }

  /** The provider never captures nothing, and always hands out a reference when it captures. */
  lemma CaptureIsPositive(amount: Money, token: string, provider: Provider)
    ensures Charge(amount, token, provider).Captured? ==> amount > 0
    ensures Charge(amount, token, provider).Captured? ==> RefundAccepted(Charge(amount, token, provider).ref)
  {
    assert |"mock_ch_"| == 8;
  }

  /** The provider's whole behaviour: which charges it captures, and which rejections may be retried. */
  lemma CapturedIff(amount: Money, token: string, provider: Provider)
    ensures var v := Charge(amount, token, provider);
      var refused := token in {TOKEN_DECLINED, TOKEN_INSUFFICIENT, TOKEN_TIMEOUT, TOKEN_EXPIRED};
      && (v.Captured? <==> !refused && !provider.injectsFailure && amount > 0)
      && (v.Rejected? ==> (v.retryable <==> token != TOKEN_TIMEOUT))
      && (v.Rejected? ==> (v.code == "gateway_timeout" <==> token == TOKEN_TIMEOUT))
      && (v.Rejected? ==> (v.code == "insufficient_funds" <==> token == TOKEN_INSUFFICIENT))
      && (v.Rejected? ==> (v.code == "card_expired" <==> token == TOKEN_EXPIRED))
  {
    assert TOKEN_DECLINED[9] == 'd' && TOKEN_INSUFFICIENT[9] == 'i' && TOKEN_TIMEOUT[9] == 't' && TOKEN_EXPIRED[9] == 'e';
    assert "card_declined"[5] == 'd' && "card_expired"[5] == 'e' && "gateway_timeout"[0] == 'g' && "insufficient_funds"[0] == 'i';
  }

  /** `p` is a legal next attempt at the payment of order `o`. */
  predicate NextAttempt(db: Db, o: OrderId, p: Payment) {
    && p.attempts >= 1 && p.refunds == []
    && (if o in db.payments
        then db.payments[o].status == FAILED && p.attempts == db.payments[o].attempts + 1
             && p.amount == db.payments[o].amount && p.user == db.payments[o].user
        else p.attempts == 1)
  }

  lemma AttemptEvents(db: Db, o: OrderId, p: Payment, token: string, provider: Provider, other: OrderId)
    requires EventsOk(db, other) && NextAttempt(db, o, p)
    ensures EventsOk(AttemptCharge(db, o, p, token, provider), other)
  {
    var e := ResultEvent(o, p, Charge(p.amount, token, provider));
    CountSnoc(db.outbox, e, Succeeded, other);
    CountSnoc(db.outbox, e, Declined, other);
    CountSnoc(db.outbox, e, Refunded, other);
  }

  lemma AttemptAmounts(db: Db, o: OrderId, p: Payment, token: string, provider: Provider, i: nat)
    requires (forall j :: 0 <= j < |db.outbox| ==> AmountOk(db, db.outbox[j])) && NextAttempt(db, o, p)
    requires i < |AttemptCharge(db, o, p, token, provider).outbox|
    ensures AmountOk(AttemptCharge(db, o, p, token, provider), AttemptCharge(db, o, p, token, provider).outbox[i])
  {
    if i < |db.outbox| {
      assert AmountOk(db, db.outbox[i]);
    }
  }

  /** Each attempt publishes exactly one result, so results and attempts keep step. */
  lemma AttemptKeepsInv(db: Db, o: OrderId, p: Payment, token: string, provider: Provider)
    requires Inv(db) && NextAttempt(db, o, p)
    ensures Inv(AttemptCharge(db, o, p, token, provider))
  {
    var next := AttemptCharge(db, o, p, token, provider);
    CaptureIsPositive(p.amount, token, provider);
    forall other: OrderId
      ensures EventsOk(next, other)
    {
      AttemptEvents(db, o, p, token, provider, other);
    }
    forall i | 0 <= i < |next.outbox|
      ensures AmountOk(next, next.outbox[i])
    {
      AttemptAmounts(db, o, p, token, provider, i);
    }
  }

  lemma ChargeKeepsInv(db: Db, q: ChargeRequest, provider: Provider)
    requires Inv(db)
    ensures Inv(ChargeForOrder(db, q, provider))
  {
    if q.order !in db.payments {
      AttemptKeepsInv(db, q.order, NewPayment(q), q.payment.token, provider);
    }
  }

  lemma NoRefundsBeforeCapture(p: Payment)
    requires PaymentOk(p) && p.status != REFUNDED
    ensures p.refunds == []
  {
  }

  lemma RetryKeepsInv(db: Db, o: OrderId, token: string, caller: UserId, provider: Provider)
    requires Inv(db)
    ensures RetryPayment(db, o, token, caller, provider).Done? ==>
      Inv(RetryPayment(db, o, token, caller, provider).value)
  {
    if RetryPayment(db, o, token, caller, provider).Done? {
      var p := db.payments[o];
      NoRefundsBeforeCapture(p);
      var again := p.(attempts := p.attempts + 1, status := PENDING, failureCode := None, failureMessage := None);
      AttemptKeepsInv(db, o, again, token, provider);
    }
  }

  /** The database after an accepted refund. */
  function Repaid(db: Db, o: OrderId, r: Refund): Db
    requires o in db.payments
  {
    var p := db.payments[o];
    Db(db.payments[o := p.(status := REFUNDED, refunds := p.refunds + [r.(status := REFUND_COMPLETED)])],
       db.outbox + [PaymentRefunded(o, p.user, r.amount, p.currency, r.reason)])
  }

  lemma RepaidRow(p: Payment, r: Refund)
    requires PaymentOk(p) && p.status == SUCCEEDED && 0 < r.amount <= p.amount
    ensures PaymentOk(p.(status := REFUNDED, refunds := p.refunds + [r.(status := REFUND_COMPLETED)]))
    ensures RefundedAmount(p.refunds + [r.(status := REFUND_COMPLETED)]) == r.amount
  {
    NoRefundsBeforeCapture(p);
    var all := p.refunds + [r.(status := REFUND_COMPLETED)];
    assert all[..0] == [];
  }

  lemma RepaidEvents(db: Db, o: OrderId, r: Refund, other: OrderId)
    requires o in db.payments && db.payments[o].status == SUCCEEDED && EventsOk(db, other)
    ensures EventsOk(Repaid(db, o, r), other)
  {
    var e := PaymentRefunded(o, db.payments[o].user, r.amount, db.payments[o].currency, r.reason);
    CountSnoc(db.outbox, e, Succeeded, other);
    CountSnoc(db.outbox, e, Declined, other);
    CountSnoc(db.outbox, e, Refunded, other);
  }

  lemma RepaidKeepsInv(db: Db, o: OrderId, r: Refund)
    requires Inv(db) && o in db.payments && db.payments[o].status == SUCCEEDED
    requires 0 < r.amount <= db.payments[o].amount
    ensures Inv(Repaid(db, o, r))
  {
    var next := Repaid(db, o, r);
    RepaidRow(db.payments[o], r);
    forall other: OrderId
      ensures EventsOk(next, other)
    {
      RepaidEvents(db, o, r, other);
    }
    forall i | 0 <= i < |next.outbox|
      ensures AmountOk(next, next.outbox[i])
    {
      if i < |db.outbox| {
        assert AmountOk(db, db.outbox[i]);
      }
    }
  }

  /** Of a captured payment a refund either raises, for its amount, or is repaid: never rejected. */
  lemma RefundIsRepaid(db: Db, o: OrderId, reason: string, amount: Option<Money>)
    requires Inv(db) && o in db.payments && db.payments[o].status == SUCCEEDED
    ensures RefundForOrder(db, o, reason, amount) ==
      var r := RefundFor(db.payments[o], reason, amount);
      if r.amount <= 0 then Raised(NotPositive)
      else if r.amount > db.payments[o].amount then Raised(ExceedsCaptured)
      else Done(Some(Repaid(db, o, r)))
  {
    NoRefundsBeforeCapture(db.payments[o]);
  }

  lemma RefundKeepsInv(db: Db, o: OrderId, reason: string, amount: Option<Money>)
    requires Inv(db)
    ensures var r := RefundForOrder(db, o, reason, amount); r.Done? && r.value.Some? ==> Inv(r.value.value)
  {
    if o in db.payments && db.payments[o].status == SUCCEEDED {
      RefundIsRepaid(db, o, reason, amount);
      var r := RefundFor(db.payments[o], reason, amount);
      if 0 < r.amount <= db.payments[o].amount {
        RepaidKeepsInv(db, o, r);
      }
    }
  }

  lemma HandleKeepsInv(db: Db, e: Event, provider: Provider)
    requires Inv(db)
    ensures Handle(db, e, provider).Some? ==> Inv(Handle(db, e, provider).value)
  {
    match e {
      case InventoryReserved(_, _, _, _, _, _, _) => ChargeKeepsInv(db, RequestOf(e), provider);
      case OrderCancelled(o, _, reason, _, _) => RefundKeepsInv(db, o, "order cancelled: " + reason, None);
      case _ =>
    }
  }

  // ------------------------------------------------------------ what the lifetime means

  /** The automatic refund of a captured payment never raises and never fails at the provider: it
      returns the captured amount in full and closes the payment. */
  lemma FullRefundGoesThrough(db: Db, o: OrderId, reason: string)
    requires Inv(db) && o in db.payments && db.payments[o].status == SUCCEEDED
    ensures var r := RefundForOrder(db, o, reason, None);
      && r.Done? && r.value.Some?
      && r.value.value.payments[o].status == REFUNDED
      && RefundedAmount(r.value.value.payments[o].refunds) == db.payments[o].amount
      && r.value.value.payments.Keys == db.payments.Keys
      && forall other :: other in db.payments && other != o ==>
        r.value.value.payments[other] == db.payments[other]
  {
    var p := db.payments[o];
    var r := RefundFor(p, reason, None);
    assert PaymentOk(p);
    RefundIsRepaid(db, o, reason, None);
    RepaidRow(p, r);
    assert RefundForOrder(db, o, reason, None) == Done(Some(Repaid(db, o, r)));
  }

  /** One refund and the payment is closed: a partial one leaves the rest with the merchant. */
  lemma PartialRefundIsFinal(db: Db, o: OrderId, reason: string, amount: Money, again: string, rest: Option<Money>)
    requires Inv(db) && o in db.payments && db.payments[o].status == SUCCEEDED
    requires 0 < amount <= db.payments[o].amount
    ensures var r := RefundForOrder(db, o, reason, Some(amount));
      && r.Done? && r.value.Some?
      && RefundedAmount(r.value.value.payments[o].refunds) == amount
      && RefundForOrder(r.value.value, o, again, rest) == Done(None)
  {
    RefundIsRepaid(db, o, reason, Some(amount));
    RepaidRow(db.payments[o], RefundFor(db.payments[o], reason, Some(amount)));
  }

  /** Captured money is never charged again, whoever asks. */
  lemma NeverChargedTwice(db: Db, o: OrderId, q: ChargeRequest, token: string, caller: UserId, provider: Provider)
    requires o in db.payments && WasCaptured(db.payments[o]) && q.order == o
    ensures ChargeForOrder(db, q, provider) == db
    ensures RetryPayment(db, o, token, caller, provider).Raised?
  {
  }
}
