/** The facts the services publish, and how an event is identified.

    An event id is the position of its row in its producer's outbox table: rows are
    only ever appended, so the id is unique and never changes. */
module Events {
  import opened Prelude

  type OrderId = nat
  type ProductId = nat
  type UserId = nat

  /** Integer paise: `Numeric(12, 2)` times an integer quantity is exact. */
  type Money = int

  datatype Line = Line(product: ProductId, quantity: int)

  datatype OrderLine = OrderLine(product: ProductId, sku: string, name: string, unitPrice: Money, quantity: int)

  /** A token, never a card number. */
  datatype PaymentMethod = PaymentMethod(kind: string, token: string, last4: Option<string>)

  datatype InsufficientItem = InsufficientItem(product: ProductId, requested: int, available: int)

  datatype LedgerReason = RESERVE | RELEASE | COMMIT | RESTOCK | ADJUST | EXPIRE

  datatype Event =
    | OrderCreated(order: OrderId, user: UserId, total: Money, currency: string,
                   items: seq<OrderLine>, payment: PaymentMethod)
    | OrderConfirmed(order: OrderId, user: UserId, total: Money, currency: string, items: seq<OrderLine>)
    | OrderCancelled(order: OrderId, user: UserId, reason: string, wasPaid: bool, items: seq<OrderLine>)
    | InventoryReserved(order: OrderId, user: UserId, expiresAt: int, lines: seq<Line>,
                        total: Money, currency: string, payment: PaymentMethod)
    | ReservationFailed(order: OrderId, user: UserId, reason: string, insufficient: seq<InsufficientItem>)
    | StockChanged(product: ProductId, sku: string, available: int, reserved: int,
                   cause: LedgerReason, ref: Option<OrderId>)
    | LowStock(product: ProductId, sku: string, available: int, threshold: int)
    | PaymentSucceeded(order: OrderId, user: UserId, amount: Money, currency: string, providerRef: string)
    | PaymentFailed(order: OrderId, user: UserId, amount: Money, currency: string,
                    code: string, message: string, retryable: bool)
    | PaymentRefunded(order: OrderId, user: UserId, amount: Money, currency: string, reason: string)

  datatype Service = OrderSide | InventorySide | PaymentSide

  datatype EventId = EventId(producer: Service, index: nat)

  /** The event's type, with the two stock topics folded into one. */
  datatype Kind =
    | Created | Confirmed | Cancelled
    | Reserved | Refused
    | Succeeded | Declined | Refunded
    | Stock

  function KindOf(e: Event): Kind {
    match e
    case OrderCreated(_, _, _, _, _, _) => Created
    case OrderConfirmed(_, _, _, _, _) => Confirmed
    case OrderCancelled(_, _, _, _, _) => Cancelled
    case InventoryReserved(_, _, _, _, _, _, _) => Reserved
    case ReservationFailed(_, _, _, _) => Refused
    case StockChanged(_, _, _, _, _, _) => Stock
    case LowStock(_, _, _, _) => Stock
    case PaymentSucceeded(_, _, _, _, _) => Succeeded
    case PaymentFailed(_, _, _, _, _, _, _) => Declined
    case PaymentRefunded(_, _, _, _, _) => Refunded
  }

  /** Is `e` an event of kind `k` about order `o`? */
  predicate Is(e: Event, k: Kind, o: OrderId) {
    k != Stock && KindOf(e) == k && e.order == o
  }

  /** Which service writes events of kind `k`. */
  function ProducerOf(k: Kind): Service {
    match k
    case Created => OrderSide
    case Confirmed => OrderSide
    case Cancelled => OrderSide
    case Reserved => InventorySide
    case Refused => InventorySide
    case Stock => InventorySide
    case Succeeded => PaymentSide
    case Declined => PaymentSide
    case Refunded => PaymentSide
  }

  /** How many events of kind `k` about order `o` an outbox holds. */
  function Count(outbox: seq<Event>, k: Kind, o: OrderId): nat {
    if |outbox| == 0 then 0
    else Count(outbox[..|outbox| - 1], k, o) + (if Is(outbox[|outbox| - 1], k, o) then 1 else 0)
  }

  lemma {:induction false} CountAppend(outbox: seq<Event>, more: seq<Event>, k: Kind, o: OrderId)
    ensures Count(outbox + more, k, o) == Count(outbox, k, o) + Count(more, k, o)
  {
    if |more| == 0 {
      assert outbox + more == outbox;
    } else {
      var all := outbox + more;
      assert all[..|all| - 1] == outbox + more[..|more| - 1];
      CountAppend(outbox, more[..|more| - 1], k, o);
    }
  }

  lemma CountOne(e: Event, k: Kind, o: OrderId)
    ensures Count([e], k, o) == if Is(e, k, o) then 1 else 0
  {
    assert [e][..0] == [];
  }

  lemma CountSnoc(outbox: seq<Event>, e: Event, k: Kind, o: OrderId)
    ensures Count(outbox + [e], k, o) == Count(outbox, k, o) + (if Is(e, k, o) then 1 else 0)
  {
    CountAppend(outbox, [e], k, o);
    CountOne(e, k, o);
  }

  lemma {:induction false} CountZero(outbox: seq<Event>, k: Kind, o: OrderId)
    requires forall i :: 0 <= i < |outbox| ==> !Is(outbox[i], k, o)
    ensures Count(outbox, k, o) == 0
  {
    if |outbox| > 0 {
      CountZero(outbox[..|outbox| - 1], k, o);
    }
  }

  /** A positive count has a witness. */
  lemma {:induction false} CountWitness(outbox: seq<Event>, k: Kind, o: OrderId) returns (i: nat)
    requires Count(outbox, k, o) > 0
    ensures i < |outbox| && Is(outbox[i], k, o)
  {
    i := |outbox| - 1;
    if !Is(outbox[i], k, o) {
      i := CountWitness(outbox[..|outbox| - 1], k, o);
    }
  }

  /** Any occurrence is counted, and two occurrences are counted twice. */
  lemma {:induction false} CountAtLeast(outbox: seq<Event>, k: Kind, o: OrderId, i: nat, j: nat)
    requires i <= j < |outbox| && Is(outbox[i], k, o) && Is(outbox[j], k, o)
    ensures Count(outbox, k, o) >= if i == j then 1 else 2
  {
    var init := outbox[..|outbox| - 1];
    if j < |init| {
      CountAtLeast(init, k, o, i, j);
    } else if i < j {
      CountAtLeast(init, k, o, i, i);
    }
  }
}
