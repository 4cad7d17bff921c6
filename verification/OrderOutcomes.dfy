/** What each order transaction answers and writes, field by field. */
module OrderOutcomes {
  import opened Prelude
  import opened Events
  import opened OrderStatuses
  import opened Orders
  import opened OrderInvariants
  import OrderTheorems

  // ------------------------------------------------------------ the state machine

  /** The whole table of transitions. */
  lemma LegalMoves(a: OrderStatus, b: OrderStatus)
    ensures CanTransition(a, b) <==>
      || (a == PENDING && b in {INVENTORY_RESERVED, FAILED, CANCELLED})
      || (a == INVENTORY_RESERVED && b in {PAID, FAILED, CANCELLED})
      || (a == PAID && b in {CONFIRMED, CANCELLED})
      || (a == CONFIRMED && b in {SHIPPED, CANCELLED})
      || (a == SHIPPED && b == DELIVERED)
  {
  }

  /** A paid status is one that only a path through PAID reaches, other than CANCELLED. */
  lemma {:induction false} PaidIsThroughPaid(path: seq<OrderStatus>)
    requires |path| > 0 && path[0] == PENDING && IsPath(path)
    ensures path[|path| - 1] in PAID_STATUSES <==> PAID in path && path[|path| - 1] != CANCELLED
    ensures PAID in path ==> path[|path| - 1] in PAID_STATUSES + {CANCELLED}
  {
    if |path| > 1 {
      var init, last := path[..|path| - 1], path[|path| - 1];
      assert path == init + [last];
      forall i {:trigger init[i]} | 0 <= i < |init| - 1
        ensures CanTransition(init[i], init[i + 1])
      {
        assert path[i] == init[i];
      }
      PaidIsThroughPaid(init);
      assert CanTransition(path[|path| - 2], path[|path| - 2 + 1]);
    }
  }

  // ------------------------------------------------------------ sums over lines

  lemma {:induction false} TotalAppend(a: seq<OrderLine>, b: seq<OrderLine>)
    ensures Total(a + b) == Total(a) + Total(b)
  {
    if |b| == 0 {
      assert a + b == a;
    } else {
      assert (a + b)[..|a + b| - 1] == a + b[..|b| - 1];
      TotalAppend(a, b[..|b| - 1]);
    }
  }

  /** With `TotalAppend`, this is what a total is: unit price times quantity, added up. */
  lemma TotalOne(line: OrderLine)
    ensures Total([line]) == line.unitPrice * line.quantity
  {
    assert [line][..0] == [];
  }

  // ------------------------------------------------------------ what the saga's handlers write

  /** The row of `o` becomes `row` and `more` is published; nothing else changes. */
  ghost predicate Writes(db: Db, next: Db, o: OrderId, row: OrderRow, more: seq<Event>)
    requires o < |db.orders|
  {
    next == Db(db.orders[o := row], db.snapshots, db.outbox + more)
  }

  lemma SameAgain(db: Db, o: OrderId)
    requires o < |db.orders|
    ensures Writes(db, db, o, db.orders[o], [])
  {
  }

  lemma ReservedOutcome(db: Db, e: Event, now: int)
    requires e.InventoryReserved?
    ensures var r := Handle(db, e, now);
      if e.order < |db.orders| && db.orders[e.order].status == PENDING
      then var row := db.orders[e.order];
        r.Some? && Writes(db, r.value, e.order,
          row.(status := INVENTORY_RESERVED,
               history := row.history + [HistoryRow(Some(PENDING), INVENTORY_RESERVED, "stock reserved")]), [])
      else r == Some(db)
  {
  }

  /** A capture takes a reserved order through PAID to CONFIRMED and announces its own lines and total. */
  lemma SucceededOutcome(db: Db, e: Event, now: int)
    requires e.PaymentSucceeded?
    ensures var r := Handle(db, e, now);
      if e.order < |db.orders| && db.orders[e.order].status == INVENTORY_RESERVED
      then var row := db.orders[e.order];
        r.Some? && Writes(db, r.value, e.order,
          row.(status := CONFIRMED,
               history := row.history + [HistoryRow(Some(INVENTORY_RESERVED), PAID, "payment captured"),
                                         HistoryRow(Some(PAID), CONFIRMED, "order confirmed")]),
          [OrderConfirmed(e.order, row.user, row.total, row.currency, row.items)])
      else r == Some(db)
  {
    if e.order < |db.orders| && db.orders[e.order].status == INVENTORY_RESERVED {
      var row := db.orders[e.order];
      var first, second := HistoryRow(Some(INVENTORY_RESERVED), PAID, "payment captured"),
                           HistoryRow(Some(PAID), CONFIRMED, "order confirmed");
      assert row.history + [first] + [second] == row.history + [first, second];
    }
  }

  /** `reason[:500]`. */
  function Short(s: string): string {
    if |s| <= 500 then s else s[..500]
  }

  /** A row that has failed. */
  function FailedRow(row: OrderRow, reason: string, now: int): OrderRow {
    row.(status := FAILED, failureReason := Some(Short(reason)),
         history := row.history + [HistoryRow(Some(row.status), FAILED, Short(reason))],
         completedAt := if row.completedAt == None then Some(now) else row.completedAt)
  }

  /** A decline fails an order that is not paid for yet and announces an unpaid cancellation. */
  lemma DeclinedOutcome(db: Db, e: Event, now: int)
    requires e.PaymentFailed?
    ensures var r := Handle(db, e, now);
      if e.order < |db.orders| && db.orders[e.order].status in {PENDING, INVENTORY_RESERVED}
      then var row := db.orders[e.order];
        r.Some? && Writes(db, r.value, e.order,
          FailedRow(row, "payment failed (" + e.code + "): " + e.message, now),
          [OrderCancelled(e.order, row.user, "payment failed: " + e.code, false, row.items)])
      else r == Some(db)
  {
    assert |"payment failed ("| > 0;
  }

  /** A refusal fails it and announces nothing. */
  lemma RefusedOutcome(db: Db, e: Event, now: int)
    requires e.ReservationFailed?
    ensures var r := Handle(db, e, now);
      if e.order < |db.orders| && db.orders[e.order].status in {PENDING, INVENTORY_RESERVED}
      then r.Some? && Writes(db, r.value, e.order,
          FailedRow(db.orders[e.order], "out of stock: " + e.reason, now), [])
      else r == Some(db)
  {
    assert |"out of stock: "| > 0;
  }

  // ------------------------------------------------------------ cancel, ship, deliver

  /** The exact answer to a cancellation: who may, when, and what it writes. */
  lemma CancelOutcome(db: Db, o: OrderId, caller: UserId, isAdmin: bool, reason: string, now: int)
    ensures var r := CancelOrder(db, o, caller, isAdmin, reason, now);
      if o >= |db.orders| then r == Raised(NotFound)
      else if !isAdmin && db.orders[o].user != caller then r == Raised(Error.Forbidden)
      else if db.orders[o].status !in {PENDING, INVENTORY_RESERVED, PAID, CONFIRMED} then r == Raised(NotCancellable)
      else
        var row := db.orders[o];
        var text := Short("cancelled by " + (if isAdmin then "admin" else "customer") + ": " + reason);
        && r.Done?
        && Writes(db, r.value, o,
             row.(status := CANCELLED,
                  history := row.history + [HistoryRow(Some(row.status), CANCELLED, text)],
                  completedAt := if row.completedAt == None then Some(now) else row.completedAt),
             [OrderCancelled(o, row.user, reason, row.status == PAID || row.status == CONFIRMED, row.items)])
  {
  }

  /** The exact answer to shipping (`from` CONFIRMED) and to delivering (`from` SHIPPED). */
  lemma AdvanceOutcome(db: Db, o: OrderId, target: OrderStatus, reason: string, now: int)
    requires target == SHIPPED || target == DELIVERED
    ensures var r := Advance(db, o, target, reason, now); var from := if target == SHIPPED then CONFIRMED else SHIPPED;
      if o >= |db.orders| then r == Raised(NotFound)
      else if db.orders[o].status == target then r == Done(db)
      else if db.orders[o].status != from then r == Raised(InvalidStateTransition)
      else
        var row := db.orders[o];
        && r.Done?
        && Writes(db, r.value, o,
             row.(status := target, history := row.history + [HistoryRow(Some(from), target, reason)],
                  completedAt := if target == DELIVERED && row.completedAt == None then Some(now) else row.completedAt),
             [])
  {
  }

  // ------------------------------------------------------------ create

  predicate Mentioned(items: seq<Line>, p: ProductId) {
    exists i :: 0 <= i < |items| && items[i].product == p
  }

  /** The first line for a product. */
  function LineOf(items: seq<Line>, p: ProductId): nat {
    FirstIndex(items, (line: Line) => line.product == p)
  }

  /** `found` is the products of the request that satisfy `which`, in the order of the request. */
  ghost predicate Lists(found: seq<ProductId>, items: seq<Line>, which: ProductId -> bool) {
    && (forall p :: p in found <==> Mentioned(items, p) && which(p))
    && (forall i, j :: 0 <= i < j < |found| ==> LineOf(items, found[i]) < LineOf(items, found[j]))
  }

  /** The lines of a request have different products. */
  ghost predicate AllDifferent(items: seq<Line>) {
    forall i, j :: 0 <= i < j < |items| ==> items[i].product != items[j].product
  }

  lemma LineOfInit(items: seq<Line>, p: ProductId)
    requires |items| > 0
    ensures Mentioned(items[..|items| - 1], p) ==> LineOf(items, p) == LineOf(items[..|items| - 1], p) < |items| - 1
    ensures !Mentioned(items[..|items| - 1], p) && items[|items| - 1].product == p ==> LineOf(items, p) == |items| - 1
    ensures Mentioned(items, p) <==> Mentioned(items[..|items| - 1], p) || items[|items| - 1].product == p
  {
    var init := items[..|items| - 1];
    if Mentioned(items, p) {
      var i :| 0 <= i < |items| && items[i].product == p;
      assert i < |init| ==> init[i].product == p;
    }
    if Mentioned(init, p) {
      var i :| 0 <= i < |init| && init[i].product == p;
      assert items[i].product == p;
    }
    var k := LineOf(init, p);
    assert k < |init| ==> items[k].product == p && init[k] == items[k];
    assert forall j :: 0 <= j < k ==> init[j] == items[j];
  }

  lemma ListsGrows(found: seq<ProductId>, items: seq<Line>, which: ProductId -> bool)
    requires |items| > 0 && AllDifferent(items) && Lists(found, items[..|items| - 1], which)
    ensures var p := items[|items| - 1].product; Lists(found + (if which(p) then [p] else []), items, which)
  {
    var init, last := items[..|items| - 1], items[|items| - 1].product;
    var all := found + (if which(last) then [last] else []);
    assert !Mentioned(init, last);
    forall p
      ensures p in all <==> Mentioned(items, p) && which(p)
    {
      LineOfInit(items, p);
    }
    forall i, j | 0 <= i < j < |all|
      ensures LineOf(items, all[i]) < LineOf(items, all[j])
    {
      assert i < |found| && found[i] in found;
      assert j < |found| ==> found[j] in found;
      LineOfInit(items, all[i]);
      LineOfInit(items, all[j]);
    }
  }

  lemma DifferentInit(items: seq<Line>)
    requires |items| > 0 && AllDifferent(items)
    ensures AllDifferent(items[..|items| - 1])
  {
  }

  lemma {:induction false} MissingLists(snapshots: map<ProductId, Snapshot>, items: seq<Line>)
    requires AllDifferent(items)
    ensures Lists(Missing(snapshots, items), items, p => p !in snapshots)
  {
    if |items| > 0 {
      DifferentInit(items);
      MissingLists(snapshots, items[..|items| - 1]);
      ListsGrows(Missing(snapshots, items[..|items| - 1]), items, p => p !in snapshots);
    }
  }

  lemma {:induction false} InactiveLists(snapshots: map<ProductId, Snapshot>, items: seq<Line>)
    requires AllDifferent(items)
    ensures Lists(Inactive(snapshots, items), items, p => p in snapshots && !snapshots[p].isActive)
  {
    if |items| > 0 {
      DifferentInit(items);
      InactiveLists(snapshots, items[..|items| - 1]);
      ListsGrows(Inactive(snapshots, items[..|items| - 1]), items, p => p in snapshots && !snapshots[p].isActive);
    }
  }

  /** A request the schema lets through. */
  ghost predicate Valid(body: CreateRequest) {
    |body.items| > 0 && AllDifferent(body.items) && forall i :: 0 <= i < |body.items| ==> body.items[i].quantity > 0
  }

  /** One of the orders from `a` to `b` has the key. */
  predicate KeyBetween(db: Db, key: string, a: nat, b: nat) {
    exists i :: a <= i < b && i < |db.orders| && db.orders[i].key == key
  }

  predicate SomeUnknown(db: Db, body: CreateRequest) {
    exists i :: 0 <= i < |body.items| && body.items[i].product !in db.snapshots
  }

  predicate SomeInactive(db: Db, body: CreateRequest) {
    exists i :: 0 <= i < |body.items| && body.items[i].product in db.snapshots && !db.snapshots[body.items[i].product].isActive
  }

  predicate SomeDiffer(db: Db, body: CreateRequest) {
    exists i :: 0 <= i < |body.items|
      && body.items[i].product in db.snapshots && body.items[0].product in db.snapshots
      && db.snapshots[body.items[i].product].currency != db.snapshots[body.items[0].product].currency
  }

  lemma KnownWhenNone(db: Db, body: CreateRequest)
    ensures SomeUnknown(db, body) <==> !AllKnown(db.snapshots, body.items)
    ensures SomeUnknown(db, body) <==> |Missing(db.snapshots, body.items)| > 0
  {
    MissingNone(db.snapshots, body.items);
  }

  lemma {:induction false} ActiveWhenNone(snapshots: map<ProductId, Snapshot>, items: seq<Line>)
    ensures |Inactive(snapshots, items)| > 0 <==>
      exists i :: 0 <= i < |items| && items[i].product in snapshots && !snapshots[items[i].product].isActive
  {
    if |items| > 0 {
      var init := items[..|items| - 1];
      ActiveWhenNone(snapshots, init);
      assert forall i :: 0 <= i < |init| ==> init[i] == items[i];
    }
  }

  lemma CurrencyWhenOne(db: Db, body: CreateRequest)
    requires |body.items| > 0 && AllKnown(db.snapshots, body.items)
    ensures SomeDiffer(db, body) <==> !OneCurrency(db.snapshots, body.items)
  {
  }

  /** The first order with the key among the first `n`: with unique keys there is no other. */
  lemma KeyIsFound(db: Db, key: string, n: nat)
    requires UniqueKeys(db) && n <= |db.orders|
    ensures KeyBetween(db, key, 0, n) <==> FindKey(db.orders[..n], key) < n
    ensures forall i :: 0 <= i < n && db.orders[i].key == key ==> FindKey(db.orders[..n], key) == i
  {
    var upTo := db.orders[..n];
    assert forall i :: 0 <= i < n ==> upTo[i] == db.orders[i];
  }

  /** Refusals of what is asked for, and replays seen in time. A replay by its owner gets the order that is
      there; anyone else is told that the key is taken. */
  lemma CreateReplays(db: Db, user: UserId, body: CreateRequest, key: string, seen: nat, contended: bool)
    requires seen <= |db.orders| && UniqueKeys(db)
    ensures var r := CreateOrder(db, user, body, key, seen, contended);
      && (!Valid(body) ==> r == Raised(BadRequest))
      && (Valid(body) ==> forall i: nat :: i < seen && db.orders[i].key == key ==>
            r == if db.orders[i].user == user then Done(CreatedOrder(i, false, db)) else Raised(KeyTaken))
  {
    KeyIsFound(db, key, seen);
  }

  /** The key is new, as far as the first lookup could see. */
  ghost predicate Fresh(db: Db, body: CreateRequest, key: string, seen: nat) {
    Valid(body) && !KeyBetween(db, key, 0, seen)
  }

  /** Refusals for the products: all unknown ones, or else all inactive ones, are named in request order. */
  lemma CreateRefusals(db: Db, user: UserId, body: CreateRequest, key: string, seen: nat, contended: bool)
    requires seen <= |db.orders| && UniqueKeys(db) && Fresh(db, body, key, seen)
    ensures var r := CreateOrder(db, user, body, key, seen, contended);
      if SomeUnknown(db, body) then
        r.Raised? && r.error.UnknownProducts? && Lists(r.error.missing, body.items, p => p !in db.snapshots)
      else if SomeInactive(db, body) then
        && r.Raised? && r.error.InactiveProducts?
        && Lists(r.error.inactive, body.items, p => p in db.snapshots && !db.snapshots[p].isActive)
      else if SomeDiffer(db, body) then r == Raised(MixedCurrencies)
      else r.Done? || r == Raised(KeyInFlight)
  {
    KeyIsFound(db, key, seen);
    KnownWhenNone(db, body);
    ActiveWhenNone(db.snapshots, body.items);
    MissingLists(db.snapshots, body.items);
    InactiveLists(db.snapshots, body.items);
    if !SomeUnknown(db, body) {
      CurrencyWhenOne(db, body);
    }
  }

  /** The order can be placed, unless its key is gone by the time it is inserted. */
  ghost predicate Placeable(db: Db, body: CreateRequest, key: string, seen: nat) {
    Fresh(db, body, key, seen) && !SomeUnknown(db, body) && !SomeInactive(db, body) && !SomeDiffer(db, body)
  }

  /** The race on the key: the loser gets the winner's order, or is asked to come back. */
  lemma CreateRaces(db: Db, user: UserId, body: CreateRequest, key: string, seen: nat, contended: bool)
    requires seen <= |db.orders| && UniqueKeys(db) && Placeable(db, body, key, seen)
    ensures var r := CreateOrder(db, user, body, key, seen, contended);
      && (forall i: nat :: seen <= i < |db.orders| && db.orders[i].key == key ==> r == Done(CreatedOrder(i, false, db)))
      && (!KeyBetween(db, key, seen, |db.orders|) ==> (r == Raised(KeyInFlight) <==> contended))
  {
    CreateRefusals(db, user, body, key, seen, contended);
    KeyIsFound(db, key, seen);
    KeyIsFound(db, key, |db.orders|);
    assert db.orders[..|db.orders|] == db.orders;
    KnownWhenNone(db, body);
    ActiveWhenNone(db.snapshots, body.items);
    CurrencyWhenOne(db, body);
  }

  /** What a request owes: the price of each product at this moment times the quantity asked for. */
  function Owed(snapshots: map<ProductId, Snapshot>, items: seq<Line>): Money {
    if |items| == 0 then 0
    else
      var last := items[|items| - 1];
      Owed(snapshots, items[..|items| - 1])
      + (if last.product in snapshots then snapshots[last.product].price * last.quantity else 0)
  }

  /** The lines of an order are the request's, at the prices and under the names of this moment. */
  ghost predicate LinesOf(lines: seq<OrderLine>, snapshots: map<ProductId, Snapshot>, items: seq<Line>) {
    && |lines| == |items|
    && forall i :: 0 <= i < |items| ==>
      && items[i].product in snapshots
      && lines[i] == OrderLine(items[i].product, snapshots[items[i].product].sku, snapshots[items[i].product].name,
                               snapshots[items[i].product].price, items[i].quantity)
  }

  lemma {:induction false} PricedLines(snapshots: map<ProductId, Snapshot>, items: seq<Line>)
    requires AllKnown(snapshots, items)
    ensures LinesOf(Priced(snapshots, items), snapshots, items)
    ensures Total(Priced(snapshots, items)) == Owed(snapshots, items)
  {
    if |items| > 0 {
      var init := items[..|items| - 1];
      PricedLines(snapshots, init);
      assert forall i :: 0 <= i < |init| ==> init[i] == items[i];
      assert Priced(snapshots, items)[..|items| - 1] == Priced(snapshots, init);
    }
  }

  /** The row and the event that an accepted request adds, and nothing else: its own lines and quantities,
      the prices of this moment, their sum, one PENDING history row. */
  ghost predicate Adds(db: Db, next: Db, user: UserId, body: CreateRequest, key: string) {
    && |next.orders| == |db.orders| + 1 && next.orders[..|db.orders|] == db.orders
    && next.snapshots == db.snapshots
    && |body.items| > 0 && body.items[0].product in db.snapshots
    && var row := next.orders[|db.orders|];
       var total, currency := Owed(db.snapshots, body.items), db.snapshots[body.items[0].product].currency;
       && LinesOf(row.items, db.snapshots, body.items)
       && row == OrderRow(user, PENDING, row.items, total, currency, body.payment, key,
                          [HistoryRow(None, PENDING, "order placed")], None, None)
       && next.outbox == db.outbox + [OrderCreated(|db.orders|, user, total, currency, row.items, body.payment)]
  }

  lemma CreateAdds(db: Db, user: UserId, body: CreateRequest, key: string, seen: nat)
    requires seen <= |db.orders| && UniqueKeys(db) && Placeable(db, body, key, seen)
    requires !KeyBetween(db, key, seen, |db.orders|)
    ensures var r := CreateOrder(db, user, body, key, seen, false);
      r.Done? && r.value.order == |db.orders| && r.value.wasCreated && Adds(db, r.value.db, user, body, key)
  {
    KeyIsFound(db, key, seen);
    KeyIsFound(db, key, |db.orders|);
    assert db.orders[..|db.orders|] == db.orders;
    KnownWhenNone(db, body);
    ActiveWhenNone(db.snapshots, body.items);
    CurrencyWhenOne(db, body);
    PricedLines(db.snapshots, body.items);
  }

  /** A creation that answers "created" adds the request's own order. */
  lemma CreatedIsAdded(db: Db, user: UserId, body: CreateRequest, key: string, seen: nat, contended: bool)
    requires seen <= |db.orders|
    requires var r := CreateOrder(db, user, body, key, seen, contended); r.Done? && r.value.wasCreated
    ensures Adds(db, CreateOrder(db, user, body, key, seen, contended).value.db, user, body, key)
  {
    MissingNone(db.snapshots, body.items);
    PricedLines(db.snapshots, body.items);
  }

  // ------------------------------------------------------------ every order is its request

  /** The order's row still says what the request asked for, at the prices of its moment. */
  ghost predicate IsRequested(row: OrderRow, snapshots: map<ProductId, Snapshot>, op: OrderTheorems.Op) {
    && op.CreateOp?
    && row.user == op.user && row.key == op.key && row.payment == op.body.payment
    && LinesOf(row.items, snapshots, op.body.items) && row.total == Owed(snapshots, op.body.items)
  }

  lemma NewIsRequested(db: Db, op: OrderTheorems.Op, o: OrderId)
    requires |db.orders| <= o < |OrderTheorems.Perform(db, op).orders|
    ensures IsRequested(OrderTheorems.Perform(db, op).orders[o], db.snapshots, op)
  {
    OrderTheorems.OneOrderAtMost(db, op);
    if op.CreateOp? {
      CreatedIsAdded(db, op.user, op.body, op.key, Visible(db, op.seen), op.contended);
    }
  }

  /** After any operations each order is what some request asked for: its products, its quantities, at the
      prices when it was made, whatever the catalog has done since. */
  lemma {:induction false} OrderIsRequested(ops: seq<OrderTheorems.Op>, o: OrderId) returns (k: nat)
    requires o < |OrderTheorems.Run(ops).orders|
    ensures k < |ops| && IsRequested(OrderTheorems.Run(ops).orders[o], OrderTheorems.Run(ops[..k]).snapshots, ops[k])
  {
    var init := ops[..|ops| - 1];
    var before := OrderTheorems.Run(init);
    if o < |before.orders| {
      k := OrderIsRequested(init, o);
      assert init[..k] == ops[..k];
      OrderTheorems.PerformKeeps(before, ops[|ops| - 1]);
    } else {
      k := |ops| - 1;
      NewIsRequested(before, ops[k], o);
    }
  }

  // ------------------------------------------------------------ what events say, over every run

  /** The row an event is about has the event's data. */
  ghost predicate Says(orders: seq<OrderRow>, e: Event) {
    && !e.StockChanged? && !e.LowStock?
    && e.order < |orders|
    && var row := orders[e.order];
       match e
       case OrderCreated(_, user, total, currency, items, payment) =>
         && user == row.user && items == row.items && currency == row.currency && payment == row.payment
         && total == Total(row.items)
       case OrderConfirmed(_, user, total, currency, items) =>
         user == row.user && items == row.items && currency == row.currency && total == Total(row.items)
       case OrderCancelled(_, user, _, _, items) => user == row.user && items == row.items
       case _ => false
  }

  lemma EventSays(db: Db, i: nat)
    requires Inv(db) && i < |db.outbox|
    ensures Says(db.orders, db.outbox[i])
  {
    assert EventOk(db, db.outbox[i]);
  }

  /** Every event of the order service carries the user, the lines, the currency and the sum of the lines
      of its own order, after any operations. */
  lemma EventsSayTheirOrder(ops: seq<OrderTheorems.Op>, i: nat)
    requires i < |OrderTheorems.Run(ops).outbox|
    ensures Says(OrderTheorems.Run(ops).orders, OrderTheorems.Run(ops).outbox[i])
  {
    OrderTheorems.EveryRunKeepsInv(ops);
    EventSays(OrderTheorems.Run(ops), i);
  }
}
