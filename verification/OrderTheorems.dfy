/** What the order invariant means over whole runs of the service. */
module OrderTheorems {
  import opened Prelude
  import opened Events
  import opened OrderStatuses
  import opened Orders
  import opened OrderInvariants

  // ------------------------------------------------------------ every run

  /** Everything that can change the order database, one transaction each. */
  datatype Op =
    | CreateOp(user: UserId, body: CreateRequest, key: string, seen: nat, contended: bool)
    | HandleOp(event: Event, now: int)
    | CancelOp(order: OrderId, caller: UserId, isAdmin: bool, reason: string, now: int)
    | ShipOp(order: OrderId, now: int)
    | DeliverOp(order: OrderId, now: int)
    | SnapshotOp(product: ProductId, snapshot: Snapshot)

  function OrUnchanged(db: Db, next: Outcome<Db>): Db {
    if next.Done? then next.value else db
  }

  function Perform(db: Db, op: Op): Db {
    match op
    case CreateOp(user, body, key, seen, contended) =>
      var r := CreateOrder(db, user, body, key, Visible(db, seen), contended);
      if r.Done? then r.value.db else db
    case HandleOp(e, now) =>
      var r := Handle(db, e, now);
      if r.Some? then r.value else db
    case CancelOp(o, caller, isAdmin, reason, now) => OrUnchanged(db, CancelOrder(db, o, caller, isAdmin, reason, now))
    case ShipOp(o, now) => OrUnchanged(db, Advance(db, o, SHIPPED, "dispatched", now))
    case DeliverOp(o, now) => OrUnchanged(db, Advance(db, o, DELIVERED, "delivered", now))
    case SnapshotOp(p, s) => UpsertSnapshot(db, p, s)
  }

  function Run(ops: seq<Op>): Db {
    if |ops| == 0 then EMPTY else Perform(Run(ops[..|ops| - 1]), ops[|ops| - 1])
  }

  lemma PerformKeepsInv(db: Db, op: Op)
    requires Inv(db)
    ensures Inv(Perform(db, op))
  {
    match op {
      case CreateOp(user, body, key, seen, contended) => CreateKeepsInv(db, user, body, key, Visible(db, seen), contended);
      case HandleOp(e, now) => HandleKeepsInv(db, e, now);
      case CancelOp(o, caller, isAdmin, reason, now) => CancelOrderKeepsInv(db, o, caller, isAdmin, reason, now);
      case ShipOp(o, now) => AdvanceKeepsInv(db, o, SHIPPED, "dispatched", now);
      case DeliverOp(o, now) => AdvanceKeepsInv(db, o, DELIVERED, "delivered", now);
      case SnapshotOp(p, s) => SnapshotKeepsInv(db, p, s);
    }
  }

  lemma SnapshotKeepsInv(db: Db, product: ProductId, s: Snapshot)
    requires Inv(db)
    ensures Inv(UpsertSnapshot(db, product, s))
  {
    var next := UpsertSnapshot(db, product, s);
    forall o: OrderId
      ensures CountsOk(next, o)
    {
      assert CountsOk(db, o);
    }
    forall i | 0 <= i < |next.outbox|
      ensures EventOk(next, next.outbox[i])
    {
      assert EventOk(db, db.outbox[i]);
    }
  }

  /** History, totals, keys and event counts stay right after any sequence of operations. */
  lemma {:induction false} EveryRunKeepsInv(ops: seq<Op>)
    ensures Inv(Run(ops))
  {
    if |ops| > 0 {
      EveryRunKeepsInv(ops[..|ops| - 1]);
      PerformKeepsInv(Run(ops[..|ops| - 1]), ops[|ops| - 1]);
    }
  }

  // ------------------------------------------------------------ history

  lemma {:induction false} PathOf(history: seq<HistoryRow>)
    ensures |Path(history)| == |history|
    ensures forall i :: 0 <= i < |history| ==> Path(history)[i] == history[i].to
  {
    if |history| > 0 {
      PathOf(history[..|history| - 1]);
    }
  }

  /** An order's history is one legal path from PENDING to its status, of at most six rows. */
  lemma HistoryIsTheRun(ops: seq<Op>, o: OrderId)
    requires o < |Run(ops).orders|
    ensures var row := Run(ops).orders[o];
      && |Path(row.history)| == |row.history| > 0
      && IsPath(Path(row.history))
      && Path(row.history)[0] == PENDING
      && Path(row.history)[|row.history| - 1] == row.status
      && |row.history| <= 6
  {
    EveryRunKeepsInv(ops);
    var row := Run(ops).orders[o];
    var path := Path(row.history);
    assert RowOk(row);
    PathOf(row.history);
    forall i {:trigger path[i]} | 0 <= i < |path| - 1
      ensures CanTransition(path[i], path[i + 1])
    {
      assert CanTransition(row.history[i + 1 - 1].to, row.history[i + 1].to);
    }
    PathsAreShort(path);
  }

  /** The guard of `cancel_order` admits exactly the statuses the state machine can cancel from. */
  lemma CancelNeverRaisesAfterItsGuard(row: OrderRow)
    ensures row.status in CUSTOMER_CANCELLABLE <==> Moves(row, CANCELLED)
  {
  }

  // ------------------------------------------------------------ creation, once per key

  /** Later states keep every order's key, lines and total: snapshots may change, orders do not. */
  ghost predicate Keeps(before: Db, after: Db) {
    && |before.orders| <= |after.orders|
    && forall o :: 0 <= o < |before.orders| ==> SameOrder(before.orders[o], after.orders[o])
  }

  lemma PerformKeeps(db: Db, op: Op)
    ensures Keeps(db, Perform(db, op))
  {
  }

  lemma {:induction false} RunKeeps(ops: seq<Op>, i: nat)
    requires i <= |ops|
    ensures Keeps(Run(ops[..i]), Run(ops))
  {
    if i == |ops| {
      assert ops[..i] == ops;
    } else {
      var init := ops[..|ops| - 1];
      assert init[..i] == ops[..i];
      RunKeeps(init, i);
      PerformKeeps(Run(init), ops[|ops| - 1]);
    }
  }

  /** The answer to the `k`th operation, when it is a creation. */
  function Answer(ops: seq<Op>, k: nat): Outcome<Created>
    requires k < |ops| && ops[k].CreateOp?
  {
    var db := Run(ops[..k]);
    CreateOrder(db, ops[k].user, ops[k].body, ops[k].key, Visible(db, ops[k].seen), ops[k].contended)
  }

  lemma AnswerHasKey(ops: seq<Op>, k: nat)
    requires k < |ops| && ops[k].CreateOp? && Answer(ops, k).Done?
    ensures Answer(ops, k).value.order < |Run(ops[..k + 1]).orders|
    ensures Run(ops[..k + 1]).orders[Answer(ops, k).value.order].key == ops[k].key
  {
    assert ops[..k + 1][..k] == ops[..k];
  }

  /** A later answer names an order that keeps the key of the request, in the same run. */
  lemma AnswerKeepsKey(ops: seq<Op>, k: nat, n: nat)
    requires k < n <= |ops| && ops[k].CreateOp? && Answer(ops, k).Done?
    ensures Answer(ops, k).value.order < |Run(ops[..n]).orders|
    ensures Run(ops[..n]).orders[Answer(ops, k).value.order].key == ops[k].key
  {
    var upTo := ops[..n];
    AnswerHasKey(ops, k);
    assert upTo[..k + 1] == ops[..k + 1];
    RunKeeps(upTo, k + 1);
  }

  lemma OneOrderPerKey(db: Db, a: OrderId, b: OrderId, keyA: string, keyB: string)
    requires UniqueKeys(db) && a < |db.orders| && b < |db.orders|
    requires db.orders[a].key == keyA && db.orders[b].key == keyB
    ensures a == b <==> keyA == keyB
  {
  }

  lemma KeysStayUnique(ops: seq<Op>)
    ensures UniqueKeys(Run(ops))
  {
    EveryRunKeepsInv(ops);
  }

  /** Idempotent creation: accepted requests get the same order exactly when they share a key. */
  lemma SameOrderIffSameKey(ops: seq<Op>, i: nat, j: nat)
    requires i < j < |ops| && ops[i].CreateOp? && ops[j].CreateOp?
    requires Answer(ops, i).Done? && Answer(ops, j).Done?
    ensures Answer(ops, i).value.order == Answer(ops, j).value.order <==> ops[i].key == ops[j].key
  {
    var a, b := Answer(ops, i).value.order, Answer(ops, j).value.order;
    AnswerKeepsKey(ops, i, j + 1);
    AnswerKeepsKey(ops, j, j + 1);
    KeysStayUnique(ops[..j + 1]);
    OneOrderPerKey(Run(ops[..j + 1]), a, b, ops[i].key, ops[j].key);
  }

  /** Does the operation answer "created"? */
  predicate Creates(db: Db, op: Op) {
    match op
    case CreateOp(user, body, key, seen, contended) =>
      (match CreateOrder(db, user, body, key, Visible(db, seen), contended)
       case Done(c) => c.wasCreated
       case Raised(_) => false)
    case _ => false
  }

  function Creations(ops: seq<Op>): nat {
    if |ops| == 0 then 0
    else Creations(ops[..|ops| - 1]) + (if Creates(Run(ops[..|ops| - 1]), ops[|ops| - 1]) then 1 else 0)
  }

  lemma OneOrderAtMost(db: Db, op: Op)
    ensures |Perform(db, op).orders| == |db.orders| + (if Creates(db, op) then 1 else 0)
  {
  }

  /** There are as many orders as creations that answered "created". */
  lemma {:induction false} OneOrderPerCreation(ops: seq<Op>)
    ensures |Run(ops).orders| == Creations(ops)
  {
    if |ops| > 0 {
      OneOrderPerCreation(ops[..|ops| - 1]);
      OneOrderAtMost(Run(ops[..|ops| - 1]), ops[|ops| - 1]);
    }
  }

  /** Every order's created event is in the outbox once, with the order's own total and lines, and the
      total is the sum over the lines. */
  lemma CreatedEventMatches(ops: seq<Op>, o: OrderId) returns (i: nat)
    requires o < |Run(ops).orders|
    ensures i < |Run(ops).outbox| && Run(ops).outbox[i] == CreatedEvent(o, Run(ops).orders[o])
    ensures forall j :: 0 <= j < |Run(ops).outbox| && Is(Run(ops).outbox[j], Kind.Created, o) ==> j == i
    ensures Run(ops).orders[o].total == Total(Run(ops).orders[o].items)
  {
    var db := Run(ops);
    EveryRunKeepsInv(ops);
    assert CountsOk(db, o) && RowOk(db.orders[o]);
    i := CountWitness(db.outbox, Kind.Created, o);
    assert EventOk(db, db.outbox[i]);
    forall j | 0 <= j < |db.outbox| && Is(db.outbox[j], Kind.Created, o)
      ensures j == i
    {
      CountAtLeast(db.outbox, Kind.Created, o, if i <= j then i else j, if i <= j then j else i);
    }
  }
}
