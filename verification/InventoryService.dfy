/** The service object: tables updated in place, statement by statement, proved equal to the
    transaction functions of `Inventory`. */
module InventoryServices {
  import opened Prelude
  import opened Events
  import opened Inventory
  import InventoryLedger
  import InventoryInvariants

  function Booked(db: Db, product: ProductId, row: StockItem, delta: int, reason: LedgerReason): Db {
    Db(db.stock[product := row], db.reservations,
       db.ledger + [LedgerRow(product, delta, reason, None, row.available)],
       db.outbox + [StockChangedOf(product, row, reason, None)])
  }

  /** Booking a restocked row is a supply movement on the row as it was. */
  lemma BookedIsMove(db: Db, product: ProductId, row: StockItem, quantity: int)
    ensures Booked(db, product, row.(available := row.available + quantity), quantity, RESTOCK)
         == Move(db.(stock := db.stock[product := row]), product, quantity, 0, RESTOCK, None)
  {
    var next := row.(available := row.available + quantity);
    assert db.stock[product := row][product := next] == db.stock[product := next];
  }

  class InventoryService {
    var stock: map<ProductId, StockItem>
    var reservations: seq<Reservation>
    var ledger: seq<LedgerRow>
    var outbox: seq<Event>

    /** The database as one value. */
    ghost function Tables(): Db
      reads this
    {
      Db(stock, reservations, ledger, outbox)
    }

    constructor ()
      ensures Tables() == EMPTY
    {
      stock, reservations, ledger, outbox := map[], [], [], [];
    }

    // ---------------------------------------------------------- internals

    method RecordLedger(product: ProductId, delta: int, reason: LedgerReason, ref: Option<OrderId>, balanceAfter: int)
      modifies this`ledger
      ensures ledger == old(ledger) + [LedgerRow(product, delta, reason, ref, balanceAfter)]
    {
      ledger := ledger + [LedgerRow(product, delta, reason, ref, balanceAfter)];
    }

    method PublishStockChanged(product: ProductId, reason: LedgerReason, ref: Option<OrderId>)
      requires product in stock
      modifies this`outbox
      ensures outbox == old(outbox) + [StockChangedOf(product, stock[product], reason, ref)]
    {
      outbox := outbox + [StockChangedOf(product, stock[product], reason, ref)];
    }

    method MaybePublishLowStock(product: ProductId)
      requires product in stock
      modifies this`outbox
      ensures outbox == old(outbox) + LowStockAlert(product, stock[product])
    {
      var row := stock[product];
      if row.available <= row.threshold {
        outbox := outbox + [LowStock(product, row.sku, row.available, row.threshold)];
      }
    }

    /** Change one row's counters, append its ledger row and publish its new counts. */
    method Shift(product: ProductId, dAvailable: int, dReserved: int, reason: LedgerReason, ref: Option<OrderId>)
      requires product in stock
      modifies this
      ensures stock == Move(old(Tables()), product, dAvailable, dReserved, reason, ref).stock
      ensures reservations == old(reservations)
      ensures ledger == Move(old(Tables()), product, dAvailable, dReserved, reason, ref).ledger
      ensures outbox == old(outbox) + [StockChangedOf(product, stock[product], reason, ref)]
    {
      var row := stock[product];
      row := row.(reserved := row.reserved + dReserved);
      row := row.(available := row.available + dAvailable);
      stock := stock[product := row];
      RecordLedger(product, dAvailable, reason, ref, row.available);
      PublishStockChanged(product, reason, ref);
    }

    // ---------------------------------------------------------- reserve

    method Aggregate(items: seq<Line>) returns (valid: bool, wanted: seq<Line>)
      ensures valid == AllPositive(items)
      ensures valid ==> wanted == Wanted(items)
    {
      wanted := [];
      var i := 0;
      while i < |items|
        invariant 0 <= i <= |items|
        invariant wanted == Wanted(items[..i])
        invariant AllPositive(items[..i])
      {
        if items[i].quantity <= 0 {
          return false, [];
        }
        assert items[..i + 1][..i] == items[..i];
        wanted := AddLine(wanted, items[i]);
        i := i + 1;
      }
      assert items[..i] == items;
      valid := true;
    }

    method FindShortages(wanted: seq<Line>) returns (insufficient: seq<InsufficientItem>)
      ensures insufficient == Shortages(stock, wanted)
    {
      insufficient := [];
      var i := 0;
      while i < |wanted|
        invariant 0 <= i <= |wanted|
        invariant insufficient == Shortages(stock, wanted[..i])
      {
        var line := wanted[i];
        assert wanted[..i + 1][..i] == wanted[..i];
        if line.product !in stock {
          insufficient := insufficient + [InsufficientItem(line.product, line.quantity, 0)];
        } else if stock[line.product].available < line.quantity {
          insufficient := insufficient
            + [InsufficientItem(line.product, line.quantity, stock[line.product].available)];
        }
        i := i + 1;
      }
      assert wanted[..i] == wanted;
    }

    method HoldLines(lines: seq<Line>, order: OrderId)
      requires InventoryLedger.InStock(stock, lines)
      modifies this
      ensures Tables() == MoveLines(old(Tables()), lines, RESERVE, order)
    {
      var i := 0;
      while i < |lines|
        invariant 0 <= i <= |lines|
        invariant Tables() == MoveLines(old(Tables()), lines[..i], RESERVE, order)
        invariant stock.Keys == old(stock.Keys)
      {
        var line := lines[i];
        assert lines[..i + 1][..i] == lines[..i];
        Shift(line.product, -line.quantity, line.quantity, RESERVE, Some(order));
        MaybePublishLowStock(line.product);
        i := i + 1;
      }
      assert lines[..i] == lines;
    }

    /** The granted branch: the reservation row, the movements, the event. */
    method Grant(q: ReserveRequest, wanted: seq<Line>, expiresAt: int)
      requires Decide(Tables(), q) == Granted && wanted == Wanted(q.items)
      modifies this
      ensures Tables() == Inventory.Reserve(old(Tables()), q, expiresAt)
    {
      InventoryInvariants.GrantedCovers(Tables(), q);
      var lines := InLockOrder(wanted);
      reservations := reservations + [Reservation(q.order, q.user, HELD, expiresAt, lines)];
      HoldLines(lines, q.order);
      outbox := outbox + [InventoryReserved(q.order, q.user, expiresAt, wanted, q.total, q.currency, q.payment)];
    }

    /** All-or-nothing; `Invalid` is the ValidationError, raised before anything is written. */
    method Reserve(q: ReserveRequest, now: int) returns (outcome: ReserveOutcome)
      modifies this
      ensures outcome == Decide(old(Tables()), q)
      ensures Tables() == Inventory.Reserve(old(Tables()), q, now + RESERVATION_TTL)
      ensures InventoryLedger.Inv(old(Tables())) ==> InventoryLedger.Inv(Tables())
    {
      ghost var start := Tables();
      if InventoryLedger.Inv(start) {
        InventoryInvariants.ReserveKeepsInv(start, q, now + RESERVATION_TTL);
      }
      if |q.items| == 0 {
        return Invalid;
      }
      if Find(reservations, q.order) < |reservations| {
        return Duplicate;
      }
      var valid, wanted := Aggregate(q.items);
      if !valid {
        return Invalid;
      }
      var insufficient := FindShortages(wanted);
      if |insufficient| > 0 {
        outbox := outbox + [ReservationFailed(q.order, q.user, "insufficient stock", insufficient)];
        return Insufficient;
      }
      Grant(q, wanted, now + RESERVATION_TTL);
      outcome := Granted;
    }

    // ---------------------------------------------------------- commit

    method Commit(order: OrderId)
      modifies this
      ensures Tables() == Inventory.Commit(old(Tables()), order)
      ensures InventoryLedger.Inv(old(Tables())) ==> InventoryLedger.Inv(Tables())
    {
      ghost var start := Tables();
      if InventoryLedger.Inv(start) {
        InventoryInvariants.CommitKeepsInv(start, order);
      }
      var i := Find(reservations, order);
      if i == |reservations| || reservations[i].status != HELD {
        return;
      }
      var items := reservations[i].items;
      var k := 0;
      while k < |items|
        invariant 0 <= k <= |items| && reservations == old(reservations)
        invariant Tables() == MoveLines(start, items[..k], COMMIT, order)
      {
        var item := items[k];
        assert items[..k + 1][..k] == items[..k];
        if item.product in stock {
          Shift(item.product, 0, -item.quantity, COMMIT, Some(order));
        }
        k := k + 1;
      }
      assert items[..k] == items;
      reservations := reservations[i := reservations[i].(status := COMMITTED)];
    }

    // ---------------------------------------------------------- release

    method Release(order: OrderId)
      modifies this
      ensures Tables() == Inventory.Release(old(Tables()), order)
      ensures InventoryLedger.Inv(old(Tables())) ==> InventoryLedger.Inv(Tables())
    {
      ghost var start := Tables();
      if InventoryLedger.Inv(start) {
        InventoryInvariants.ReleaseKeepsInv(start, order);
      }
      var i := Find(reservations, order);
      if i == |reservations| || reservations[i].status == RELEASED || reservations[i].status == EXPIRED {
        return;
      }
      if reservations[i].status == COMMITTED {
        RestockCommitted(i);
      } else {
        ReleaseHeld(i);
      }
    }

    method ReleaseHeld(i: nat)
      requires i < |reservations|
      modifies this
      ensures Tables() == Settle(old(Tables()), i, RELEASE, RELEASED)
    {
      ghost var start := Tables();
      var order := reservations[i].order;
      var items := reservations[i].items;
      var k := 0;
      while k < |items|
        invariant 0 <= k <= |items| && reservations == old(reservations)
        invariant Tables() == MoveLines(start, items[..k], RELEASE, order)
      {
        var item := items[k];
        assert items[..k + 1][..k] == items[..k];
        if item.product in stock {
          Shift(item.product, item.quantity, -item.quantity, RELEASE, Some(order));
        }
        k := k + 1;
      }
      assert items[..k] == items;
      reservations := reservations[i := reservations[i].(status := RELEASED)];
    }

    method RestockCommitted(i: nat)
      requires i < |reservations|
      modifies this
      ensures Tables() == Settle(old(Tables()), i, RESTOCK, RELEASED)
    {
      ghost var start := Tables();
      var order := reservations[i].order;
      var items := reservations[i].items;
      var k := 0;
      while k < |items|
        invariant 0 <= k <= |items| && reservations == old(reservations)
        invariant Tables() == MoveLines(start, items[..k], RESTOCK, order)
      {
        var item := items[k];
        assert items[..k + 1][..k] == items[..k];
        if item.product in stock {
          Shift(item.product, item.quantity, 0, RESTOCK, Some(order));
        }
        k := k + 1;
      }
      assert items[..k] == items;
      reservations := reservations[i := reservations[i].(status := RELEASED)];
    }

    // ---------------------------------------------------------- sweeper

    method ExpireReservation(i: nat)
      requires i < |reservations|
      modifies this
      ensures Tables() == Settle(old(Tables()), i, EXPIRE, EXPIRED)
    {
      ghost var start := Tables();
      var order := reservations[i].order;
      var items := reservations[i].items;
      var k := 0;
      while k < |items|
        invariant 0 <= k <= |items| && reservations == old(reservations)
        invariant Tables() == MoveLines(start, items[..k], EXPIRE, order)
      {
        var item := items[k];
        assert items[..k + 1][..k] == items[..k];
        if item.product in stock {
          Shift(item.product, item.quantity, -item.quantity, EXPIRE, Some(order));
        }
        k := k + 1;
      }
      assert items[..k] == items;
      reservations := reservations[i := reservations[i].(status := EXPIRED)];
    }

    /** One sweep: at most `limit` HELD reservations whose TTL has passed, earliest first. */
    method ExpireStaleReservations(now: int, limit: nat) returns (expired: nat)
      modifies this
      ensures Tables() == ExpireStale(old(Tables()), now, limit)
      ensures expired == |Batch(old(reservations), now, limit)|
      ensures InventoryLedger.Inv(old(Tables())) ==> InventoryLedger.Inv(Tables())
    {
      ghost var start := Tables();
      if InventoryLedger.Inv(start) {
        InventoryInvariants.ExpireStaleKeepsInv(start, now, limit);
      }
      BatchInRange(reservations, now, limit);
      var stale := Batch(reservations, now, limit);
      var k := 0;
      while k < |stale|
        invariant 0 <= k <= |stale|
        invariant Tables() == ExpireRows(start, stale[..k])
      {
        assert stale[..k + 1][..k] == stale[..k];
        ExpireReservation(stale[k].index);
        k := k + 1;
      }
      assert stale[..k] == stale;
      expired := |stale|;
    }

    // ---------------------------------------------------------- admin

    /** Write a row whose available count changed by `delta`, with its ledger row and event. */
    method Book(product: ProductId, row: StockItem, delta: int, reason: LedgerReason)
      modifies this
      ensures Tables() == Booked(old(Tables()), product, row, delta, reason)
    {
      stock := stock[product := row];
      RecordLedger(product, delta, reason, None, row.available);
      PublishStockChanged(product, reason, None);
    }

    /** Create or restock a stock row; false when the sku belongs to another product. */
    method UpsertStockItem(product: ProductId, sku: string, quantity: nat, threshold: Option<int>) returns (ok: bool)
      modifies this
      ensures ok == Upsert(old(Tables()), product, sku, quantity, threshold).Some?
      ensures ok ==> Tables() == Upsert(old(Tables()), product, sku, quantity, threshold).value
      ensures !ok ==> Tables() == old(Tables())
      ensures InventoryLedger.Inv(old(Tables())) ==> InventoryLedger.Inv(Tables())
    {
      ghost var start := Tables();
      var row;
      ghost var blank := if product in stock then WithThreshold(stock[product], threshold) else NewRow(sku, threshold);
      if product !in stock {
        if exists p :: p in stock && stock[p].sku == Upper(sku) {
          return false;
        }
        row := StockItem(Upper(sku), quantity, 0,
                         if threshold.Some? then threshold.value else DEFAULT_LOW_STOCK_THRESHOLD);
      } else {
        row := stock[product];
        row := row.(available := row.available + quantity);
        if threshold.Some? {
          row := row.(threshold := threshold.value);
        }
      }
      Book(product, row, quantity, RESTOCK);
      BookedIsMove(start, product, blank, quantity);
      if InventoryLedger.Inv(start) {
        InventoryInvariants.UpsertKeepsInv(start, product, sku, quantity, threshold);
      }
      ok := true;
    }

    /** A stock-take correction; false when the product has no row. */
    method AdjustStock(product: ProductId, available: nat, threshold: Option<int>) returns (ok: bool)
      modifies this
      ensures ok == Adjust(old(Tables()), product, available, threshold).Some?
      ensures ok ==> Tables() == Adjust(old(Tables()), product, available, threshold).value
      ensures !ok ==> Tables() == old(Tables())
      ensures InventoryLedger.Inv(old(Tables())) ==> InventoryLedger.Inv(Tables())
    {
      ghost var start := Tables();
      if InventoryLedger.Inv(start) {
        InventoryInvariants.AdjustKeepsInv(start, product, available, threshold);
      }
      if product !in stock {
        return false;
      }
      var row := stock[product];
      var delta := available - row.available;
      row := row.(available := available);
      if threshold.Some? {
        row := row.(threshold := threshold.value);
      }
      stock := stock[product := row];
      RecordLedger(product, delta, ADJUST, None, row.available);
      PublishStockChanged(product, ADJUST, None);
      MaybePublishLowStock(product);
      ok := true;
    }
  }
}
