/** The reservation sweeper: how many sweeps a backlog takes, and what it gives back. */
module Sweepers {
  import opened Prelude
  import opened Events
  import opened Inventory
  import opened InventoryLedger
  import opened InventoryInvariants
  import opened InventoryServices

  /** Units of `product` that stale reservations still hold. */
  function StaleQty(rows: seq<Reservation>, now: int, p: ProductId): int {
    if |rows| == 0 then 0
    else
      var last := rows[|rows| - 1];
      StaleQty(rows[..|rows| - 1], now, p) + (if IsStale(last, now) then Qty(last.items, p) else 0)
  }

  function Backlog(rows: seq<Reservation>, now: int): nat {
    |StaleRows(rows, now)|
  }

  lemma {:induction false} ExpiringOne(rows: seq<Reservation>, i: nat, now: int, p: ProductId)
    requires i < |rows| && IsStale(rows[i], now)
    ensures Backlog(rows[i := rows[i].(status := EXPIRED)], now) == Backlog(rows, now) - 1
    ensures StaleQty(rows[i := rows[i].(status := EXPIRED)], now, p) == StaleQty(rows, now, p) - Qty(rows[i].items, p)
  {
    var n := |rows| - 1;
    var after := rows[i := rows[i].(status := EXPIRED)];
    if i < n {
      ExpiringOne(rows[..n], i, now, p);
      assert after[..n] == rows[..n][i := rows[i].(status := EXPIRED)];
    } else {
      assert after[..n] == rows[..n];
    }
  }

  lemma {:induction false} ExpireRowsKeys(db: Db, rows: seq<Stale>, now: int)
    requires Inv(db) && Picked(db.reservations, rows, now)
    ensures ExpireRows(db, rows).stock.Keys == db.stock.Keys
  {
    if |rows| > 0 {
      var init := rows[..|rows| - 1];
      var last := rows[|rows| - 1].index;
      ExpireRowsKeys(db, init, now);
      ExpireRowsKeepInv(db, init, now);
      var before := ExpireRows(db, init);
      MoveLinesStock(before, before.reservations[last].items, EXPIRE, before.reservations[last].order);
    }
  }

  lemma SettleTrades(db: Db, i: nat, now: int, p: ProductId)
    requires i < |db.reservations| && InStock(db.stock, db.reservations[i].items) && p in db.stock
    requires IsStale(db.reservations[i], now)
    ensures p in Settle(db, i, EXPIRE, EXPIRED).stock
    ensures Settle(db, i, EXPIRE, EXPIRED).stock[p].available
         + StaleQty(Settle(db, i, EXPIRE, EXPIRED).reservations, now, p)
         == db.stock[p].available + StaleQty(db.reservations, now, p)
  {
    ExpiringOne(db.reservations, i, now, p);
    MoveLinesStock(db, db.reservations[i].items, EXPIRE, db.reservations[i].order);
  }

  /** Expiring rows trades stale units for available ones, one for one. */
  lemma {:induction false} ExpireRowsTrades(db: Db, rows: seq<Stale>, now: int, p: ProductId)
    requires Inv(db) && Picked(db.reservations, rows, now) && p in db.stock
    ensures p in ExpireRows(db, rows).stock
    ensures ExpireRows(db, rows).stock[p].available + StaleQty(ExpireRows(db, rows).reservations, now, p)
         == db.stock[p].available + StaleQty(db.reservations, now, p)
  {
    if |rows| > 0 {
      var init := rows[..|rows| - 1];
      var last := rows[|rows| - 1].index;
      ExpireRowsTrades(db, init, now, p);
      ExpireRowsKeepInv(db, init, now);
      ExpireRowsTouch(db, init);
      assert !Takes(init, last);
      assert ExpireRows(db, init).reservations[last] == db.reservations[last];
      SettleTrades(ExpireRows(db, init), last, now, p);
    }
  }

  lemma {:induction false} BacklogShrinks(db: Db, rows: seq<Stale>, now: int)
    requires Picked(db.reservations, rows, now)
    ensures Backlog(ExpireRows(db, rows).reservations, now) == Backlog(db.reservations, now) - |rows|
  {
    if |rows| > 0 {
      var init := rows[..|rows| - 1];
      var last := rows[|rows| - 1].index;
      BacklogShrinks(db, init, now);
      ExpireRowsTouch(db, init);
      var before := ExpireRows(db, init);
      assert !Takes(init, last);
      assert before.reservations[last] == db.reservations[last];
      ExpiringOne(before.reservations, last, now, 0);
    }
  }

  /** `swept` is what sweeping makes of `before`: stale rows expired, every other row untouched. */
  ghost predicate OnlyStaleExpired(before: seq<Reservation>, after: seq<Reservation>, now: int) {
    && |after| == |before|
    && forall i :: 0 <= i < |before| ==>
      || after[i] == before[i]
      || (IsStale(before[i], now) && after[i] == before[i].(status := EXPIRED))
  }

  lemma {:induction false} NoBacklogNoStale(rows: seq<Reservation>, now: int)
    requires Backlog(rows, now) == 0
    ensures forall i :: 0 <= i < |rows| ==> !IsStale(rows[i], now)
    ensures forall p: ProductId :: StaleQty(rows, now, p) == 0
  {
    if |rows| > 0 {
      NoBacklogNoStale(rows[..|rows| - 1], now);
      assert forall i :: 0 <= i < |rows| - 1 ==> rows[..|rows| - 1][i] == rows[i];
    }
  }

  lemma MultipleIsFar(limit: int, d: int)
    requires limit > 0
    ensures d >= 1 ==> limit * d >= limit
    ensures d <= -1 ==> limit * d <= -limit
  {
  }

  lemma QuotientIs(n: nat, limit: nat, sweeps: nat, rest: nat)
    requires limit > 0 && n == sweeps * limit + rest && rest < limit
    ensures n / limit == sweeps
  {
    var d := sweeps - n / limit;
    assert limit * d == limit * sweeps - limit * (n / limit);
    assert n == limit * (n / limit) + n % limit;
    MultipleIsFar(limit, d);
  }

  /** Available units plus the ones stale reservations hold: the same before and after. */
  ghost predicate Traded(before: Db, after: Db, now: int) {
    && after.stock.Keys == before.stock.Keys
    && forall p :: p in before.stock ==>
      after.stock[p].available + StaleQty(after.reservations, now, p)
      == before.stock[p].available + StaleQty(before.reservations, now, p)
  }

  /** One sweep, in terms of the backlog it meets. */
  lemma SweepEffect(db: Db, now: int, limit: nat)
    requires Inv(db)
    ensures var after := ExpireStale(db, now, limit);
      && Backlog(after.reservations, now) == Backlog(db.reservations, now) - Min(limit, Backlog(db.reservations, now))
      && OnlyStaleExpired(db.reservations, after.reservations, now)
      && Traded(db, after, now)
  {
    var rows := Batch(db.reservations, now, limit);
    BatchPicked(db.reservations, now, limit);
    BatchInRange(db.reservations, now, limit);
    BacklogShrinks(db, rows, now);
    ExpireRowsTouch(db, rows);
    ExpireRowsKeys(db, rows, now);
    forall p | p in db.stock
      ensures ExpireRows(db, rows).stock[p].available + StaleQty(ExpireRows(db, rows).reservations, now, p)
           == db.stock[p].available + StaleQty(db.reservations, now, p)
    {
      ExpireRowsTrades(db, rows, now, p);
    }
  }

  /** Where a run of sweeps that began at `start` has got to. */
  ghost predicate Sweeping(start: Db, db: Db, now: int) {
    && Inv(db)
    && OnlyStaleExpired(start.reservations, db.reservations, now)
    && Traded(start, db, now)
  }

  lemma SweepAgain(start: Db, db: Db, now: int, limit: nat)
    requires Sweeping(start, db, now)
    ensures Sweeping(start, ExpireStale(db, now, limit), now)
    ensures Backlog(ExpireStale(db, now, limit).reservations, now)
         == Backlog(db.reservations, now) - Min(limit, Backlog(db.reservations, now))
    ensures |Batch(db.reservations, now, limit)| == Min(limit, Backlog(db.reservations, now))
  {
    SweepEffect(db, now, limit);
    ExpireStaleKeepsInv(db, now, limit);
    BatchPicked(db.reservations, now, limit);
  }

  /** The sweeper's loop up to its first pause, with a fixed clock and no other writer.

      A backlog of N takes exactly N / limit + 1 sweeps, after which no stale reservation is left
      and every product has got back exactly its stale units. */
  method DrainBacklog(service: InventoryService, now: int, limit: nat) returns (sweeps: nat)
    requires limit > 0 && Inv(service.Tables())
    modifies service
    ensures sweeps == old(Backlog(service.reservations, now)) / limit + 1
    ensures Inv(service.Tables())
    ensures forall i :: 0 <= i < |service.reservations| ==> !IsStale(service.reservations[i], now)
    ensures OnlyStaleExpired(old(service.reservations), service.reservations, now)
    ensures service.stock.Keys == old(service.stock).Keys
    ensures forall p :: p in service.stock ==>
      service.stock[p].available == old(service.stock)[p].available + StaleQty(old(service.reservations), now, p)
  {
    ghost var start := service.Tables();
    ghost var n := Backlog(start.reservations, now);
    sweeps := 0;
    var expired: nat := limit;
    while expired >= limit
      invariant Sweeping(start, service.Tables(), now)
      invariant expired >= limit ==> n == sweeps * limit + Backlog(service.reservations, now)
      invariant expired < limit ==>
        sweeps > 0 && n == (sweeps - 1) * limit + expired && Backlog(service.reservations, now) == 0
      decreases Backlog(service.reservations, now) + (if expired >= limit then 1 else 0)
    {
      SweepAgain(start, service.Tables(), now, limit);
      expired := service.ExpireStaleReservations(now, limit);
      sweeps := sweeps + 1;
      assert (sweeps - 1) * limit + limit == sweeps * limit;
    }
    QuotientIs(n, limit, sweeps - 1, expired);
    NoBacklogNoStale(service.reservations, now);
  }
}
