/** The recovery part of the gateway's start-up, over the real objects. */
module GatewayMain {
  import opened Types
  import opened PriorityBook
  import opened OrderBooks
  import opened MatchingEngines
  import opened Ledgers
  import opened Persistence
  import opened Gateways
  import opened AppStates
  import opened Recovery

  // ----- The loop over the resting rows, as a function -----

  /** One turn of the loop. */
  function RowRestored(g: Gateway, cfg: Config, row: RestingOrder, now: nat): Gateway {
    if Stale(row.order, now) then
      g.(db := g.db.(orders := OrdersMarked(g.db.orders, [row.id], OrderStatus.Cancelled)))
    else
      var o := RestoredOrder(row);
      g.(engine := g.engine.With(o.side, Insert(o.side, g.engine.On(o.side), o)),
         acceptedNonces := g.acceptedNonces + {row.order.Hash()},
         orderMap := g.orderMap[row.id := row.order],
         orderNonceMap := g.orderNonceMap[row.id := RestoredEntry(cfg, row)])
  }

  /** All turns that are left. */
  function RowsRestored(g: Gateway, cfg: Config, rows: seq<RestingOrder>, now: nat): Gateway {
    var live := LiveRows(rows, now);
    g.(engine := Restored(g.engine, live),
       acceptedNonces := g.acceptedNonces + Hashes(live),
       orderMap := g.orderMap + SignedOrders(RowsById(live)),
       orderNonceMap := g.orderNonceMap + RestoredEntries(cfg, RowsById(live)),
       db := g.db.(orders := OrdersMarked(g.db.orders, StaleIds(rows, now), OrderStatus.Cancelled)))
  }

  lemma OneTurn(g: Gateway, cfg: Config, rows: seq<RestingOrder>, now: nat)
    requires rows != []
    ensures RowsRestored(RowRestored(g, cfg, rows[0], now), cfg, rows[1..], now) == RowsRestored(g, cfg, rows, now)
  {
    hide Insert, Restored;
    var row, rest := rows[0], LiveRows(rows[1..], now);
    if Stale(row.order, now) {
      assert LiveRows(rows, now) == rest;
      assert OrdersMarked(OrdersMarked(g.db.orders, [row.id], OrderStatus.Cancelled), StaleIds(rows[1..], now),
                          OrderStatus.Cancelled)
             == OrdersMarked(g.db.orders, [row.id] + StaleIds(rows[1..], now), OrderStatus.Cancelled);
    } else {
      assert LiveRows(rows, now) == [row] + rest && StaleIds(rows, now) == StaleIds(rows[1..], now);
      LiveTurn(g, cfg, row, rest);
    }
  }

  lemma LiveTurn(g: Gateway, cfg: Config, row: RestingOrder, rest: seq<RestingOrder>)
    ensures var o := RestoredOrder(row);
            Restored(g.engine, [row] + rest)
                == Restored(g.engine.With(o.side, Insert(o.side, g.engine.On(o.side), o)), rest)
    ensures g.acceptedNonces + {row.order.Hash()} + Hashes(rest) == g.acceptedNonces + Hashes([row] + rest)
    ensures g.orderMap[row.id := row.order] + SignedOrders(RowsById(rest))
            == g.orderMap + SignedOrders(RowsById([row] + rest))
    ensures g.orderNonceMap[row.id := RestoredEntry(cfg, row)] + RestoredEntries(cfg, RowsById(rest))
            == g.orderNonceMap + RestoredEntries(cfg, RowsById([row] + rest))
  {
    hide Insert, RestoredEntry, Hashes, SignedOrders, RestoredEntries;
    assert ([row] + rest)[1..] == rest;
    HashesCons(row, rest);
    MapsCons(g, cfg, row, rest);
  }

  lemma HashesCons(row: RestingOrder, rest: seq<RestingOrder>)
    ensures Hashes([row] + rest) == {row.order.Hash()} + Hashes(rest)
  {
    assert forall x :: x in [row] + rest <==> x == row || x in rest;
  }

  lemma MapsCons(g: Gateway, cfg: Config, row: RestingOrder, rest: seq<RestingOrder>)
    ensures g.orderMap[row.id := row.order] + SignedOrders(RowsById(rest))
            == g.orderMap + SignedOrders(RowsById([row] + rest))
    ensures g.orderNonceMap[row.id := RestoredEntry(cfg, row)] + RestoredEntries(cfg, RowsById(rest))
            == g.orderNonceMap + RestoredEntries(cfg, RowsById([row] + rest))
  {
    hide RestoredEntry, SignedOrders, RestoredEntries;
    assert RowsById([row] + rest) == map[row.id := row] + RowsById(rest) by { assert ([row] + rest)[1..] == rest; }
    OrderEntryCons(g.orderMap, row, RowsById(rest));
    NonceEntryCons(g.orderNonceMap, cfg, row, RowsById(rest));
  }

  lemma OrderEntryCons(m: map<OrderId, SignedOrder>, row: RestingOrder, rest: map<OrderId, RestingOrder>)
    ensures m[row.id := row.order] + SignedOrders(rest) == m + SignedOrders(map[row.id := row] + rest)
  {
  }

  lemma NonceEntryCons(m: map<OrderId, NonceEntry>, cfg: Config, row: RestingOrder, rest: map<OrderId, RestingOrder>)
    ensures m[row.id := RestoredEntry(cfg, row)] + RestoredEntries(cfg, rest)
            == m + RestoredEntries(cfg, map[row.id := row] + rest)
  {
    hide RestoredEntry;
  }

  lemma NoTurns(g: Gateway, cfg: Config, rows: seq<RestingOrder>, now: nat)
    requires rows == []
    ensures RowsRestored(g, cfg, rows, now) == g
  {
    assert OrdersMarked(g.db.orders, [], OrderStatus.Cancelled) == g.db.orders;
  }

  // ----- Start-up -----

  method RestoreRow(s: AppState, row: RestingOrder, now: nat)
    requires s.Valid() && row.id !in s.engine.State().AllIds() && row.id < s.engine.nextId
    modifies s, s.engine.book, s.db
    ensures s.Valid() && s.engine.nextId == old(s.engine.nextId)
    ensures s.State() == RowRestored(old(s.State()), s.cfg, row, now)
    ensures s.engine.State().AllIds()
            == old(s.engine.State().AllIds()) + (if now <= row.order.expiry then {row.id} else {})
  {
    hide Insert, OrdersMarked, OrderBook.Valid, OrderBook.Resting, RestoredEntry, EngineState.AllIds;
    if Stale(row.order, now) {
      s.db.MarkOrders([row.id], OrderStatus.Cancelled);
    } else {
      PutBack(s.engine, row);
      s.acceptedNonces := s.acceptedNonces + {row.order.Hash()};
      s.orderMap := s.orderMap[row.id := row.order];
      s.orderNonceMap := s.orderNonceMap[row.id := RestoredEntry(s.cfg, row)];
    }
  }

  method PutBack(engine: MatchingEngine, row: RestingOrder)
    requires engine.Valid() && row.id !in engine.State().AllIds()
    modifies engine.book
    ensures engine.Valid() && engine.State().AllIds() == old(engine.State().AllIds()) + {row.id}
    ensures var e, o := old(engine.State()), RestoredOrder(row);
            engine.State() == e.With(o.side, Insert(o.side, e.On(o.side), o))
  {
    hide Insert, OrderBook.Valid, OrderBook.Resting;
    ghost var e := engine.State();
    InsertContent(row.order.side, e.On(row.order.side), RestoredOrder(row));
    engine.RestoreOrder(row.id, row.order.side, row.order.price, row.quantity);
  }

  /** Resting orders are put back in the order the table yields them. */
  method RestoreResting(s: AppState, rows: seq<RestingOrder>, now: nat)
    requires s.Valid() && InIdOrder(rows) && s.engine.State().AllIds() == {}
    requires forall row :: row in rows ==> row.id < s.engine.nextId
    modifies s, s.engine.book, s.db
    ensures s.Valid()
    ensures s.State() == RowsRestored(old(s.State()), s.cfg, rows, now)
  {
    hide RowsRestored, RowRestored, AppState.Valid, EngineState.AllIds, MatchingEngine.State;
    ghost var g, next := s.State(), s.engine.nextId;
    assert rows[0..] == rows;
    for i := 0 to |rows|
      invariant s.Valid() && s.engine.nextId == next
      invariant RowsRestored(s.State(), s.cfg, rows[i..], now) == RowsRestored(g, s.cfg, rows, now)
      invariant forall id, j :: id in s.engine.State().AllIds() && i <= j < |rows| ==> id < rows[j].id
    {
      assert rows[i..][0] == rows[i] && rows[i..][1..] == rows[i + 1..];
      OneTurn(s.State(), s.cfg, rows[i..], now);
      RestoreRow(s, rows[i], now);
    }
    NoTurns(s.State(), s.cfg, rows[|rows|..], now);
  }

  /** Load the ledger, the next id, the pending trades and the nonces, then put every resting order
      back on the book; stale ones are marked cancelled instead. */
  method Recover(cfg: Config, db: Db, now: nat) returns (s: AppState)
    modifies db
    ensures s.Valid() && s.db == db && s.cfg == cfg && fresh(s.Repr() - {db})
    ensures s.State() == Restarted(old(db.State()), cfg, now)
    ensures forall id :: id in s.State().engine.AllIds() <==> RestsAt(old(db.orders), id, now)
    ensures db.orders.Keys == old(db.orders).Keys
    ensures forall id :: id in old(db.orders) ==> db.orders[id] == RowAfter(old(db.orders)[id], now)
  {
    ghost var was := db.State();
    var restingOrders := RestingOrders(db.orders);
    s := Load(cfg, db, now);
    RestingOrdersAre(was.orders);
    FreeIdIsFree(was.orders);
    RestoreResting(s, restingOrders, now);
    FromScratch(was, cfg, now);
    RestartKeepsByExpiry(was, cfg, now);
  }

  ghost function Loaded(db: Tables, now: nat): Gateway {
    Gateway(EngineState([], [], FirstFreeId(db.orders)), LoadedBalances(db.balances), PrunedNonces(db.nonces, now).Keys,
            map[], map[], PendingTrades(db.trades), db.(nonces := PrunedNonces(db.nonces, now)))
  }

  method Load(cfg: Config, db: Db, now: nat) returns (s: AppState)
    modifies db
    ensures s.Valid() && s.db == db && s.cfg == cfg && fresh(s.Repr() - {db})
    ensures s.State() == Loaded(old(db.State()), now)
  {
    hide LoadedBalances, PendingTrades, OrderBook.Valid, OrderBook.Resting;
    var ledger := new Ledger.FromBalances(db.balances);
    var maxId := MaxOrderId(db.orders);
    var pending := PendingTrades(db.trades);
    db.PruneExpiredNonces(now);
    s := new AppState.Over(cfg, ledger, db);
    if maxId.Some? {
      s.engine.SetNextId(maxId.value + 1);
    }
    s.pendingTrades := pending;
    s.acceptedNonces := s.acceptedNonces + db.nonces.Keys;
  }

  lemma FromScratch(db: Tables, cfg: Config, now: nat)
    ensures RowsRestored(Loaded(db, now), cfg, RestingOrders(db.orders), now) == Restarted(db, cfg, now)
  {
    hide Restored, LiveRows, StaleIds, RowsById, RestingOrders, LoadedBalances, OrdersMarked, PendingTrades,
      SignedOrders, RestoredEntries;
    var live := LiveRows(RestingOrders(db.orders), now);
    assert map[] + SignedOrders(RowsById(live)) == SignedOrders(RowsById(live));
    assert map[] + RestoredEntries(cfg, RowsById(live)) == RestoredEntries(cfg, RowsById(live));
  }
}
