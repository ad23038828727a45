/** Restarting the gateway from its database. */
module Recovery {
  import opened Types
  import opened PriorityBook
  import opened MatchingEngines
  import opened EngineRuns
  import opened Ledgers
  import opened Persistence
  import opened Gateways
  import opened Arithmetic
  import opened Solvency
  import opened GatewayInvariants
  import opened GatewaySolvency

  // ----- What a restart computes -----

  predicate Stale(order: SignedOrder, now: nat) {
    order.expiry < now
  }

  function LiveRows(rows: seq<RestingOrder>, now: nat): seq<RestingOrder> {
    if rows == [] then []
    else (if Stale(rows[0].order, now) then [] else [rows[0]]) + LiveRows(rows[1..], now)
  }

  function StaleIds(rows: seq<RestingOrder>, now: nat): seq<OrderId> {
    if rows == [] then []
    else (if Stale(rows[0].order, now) then [rows[0].id] else []) + StaleIds(rows[1..], now)
  }

  function RestoredOrder(row: RestingOrder): EngineOrder {
    EngineOrder(row.id, row.order.side, row.order.price, row.quantity)
  }

  function Restored(e: EngineState, rows: seq<RestingOrder>): EngineState
    decreases |rows|
  {
    if rows == [] then e else
      var o := RestoredOrder(rows[0]);
      Restored(e.With(o.side, Insert(o.side, e.On(o.side), o)), rows[1..])
  }

  function RestoredEntry(cfg: Config, row: RestingOrder): NonceEntry {
    NonceEntry(row.order.maker, row.order.nonce, cfg.Locks(row.order.side),
               Collateral(row.order.side, row.quantity, row.order.price))
  }

  function RowsById(rows: seq<RestingOrder>): map<OrderId, RestingOrder> {
    if rows == [] then map[] else map[rows[0].id := rows[0]] + RowsById(rows[1..])
  }

  function SignedOrders(rows: map<OrderId, RestingOrder>): map<OrderId, SignedOrder> {
    map id | id in rows :: rows[id].order
  }

  function RestoredEntries(cfg: Config, rows: map<OrderId, RestingOrder>): map<OrderId, NonceEntry> {
    map id | id in rows :: RestoredEntry(cfg, rows[id])
  }

  function Hashes(rows: seq<RestingOrder>): set<SignedOrder> {
    set row | row in rows :: row.order.Hash()
  }

  function FirstFreeId(orders: map<OrderId, OrderRow>): OrderId {
    var max := MaxOrderId(orders);
    if max.Some? then max.value + 1 else 1
  }

  function Restarted(db: Tables, cfg: Config, now: nat): Gateway {
    var rows := RestingOrders(db.orders);
    var live := LiveRows(rows, now);
    var byId := RowsById(live);
    var nonces := PrunedNonces(db.nonces, now);
    Gateway(
      Restored(EngineState([], [], FirstFreeId(db.orders)), live),
      LoadedBalances(db.balances),
      nonces.Keys + Hashes(live),
      SignedOrders(byId),
      RestoredEntries(cfg, byId),
      PendingTrades(db.trades),
      db.(nonces := nonces, orders := OrdersMarked(db.orders, StaleIds(rows, now), OrderStatus.Cancelled)))
  }

  // ----- Rows -----

  ghost predicate InIdOrder(rows: seq<RestingOrder>) {
    forall i, j :: 0 <= i < j < |rows| ==> rows[i].id < rows[j].id
  }

  lemma FirstIsLeast(row: RestingOrder, rest: seq<RestingOrder>)
    ensures InIdOrder([row] + rest) <==> InIdOrder(rest) && forall later :: later in rest ==> row.id < later.id
  {
    var rows := [row] + rest;
    if InIdOrder(rows) {
      forall i, j | 0 <= i < j < |rest| ensures rest[i].id < rest[j].id {
        assert rows[i + 1].id < rows[j + 1].id;
      }
      forall later | later in rest ensures row.id < later.id {
        var k :| 0 <= k < |rest| && rest[k] == later;
        assert rows[0].id < rows[k + 1].id;
      }
    }
    if InIdOrder(rest) && forall later :: later in rest ==> row.id < later.id {
      forall i, j | 0 <= i < j < |rows| ensures rows[i].id < rows[j].id {
        assert rows[j] == rest[j - 1] && (i > 0 ==> rows[i] == rest[i - 1]);
      }
    }
  }

  lemma {:induction false} LiveRowsAre(rows: seq<RestingOrder>, now: nat)
    ensures forall row :: row in LiveRows(rows, now) <==> row in rows && !Stale(row.order, now)
    ensures InIdOrder(rows) ==> InIdOrder(LiveRows(rows, now))
  {
    hide InIdOrder;
    if rows != [] {
      LiveRowsAre(rows[1..], now);
      assert rows == [rows[0]] + rows[1..];
      FirstIsLeast(rows[0], rows[1..]);
      FirstIsLeast(rows[0], LiveRows(rows[1..], now));
      assert [] + LiveRows(rows[1..], now) == LiveRows(rows[1..], now);
    } else {
      assert LiveRows(rows, now) == rows;
    }
  }

  lemma {:induction false} StaleIdsAre(rows: seq<RestingOrder>, now: nat)
    ensures forall id :: id in StaleIds(rows, now)
              <==> exists row :: row in rows && row.id == id && Stale(row.order, now)
  {
    if rows != [] {
      StaleIdsAre(rows[1..], now);
      assert rows == [rows[0]] + rows[1..];
      assert forall row :: row in rows <==> row == rows[0] || row in rows[1..];
    }
  }

  lemma {:induction false} RowsByIdAre(rows: seq<RestingOrder>)
    requires InIdOrder(rows)
    ensures forall row :: row in rows ==> row.id in RowsById(rows) && RowsById(rows)[row.id] == row
    ensures forall id :: id in RowsById(rows) ==> RowsById(rows)[id].id == id && RowsById(rows)[id] in rows
  {
    hide InIdOrder;
    if rows != [] {
      assert rows == [rows[0]] + rows[1..];
      FirstIsLeast(rows[0], rows[1..]);
      RowsByIdAre(rows[1..]);
      assert forall row :: row in rows <==> row == rows[0] || row in rows[1..];
    }
  }

  lemma RestingOrdersAre(orders: map<OrderId, OrderRow>)
    ensures forall row: RestingOrder :: row in RestingOrders(orders)
              <==> row.id in RestingIds(orders) && row == RestingRow(orders, row.id)
    ensures InIdOrder(RestingOrders(orders))
  {
    var ids, rows := Ascending(RestingIds(orders)), RestingOrders(orders);
    forall row: RestingOrder | row.id in RestingIds(orders) && row == RestingRow(orders, row.id) ensures row in rows {
      assert row.id in ids;
      var i :| 0 <= i < |ids| && ids[i] == row.id;
      assert rows[i] == row;
    }
  }

  // ----- Restoring in id order gives price-time order -----

  ghost predicate BothSorted(e: EngineState) {
    Sorted(Buy, e.bids) && Sorted(Sell, e.asks)
  }

  lemma RestoreOne(e: EngineState, row: RestingOrder)
    requires BothSorted(e) && forall s, x :: x in e.On(s) ==> x.id < row.id
    ensures var o := RestoredOrder(row);
            var e' := e.With(o.side, Insert(o.side, e.On(o.side), o));
            && BothSorted(e')
            && forall s, x :: x in e'.On(s) <==> x in e.On(s) || (s == row.order.side && x == o)
  {
    hide Sorted, Insert;
    var o := RestoredOrder(row);
    InsertSorted(o.side, e.On(o.side), o);
    InsertContent(o.side, e.On(o.side), o);
  }

  /** Restoring rows in ascending id order keeps every side in price-time order and adds exactly the
      orders of the rows. */
  lemma {:induction false} RestoredIsSorted(e: EngineState, rows: seq<RestingOrder>)
    requires BothSorted(e) && InIdOrder(rows)
    requires forall s, x, row :: x in e.On(s) && row in rows ==> x.id < row.id
    ensures BothSorted(Restored(e, rows)) && Restored(e, rows).nextId == e.nextId
    ensures forall s, x :: x in Restored(e, rows).On(s)
                           <==> x in e.On(s) || exists row :: row in rows && row.order.side == s
                                                  && x == RestoredOrder(row)
    decreases |rows|
  {
    hide BothSorted, Insert, InIdOrder;
    if rows != [] {
      var row, o := rows[0], RestoredOrder(rows[0]);
      var next := e.With(o.side, Insert(o.side, e.On(o.side), o));
      assert rows == [row] + rows[1..];
      FirstIsLeast(row, rows[1..]);
      RestoreOne(e, row);
      forall s, x, later | x in next.On(s) && later in rows[1..] ensures x.id < later.id {
        assert later in rows;
      }
      RestoredIsSorted(next, rows[1..]);
      RestoredFrom(e, next, rows);
    }
  }

  lemma RestoredFrom(e: EngineState, next: EngineState, rows: seq<RestingOrder>)
    requires rows != []
    requires forall s, x :: x in next.On(s)
               <==> x in e.On(s) || (s == rows[0].order.side && x == RestoredOrder(rows[0]))
    ensures forall s, x :: (x in next.On(s) || exists row :: row in rows[1..] && row.order.side == s
                                                 && x == RestoredOrder(row))
                           <==> (x in e.On(s) || exists row :: row in rows && row.order.side == s
                                                   && x == RestoredOrder(row))
  {
    assert forall row :: row in rows <==> row == rows[0] || row in rows[1..];
  }

  /** Price-time order leaves no choice: two sorted lists of the same orders are the same list. */
  lemma {:induction false} SortedIsUnique(s: Side, f: seq<EngineOrder>, g: seq<EngineOrder>)
    requires Sorted(s, f) && Sorted(s, g)
    requires forall x :: x in f <==> x in g
    ensures f == g
  {
    if g != [] {
      assert g[0] in g;
    }
    if f != [] {
      assert f[0] in g;
      var f', g' := f[1..], g[1..];
      assert f == [f[0]] + f' && g == [g[0]] + g';
      HeadFirst(s, f[0], f');
      HeadFirst(s, g[0], g');
      assert f[0] == g[0];
      forall x ensures x in f' <==> x in g' {
        if x in f' { assert x in g; assert Before(s, f[0], x); }
        if x in g' { assert x in f; assert Before(s, g[0], x); }
      }
      SortedIsUnique(s, f', g');
    }
  }

  // ----- The rebuilt book -----

  /** The book a restart is meant to bring back: the orders that are not stale, in the same order,
      with the quantity their rows remember. */
  ghost function Rebuilt(f: seq<EngineOrder>, orders: map<OrderId, OrderRow>, now: nat): seq<EngineOrder>
    requires forall o :: o in f ==> o.id in orders
  {
    if f == [] then [] else
      assert forall o :: o in f[1..] ==> o in f;
      (if Stale(orders[f[0].id].order, now) then [] else [f[0].(quantity := orders[f[0].id].restingQuantity)])
      + Rebuilt(f[1..], orders, now)
  }

  lemma {:induction false} RebuiltIsSorted(s: Side, f: seq<EngineOrder>, orders: map<OrderId, OrderRow>, now: nat)
    requires forall o :: o in f ==> o.id in orders
    ensures Sorted(s, f) ==> Sorted(s, Rebuilt(f, orders, now))
    ensures forall x :: x in Rebuilt(f, orders, now)
              <==> exists o :: o in f && !Stale(orders[o.id].order, now)
                     && x == o.(quantity := orders[o.id].restingQuantity)
  {
    hide Sorted;
    if f == [] {
      assert Rebuilt(f, orders, now) == f;
    } else {
      assert [] + Rebuilt(f[1..], orders, now) == Rebuilt(f[1..], orders, now);
      assert f == [f[0]] + f[1..] && forall o :: o in f <==> o == f[0] || o in f[1..];
      var rest := Rebuilt(f[1..], orders, now);
      RebuiltIsSorted(s, f[1..], orders, now);
      if Sorted(s, f) {
        HeadFirst(s, f[0], f[1..]);
        var head := f[0].(quantity := orders[f[0].id].restingQuantity);
        forall x | x in rest ensures Before(s, head, x) {
          var o :| o in f[1..] && x == o.(quantity := orders[o.id].restingQuantity);
          assert Before(s, f[0], o);
        }
        HeadFirstBack(s, head, rest);
      }
    }
  }

  /** The orders of a list that are not stale. */
  ghost function Kept(f: seq<EngineOrder>, orders: map<OrderId, OrderRow>, now: nat): seq<EngineOrder>
    requires forall o :: o in f ==> o.id in orders
  {
    if f == [] then [] else
      assert forall o :: o in f[1..] ==> o in f;
      (if Stale(orders[f[0].id].order, now) then [] else [f[0]]) + Kept(f[1..], orders, now)
  }

  lemma {:induction false} RebuiltIsKeptIff(f: seq<EngineOrder>, orders: map<OrderId, OrderRow>, now: nat)
    requires forall o :: o in f ==> o.id in orders
    ensures Rebuilt(f, orders, now) == Kept(f, orders, now)
            <==> forall o :: o in f && !Stale(orders[o.id].order, now) ==> orders[o.id].restingQuantity == o.quantity
  {
    if f != [] {
      assert f == [f[0]] + f[1..] && forall o :: o in f <==> o == f[0] || o in f[1..];
      RebuiltIsKeptIff(f[1..], orders, now);
      var a, b := Rebuilt(f[1..], orders, now), Kept(f[1..], orders, now);
      var head := f[0].(quantity := orders[f[0].id].restingQuantity);
      if Stale(orders[f[0].id].order, now) {
        assert [] + a == a && [] + b == b;
      } else {
        assert ([head] + a)[0] == head && ([head] + a)[1..] == a && ([f[0]] + b)[0] == f[0] && ([f[0]] + b)[1..] == b;
      }
    }
  }

  /** The live rows are the resting orders that are not stale. */
  lemma LiveRowsOf(g: Gateway, cfg: Config, now: nat, s: Side, x: EngineOrder)
    requires Consistent(g, cfg)
    ensures (exists row :: row in LiveRows(RestingOrders(g.db.orders), now) && row.order.side == s
               && x == RestoredOrder(row))
            <==> exists o :: o in g.engine.On(s) && o.id in g.db.orders && !Stale(g.db.orders[o.id].order, now)
                             && x == o.(quantity := g.db.orders[o.id].restingQuantity)
  {
    hide Sound, Mirrored;
    var rows := RestingOrders(g.db.orders);
    RestingOrdersAre(g.db.orders);
    LiveRowsAre(rows, now);
    if row :| row in LiveRows(rows, now) && row.order.side == s && x == RestoredOrder(row) {
      assert row.id in g.engine.AllIds();
      var s' := if row.id in Ids(g.engine.bids) then Buy else Sell;
      var o: EngineOrder :| o in g.engine.On(s') && o.id == row.id;
      assert Entered(g, cfg, s', o);
      SideOf(g, cfg, s', o);
    }
    if o :| o in g.engine.On(s) && o.id in g.db.orders && !Stale(g.db.orders[o.id].order, now)
            && x == o.(quantity := g.db.orders[o.id].restingQuantity) {
      assert Entered(g, cfg, s, o);
      SideOf(g, cfg, s, o);
      var row := RestingRow(g.db.orders, o.id);
      assert o.id in g.engine.AllIds() && row in rows;
      assert x == RestoredOrder(row);
    }
  }

  lemma SideOf(g: Gateway, cfg: Config, s: Side, o: EngineOrder)
    requires Consistent(g, cfg) && o in g.engine.On(s)
    ensures o.side == s
  {
  }

  lemma EnteredIds(g: Gateway, cfg: Config)
    requires Consistent(g, cfg)
    ensures forall s, o :: o in g.engine.On(s) ==> o.id in g.db.orders
  {
    forall s, o | o in g.engine.On(s) ensures o.id in g.db.orders { assert Entered(g, cfg, s, o); }
  }

  /** Restart rebuilds the book: on each side the same orders in the same price-time order, without
      the stale ones, each with the quantity it came to rest with; and the next id is above every id
      ever recorded. */
  lemma RestartRebuildsBook(g: Gateway, cfg: Config, now: nat)
    requires Consistent(g, cfg)
    ensures forall s, o :: o in g.engine.On(s) ==> o.id in g.db.orders
    ensures var h := Restarted(g.db, cfg, now);
            && (forall s :: h.engine.On(s) == Rebuilt(g.engine.On(s), g.db.orders, now))
            && (forall id :: id in g.db.orders ==> id < h.engine.nextId)
  {
    hide Sound, Mirrored, Entered, Sorted, LiveRows, RestingOrders, Rebuilt, Restored, FirstFreeId, EngineState.AllIds;
    EnteredIds(g, cfg);
    var h := Restarted(g.db, cfg, now);
    var rows := RestingOrders(g.db.orders);
    var empty := EngineState([], [], FirstFreeId(g.db.orders));
    RestingOrdersAre(g.db.orders);
    LiveRowsAre(rows, now);
    assert BothSorted(empty) by { NothingSorted(empty); }
    RestoredIsSorted(empty, LiveRows(rows, now));
    SoundSorted(g.engine);
    FreeIdIsFree(g.db.orders);
    forall s ensures h.engine.On(s) == Rebuilt(g.engine.On(s), g.db.orders, now) {
      RebuiltIsSorted(s, g.engine.On(s), g.db.orders, now);
      forall x ensures x in h.engine.On(s) <==> x in Rebuilt(g.engine.On(s), g.db.orders, now) {
        LiveRowsOf(g, cfg, now, s, x);
        assert x !in empty.On(s);
      }
      SortedIsUnique(s, h.engine.On(s), Rebuilt(g.engine.On(s), g.db.orders, now));
    }
  }

  lemma NothingSorted(e: EngineState)
    requires e.bids == [] && e.asks == []
    ensures BothSorted(e)
  {
  }

  lemma SoundSorted(e: EngineState)
    requires Sound(e)
    ensures forall s :: Sorted(s, e.On(s))
  {
    forall s ensures Sorted(s, e.On(s)) { assert s.Buy? || s.Sell?; }
  }

  lemma FreeIdIsFree(orders: map<OrderId, OrderRow>)
    ensures forall id :: id in orders ==> id < FirstFreeId(orders)
    ensures FirstFreeId(orders) == 1 || (FirstFreeId(orders) > 0 && FirstFreeId(orders) - 1 in orders)
  {
  }

  /** Quantities are not rewritten when a maker is partly filled. A restart brings back exactly the
      orders that are not stale if and only if none of those was filled since it came to rest. */
  lemma RestartIsExactIff(g: Gateway, cfg: Config, now: nat)
    requires Consistent(g, cfg)
    ensures forall s, o :: o in g.engine.On(s) ==> o.id in g.db.orders
    ensures (forall s :: Restarted(g.db, cfg, now).engine.On(s) == Kept(g.engine.On(s), g.db.orders, now))
            <==> forall s, o :: o in g.engine.On(s) && !Stale(g.db.orders[o.id].order, now)
                   ==> UnfilledSinceRest(g, s, o)
  {
    hide Consistent, Rebuilt, Restarted, Kept;
    RestartRebuildsBook(g, cfg, now);
    forall s ensures Restarted(g.db, cfg, now).engine.On(s) == Kept(g.engine.On(s), g.db.orders, now)
                     <==> forall o :: o in g.engine.On(s) && !Stale(g.db.orders[o.id].order, now)
                            ==> UnfilledSinceRest(g, s, o)
    {
      RebuiltIsKeptIff(g.engine.On(s), g.db.orders, now);
    }
  }

  // ----- Which orders a restart keeps -----

  /** The row rests, and its order had not expired. */
  predicate RestsAt(orders: map<OrderId, OrderRow>, id: OrderId, now: nat) {
    id in orders && orders[id].status == Resting && now <= orders[id].order.expiry
  }

  /** The row as a restart leaves it: cancelled when its order rests and expired, else as it was. */
  function RowAfter(row: OrderRow, now: nat): OrderRow {
    if row.status == Resting && row.order.expiry < now then row.(status := OrderStatus.Cancelled) else row
  }

  /** The rows that are put back: those that rest and did not expire. */
  lemma LiveRowIs(orders: map<OrderId, OrderRow>, now: nat, row: RestingOrder)
    ensures row in LiveRows(RestingOrders(orders), now)
            <==> RestsAt(orders, row.id, now) && row == RestingRow(orders, row.id)
  {
    hide LiveRows, RestingOrders, RestingIds;
    RestingOrdersAre(orders);
    LiveRowsAre(RestingOrders(orders), now);
    RestingIdIs(orders, row.id);
  }

  lemma RestoredIds(db: Tables, cfg: Config, now: nat)
    ensures forall id :: id in Restarted(db, cfg, now).engine.AllIds() <==> RestsAt(db.orders, id, now)
  {
    hide LiveRows, RestingOrders, Restored, BothSorted, RestingIds, RestsAt, Stale, FirstFreeId, Restarted;
    var live, empty := LiveRows(RestingOrders(db.orders), now), EngineState([], [], FirstFreeId(db.orders));
    var e := Restored(empty, live);
    RestartedEngine(db, cfg, now);
    RestingOrdersAre(db.orders);
    LiveRowsAre(RestingOrders(db.orders), now);
    NothingSorted(empty);
    RestoredIsSorted(empty, live);
    forall id | RestsAt(db.orders, id, now) ensures id in e.AllIds() {
      RestsHasRow(db.orders, id, now);
      var row := RestingRow(db.orders, id);
      LiveRowIs(db.orders, now, row);
      assert RestoredOrder(row) in e.On(row.order.side);
    }
    forall id | id in e.AllIds() ensures RestsAt(db.orders, id, now) {
      var s := if id in Ids(e.bids) then Buy else Sell;
      var x :| x in e.On(s) && x.id == id;
      var row :| row in live && row.order.side == s && x == RestoredOrder(row);
      LiveRowIs(db.orders, now, row);
    }
  }

  lemma RestsHasRow(orders: map<OrderId, OrderRow>, id: OrderId, now: nat)
    requires RestsAt(orders, id, now)
    ensures id in orders
  {
  }

  lemma RestingIdIs(orders: map<OrderId, OrderRow>, id: OrderId)
    ensures id in RestingIds(orders) <==> id in orders && orders[id].status == Resting
  {
  }

  lemma RestartedEngine(db: Tables, cfg: Config, now: nat)
    ensures Restarted(db, cfg, now).engine
            == Restored(EngineState([], [], FirstFreeId(db.orders)), LiveRows(RestingOrders(db.orders), now))
  {
    hide LiveRows, RestingOrders, Restored, LoadedBalances, PendingTrades, StaleIds, RowsById, OrdersMarked;
  }

  lemma RestartedRows(db: Tables, cfg: Config, now: nat)
    ensures var h := Restarted(db, cfg, now);
            && h.db.orders.Keys == db.orders.Keys
            && forall id :: id in db.orders ==> h.db.orders[id] == RowAfter(db.orders[id], now)
  {
    hide LiveRows, RestingOrders, StaleIds, Restarted, RestingIds;
    var rows := RestingOrders(db.orders);
    RestartOrders(db, cfg, now);
    RestingOrdersAre(db.orders);
    StaleIdsAre(rows, now);
    forall id | id in db.orders ensures (id in StaleIds(rows, now)
                                         <==> db.orders[id].status == Resting && db.orders[id].order.expiry < now) {
      RestingIdIs(db.orders, id);
      if db.orders[id].status == Resting { assert RestingRow(db.orders, id) in rows; }
    }
  }

  /** From any tables: the ids on the book after a restart are those of the rows that rest and did not
      expire; expired resting rows become cancelled; every other row, and everything else in the tables
      but expired nonces, stays. */
  lemma RestartKeepsByExpiry(db: Tables, cfg: Config, now: nat)
    ensures var h := Restarted(db, cfg, now);
            && (forall id :: id in h.engine.AllIds() <==> RestsAt(db.orders, id, now))
            && h.db.orders.Keys == db.orders.Keys
            && (forall id :: id in db.orders ==> h.db.orders[id] == RowAfter(db.orders[id], now))
            && h.db == db.(orders := h.db.orders, nonces := h.db.nonces)
            && (forall hash :: hash in h.db.nonces <==> hash in db.nonces && now <= db.nonces[hash])
            && (forall hash :: hash in h.db.nonces ==> h.db.nonces[hash] == db.nonces[hash])
  {
    hide LiveRows, RestingOrders, Restored, LoadedBalances, PendingTrades, StaleIds, RowsById, OrdersMarked, RestsAt,
      RowAfter, EngineState.AllIds;
    RestoredIds(db, cfg, now);
    RestartedRows(db, cfg, now);
  }

  /** An order rests after a restart if and only if it rested before and had not expired; its row becomes
      cancelled if and only if it rested and had expired. */
  lemma RestsAfterRestartIff(g: Gateway, cfg: Config, now: nat, id: OrderId)
    requires Consistent(g, cfg)
    ensures var h := Restarted(g.db, cfg, now);
            && (id in h.engine.AllIds()
                <==> id in g.engine.AllIds() && id in g.db.orders && now <= g.db.orders[id].order.expiry)
            && (id in h.db.orders <==> id in g.db.orders)
            && (id in g.db.orders ==>
                  h.db.orders[id].status
                  == if id in g.engine.AllIds() && g.db.orders[id].order.expiry < now then OrderStatus.Cancelled
                     else g.db.orders[id].status)
  {
    hide Restarted, Sound, AllEntered, Mirrored, EngineState.AllIds;
    RestartKeepsByExpiry(g.db, cfg, now);
  }

  /** The order hashes that a restart remembers: those whose nonce row has not expired, and those of
      the orders it restores. Any other order is accepted again. */
  lemma RememberedIff(db: Tables, cfg: Config, now: nat, hash: SignedOrder)
    ensures hash in Restarted(db, cfg, now).acceptedNonces
            <==> (hash in db.nonces && db.nonces[hash] >= now)
                 || exists row :: row in RestingOrders(db.orders) && !Stale(row.order, now) && row.order.Hash() == hash
  {
    hide LiveRows, RestingOrders, Restored, LoadedBalances, PendingTrades, OrdersMarked, StaleIds, RowsById;
    LiveRowsAre(RestingOrders(db.orders), now);
  }

  // ----- A restart keeps the invariants -----

  lemma {:induction false} RebuiltDistinct(f: seq<EngineOrder>, orders: map<OrderId, OrderRow>, now: nat)
    requires forall o :: o in f ==> o.id in orders
    requires DistinctIds(f)
    ensures DistinctIds(Rebuilt(f, orders, now)) && Ids(Rebuilt(f, orders, now)) <= Ids(f)
  {
    hide DistinctIds;
    if f == [] {
      assert Rebuilt(f, orders, now) == f;
    } else {
      var head, rest := f[0].(quantity := orders[f[0].id].restingQuantity), Rebuilt(f[1..], orders, now);
      assert f == [f[0]] + f[1..] && [] + rest == rest;
      HeadDiffers(f[0], f[1..]);
      RebuiltDistinct(f[1..], orders, now);
      forall x | x in rest ensures x.id != head.id { assert x.id in Ids(f[1..]); }
      HeadDiffersBack(head, rest);
      assert Rebuilt(f, orders, now) == if Stale(orders[f[0].id].order, now) then rest else [head] + rest;
      assert Ids(f) == {f[0].id} + Ids(f[1..]) && Ids([head] + rest) == {head.id} + Ids(rest);
    }
  }

  /** A rebuilt order comes from one that rested, with a quantity at least as large. */
  lemma RebuiltOrigin(g: Gateway, cfg: Config, now: nat, s: Side, x: EngineOrder) returns (o: EngineOrder)
    requires Consistent(g, cfg) && x in Restarted(g.db, cfg, now).engine.On(s)
    ensures o in g.engine.On(s) && o.id in g.db.orders && !Stale(g.db.orders[o.id].order, now)
    ensures x == o.(quantity := g.db.orders[o.id].restingQuantity) && x.quantity >= o.quantity > 0 && x.side == s
    ensures Entered(g, cfg, s, o)
  {
    hide Sound, Mirrored, Sorted, Restarted, Rebuilt;
    RestartRebuildsBook(g, cfg, now);
    RebuiltIsSorted(s, g.engine.On(s), g.db.orders, now);
    o :| o in g.engine.On(s) && !Stale(g.db.orders[o.id].order, now)
        && x == o.(quantity := g.db.orders[o.id].restingQuantity);
    assert Entered(g, cfg, s, o);
    LiveAt(g, cfg, s, o);
  }

  lemma LiveAt(g: Gateway, cfg: Config, s: Side, o: EngineOrder)
    requires Consistent(g, cfg) && o in g.engine.On(s)
    ensures o.side == s && o.quantity > 0 && o.id in g.engine.AllIds()
  {
  }

  lemma RestartIsSound(g: Gateway, cfg: Config, now: nat)
    requires Consistent(g, cfg)
    ensures Sound(Restarted(g.db, cfg, now).engine)
  {
    hide Mirrored, Entered, Sorted, DistinctIds, Restarted, Rebuilt, Consistent;
    var h := Restarted(g.db, cfg, now);
    assert Sound(g.engine) by { ConsistentSound(g, cfg); }
    RestartRebuildsBook(g, cfg, now);
    forall s ensures Sorted(s, h.engine.On(s)) && DistinctIds(h.engine.On(s))
        && Ids(h.engine.On(s)) <= Ids(g.engine.On(s)) {
      RebuiltIsSorted(s, g.engine.On(s), g.db.orders, now);
      SoundSorted(g.engine);
      SoundDistinct(g.engine);
      RebuiltDistinct(g.engine.On(s), g.db.orders, now);
    }
    assert h.engine.bids == h.engine.On(Buy) && h.engine.asks == h.engine.On(Sell);
    assert g.engine.bids == g.engine.On(Buy) && g.engine.asks == g.engine.On(Sell);
    forall s, x | x in h.engine.On(s)
        ensures x.side == s && x.quantity > 0 && exists o :: o in g.engine.On(s) && o.price == x.price {
      var o := RebuiltOrigin(g, cfg, now, s, x);
    }
    forall id | id in h.engine.AllIds() ensures id < h.engine.nextId {
      var s := if id in Ids(h.engine.bids) then Buy else Sell;
      var x :| x in h.engine.On(s) && x.id == id;
      var o := RebuiltOrigin(g, cfg, now, s, x);
    }
  }

  lemma RestartEnters(g: Gateway, cfg: Config, now: nat, s: Side, x: EngineOrder)
    requires Consistent(g, cfg) && x in Restarted(g.db, cfg, now).engine.On(s)
    ensures Entered(Restarted(g.db, cfg, now), cfg, s, x)
    ensures x.id in g.orderMap && Restarted(g.db, cfg, now).orderMap[x.id] == g.orderMap[x.id]
  {
    hide Sound, Mirrored, LiveRows, RestingOrders, Collateral, Consistent, Restarted, RestingIds;
    var rows := RestingOrders(g.db.orders);
    var o := RebuiltOrigin(g, cfg, now, s, x);
    var row := RestingRow(g.db.orders, o.id);
    RestingOrdersAre(g.db.orders);
    LiveRowsAre(rows, now);
    EnteredRests(g, cfg, s, o);
    assert row in rows && row in LiveRows(rows, now);
    RestartMaps(g.db, cfg, now, row);
  }

  /** What the maps and the table say about a restored row. */
  lemma RestartMaps(db: Tables, cfg: Config, now: nat, row: RestingOrder)
    requires row.id in db.orders && row in RestingOrders(db.orders) && row in LiveRows(RestingOrders(db.orders), now)
    ensures var h := Restarted(db, cfg, now);
            && row.id in h.orderMap && h.orderMap[row.id] == row.order
            && row.id in h.orderNonceMap && h.orderNonceMap[row.id] == RestoredEntry(cfg, row)
            && row.id in h.db.orders && h.db.orders[row.id] == db.orders[row.id]
  {
    hide LiveRows, StaleIds, RowsById, RestingOrders, Restored, Collateral, PendingTrades, LoadedBalances,
      RestoredEntry;
    var rows := RestingOrders(db.orders);
    RestingOrdersAre(db.orders);
    LiveRowsAre(rows, now);
    RowsByIdAre(LiveRows(rows, now));
    StaleIdsAre(rows, now);
  }

  lemma StaleAre(g: Gateway, cfg: Config, now: nat, id: OrderId)
    requires Consistent(g, cfg) && id in RestingIds(g.db.orders)
    ensures id in StaleIds(RestingOrders(g.db.orders), now) <==> Stale(g.db.orders[id].order, now)
  {
    hide Consistent, StaleIds, RestingOrders;
    RestingOrdersAre(g.db.orders);
    StaleIdsAre(RestingOrders(g.db.orders), now);
    assert RestingRow(g.db.orders, id) in RestingOrders(g.db.orders);
  }

  lemma RestingOrderOf(g: Gateway, cfg: Config, id: OrderId) returns (s: Side, o: EngineOrder)
    requires Consistent(g, cfg) && id in RestingIds(g.db.orders)
    ensures o in g.engine.On(s) && o.id == id
  {
    assert id in g.engine.AllIds();
    s := if id in Ids(g.engine.bids) then Buy else Sell;
    o :| o in g.engine.On(s) && o.id == id;
  }

  lemma RestartRows(g: Gateway, cfg: Config, now: nat)
    requires Consistent(g, cfg)
    ensures var h := Restarted(g.db, cfg, now); RestingIds(h.db.orders) == h.engine.AllIds()
  {
    hide Consistent, StaleIds, RestingOrders, Entered, OrdersMarked, RestingIds, Rebuilt, Restarted;
    var h, rows := Restarted(g.db, cfg, now), RestingOrders(g.db.orders);
    assert h.db.orders == OrdersMarked(g.db.orders, StaleIds(rows, now), OrderStatus.Cancelled)
        by { RestartOrders(g.db, cfg, now); }
    MarkedRestingIds(g.db.orders, StaleIds(rows, now), OrderStatus.Cancelled);
    RestartRebuildsBook(g, cfg, now);
    forall id | id in h.engine.AllIds() ensures id in RestingIds(h.db.orders) {
      var s := if id in Ids(h.engine.bids) then Buy else Sell;
      var x :| x in h.engine.On(s) && x.id == id;
      var o := RebuiltOrigin(g, cfg, now, s, x);
      EnteredRests(g, cfg, s, o);
      StaleAre(g, cfg, now, id);
    }
    forall id | id in RestingIds(h.db.orders) ensures id in h.engine.AllIds() {
      var s, o := RestingOrderOf(g, cfg, id);
      StaleAre(g, cfg, now, id);
      RebuiltIsSorted(s, g.engine.On(s), g.db.orders, now);
      InAllIds(h.engine, s, o.(quantity := g.db.orders[id].restingQuantity));
    }
  }

  lemma RestartOrders(db: Tables, cfg: Config, now: nat)
    ensures Restarted(db, cfg, now).db.orders
            == OrdersMarked(db.orders, StaleIds(RestingOrders(db.orders), now), OrderStatus.Cancelled)
  {
  }

  lemma EnteredRests(g: Gateway, cfg: Config, s: Side, o: EngineOrder)
    requires Entered(g, cfg, s, o)
    ensures o.id in RestingIds(g.db.orders)
  {
  }

  /** A restart keeps the agreement of book, maps, tables and ledger, and every balance. */
  lemma RestartKeepsConsistent(g: Gateway, cfg: Config, now: nat)
    requires Consistent(g, cfg)
    ensures Consistent(Restarted(g.db, cfg, now), cfg)
    ensures SameBalances(Restarted(g.db, cfg, now).ledger, g.ledger)
  {
    hide Sound, LiveRows, StaleIds, RowsById, RestingOrders, PendingTrades, Restored, LoadedBalances, Entered,
      OrdersMarked, RestingIds, FirstFreeId, BalanceOf;
    var h := Restarted(g.db, cfg, now);
    RestartIsSound(g, cfg, now);
    RestartRows(g, cfg, now);
    RestartRebuildsBook(g, cfg, now);
    forall s, x | x in h.engine.On(s) ensures Entered(h, cfg, s, x) { RestartEnters(g, cfg, now, s, x); }
    MarkedKeys(g.db.orders, StaleIds(RestingOrders(g.db.orders), now), OrderStatus.Cancelled);
    LoadedMirrors(g.db);
    forall u, t ensures BalanceRow(h.db, u, t) == BalanceOf(h.ledger, u, t)
        && BalanceOf(h.ledger, u, t) == BalanceOf(g.ledger, u, t) {
      assert BalanceRow(g.db, u, t) == BalanceOf(g.ledger, u, t);
    }
  }

  // ----- Exactly when a restart leaves everyone covered -----

  /** What a row of user `u` will lock once it is back on side `s` of the book. */
  ghost function RowNeed(orders: map<OrderId, OrderRow>, id: OrderId, s: Side, u: Address, now: nat): nat {
    if id in orders && orders[id].status.Resting? && orders[id].order.side == s && orders[id].order.maker == u
       && !Stale(orders[id].order, now)
    then Collateral(s, orders[id].restingQuantity, orders[id].order.price) else 0
  }

  ghost function RowNeeds(orders: map<OrderId, OrderRow>, s: Side, u: Address, now: nat): OrderId -> int {
    (id: OrderId) => RowNeed(orders, id, s, u, now)
  }

  /** Each user's reserves cover that user's rows in the orders table. */
  ghost predicate RowsCovered(b: Balances, cfg: Config, orders: map<OrderId, OrderRow>, now: nat) {
    forall u, s :: SumOver<OrderId>(orders.Keys, RowNeeds(orders, s, u, now)) <= BalanceOf(b, u, cfg.Locks(s)).reserved
  }

  lemma {:induction false} LockedRebuilt(s: Side, f: seq<EngineOrder>, orders: map<OrderId, OrderRow>, now: nat,
                                         owners: map<OrderId, SignedOrder>, u: Address)
    requires DistinctIds(f)
    requires forall o :: o in f ==> o.id in orders && orders[o.id].status.Resting?
    requires forall o :: o in f ==> orders[o.id].order.side == s && orders[o.id].order.price == o.price
    requires forall o :: o in f && !Stale(orders[o.id].order, now)
               ==> o.id in owners && owners[o.id] == orders[o.id].order
    ensures Locked(s, Rebuilt(f, orders, now), owners, u) == SumOver<OrderId>(Ids(f), RowNeeds(orders, s, u, now))
  {
    hide Collateral, DistinctIds, Locked, Rebuilt, RowNeeds, SumOver;
    if f == [] {
      NothingRebuilt(s, f, orders, now, owners, u);
    } else {
      assert f == [f[0]] + f[1..] && f[0] in f && forall o :: o in f <==> o == f[0] || o in f[1..];
      HeadDiffers(f[0], f[1..]);
      LockedRebuilt(s, f[1..], orders, now, owners, u);
      assert Ids(f) - {f[0].id} == Ids(f[1..]);
      SumPick<OrderId>(Ids(f), RowNeeds(orders, s, u, now), f[0].id);
      RebuiltTurn(s, f, orders, now, owners, u);
    }
  }

  lemma NothingRebuilt(s: Side, f: seq<EngineOrder>, orders: map<OrderId, OrderRow>, now: nat,
                       owners: map<OrderId, SignedOrder>, u: Address)
    requires f == []
    ensures Locked(s, Rebuilt(f, orders, now), owners, u) == SumOver<OrderId>(Ids(f), RowNeeds(orders, s, u, now)) == 0
  {
    assert Ids(f) == {};
  }

  lemma RebuiltTurn(s: Side, f: seq<EngineOrder>, orders: map<OrderId, OrderRow>, now: nat,
                    owners: map<OrderId, SignedOrder>, u: Address)
    requires f != [] && forall o :: o in f ==> o.id in orders
    requires orders[f[0].id].status.Resting? && orders[f[0].id].order.side == s
             && orders[f[0].id].order.price == f[0].price
    requires !Stale(orders[f[0].id].order, now) ==> f[0].id in owners && owners[f[0].id] == orders[f[0].id].order
    ensures forall o :: o in f[1..] ==> o.id in orders
    ensures Locked(s, Rebuilt(f, orders, now), owners, u)
            == RowNeeds(orders, s, u, now)(f[0].id) + Locked(s, Rebuilt(f[1..], orders, now), owners, u)
  {
    hide Collateral;
    assert forall o :: o in f[1..] ==> o in f;
    var rest := Rebuilt(f[1..], orders, now);
    var head := f[0].(quantity := orders[f[0].id].restingQuantity);
    assert ([head] + rest)[1..] == rest && [] + rest == rest;
  }

  lemma RestLocks(g: Gateway, cfg: Config, now: nat, s: Side, u: Address)
    requires Consistent(g, cfg)
    ensures var h := Restarted(g.db, cfg, now);
            Locked(s, h.engine.On(s), h.orderMap, u)
                == SumOver<OrderId>(g.db.orders.Keys, RowNeeds(g.db.orders, s, u, now))
  {
    hide Sound, Mirrored, Locked, Rebuilt, Restarted, Collateral;
    var f, orders, h := g.engine.On(s), g.db.orders, Restarted(g.db, cfg, now);
    RestartRebuildsBook(g, cfg, now);
    ConsistentSound(g, cfg);
    SoundDistinct(g.engine);
    forall o | o in f ensures Entered(g, cfg, s, o) {}
    forall o | o in f && !Stale(orders[o.id].order, now)
        ensures o.id in h.orderMap && h.orderMap[o.id] == orders[o.id].order {
      RebuiltIsSorted(s, f, orders, now);
      var x := o.(quantity := orders[o.id].restingQuantity);
      assert x in h.engine.On(s);
      RestartEnters(g, cfg, now, s, x);
    }
    LockedRebuilt(s, f, orders, now, h.orderMap, u);
    forall id | id in orders.Keys - Ids(f) ensures RowNeeds(orders, s, u, now)(id) == 0 {
      NoNeedElsewhere(g, cfg, now, s, u, id);
    }
    SumOfPart<OrderId>(orders.Keys, Ids(f), RowNeeds(orders, s, u, now));
  }

  /** Exactly when a restart is safe: it leaves every user covered if and only if the reserves cover,
      for each user and side, the recorded quantities of the rows that are not stale. */
  lemma RestartSafeIff(g: Gateway, cfg: Config, now: nat)
    requires Consistent(g, cfg)
    ensures var h := Restarted(g.db, cfg, now);
            Solvent(h.ledger, cfg, h.engine, h.orderMap) <==> RowsCovered(g.ledger, cfg, g.db.orders, now)
  {
    hide Consistent, Locked, BalanceOf, Restarted, RowNeeds;
    var h := Restarted(g.db, cfg, now);
    RestartKeepsConsistent(g, cfg, now);
    forall u, s ensures BalanceOf(h.ledger, u, cfg.Locks(s)).reserved >= Locked(s, h.engine.On(s), h.orderMap, u)
                        <==> SumOver<OrderId>(g.db.orders.Keys, RowNeeds(g.db.orders, s, u, now))
                             <= BalanceOf(g.ledger, u, cfg.Locks(s)).reserved
    {
      RestLocks(g, cfg, now, s, u);
      assert BalanceOf(h.ledger, u, cfg.Locks(s)) == BalanceOf(g.ledger, u, cfg.Locks(s));
    }
    if Solvent(h.ledger, cfg, h.engine, h.orderMap) {
      forall u, s ensures SumOver<OrderId>(g.db.orders.Keys, RowNeeds(g.db.orders, s, u, now))
          <= BalanceOf(g.ledger, u, cfg.Locks(s)).reserved {
        assert BalanceOf(h.ledger, u, cfg.Locks(s)).reserved >= Locked(s, h.engine.On(s), h.orderMap, u);
      }
    }
  }

  /** ... and then it keeps everything a guarded run relies on. */
  lemma RestartKeepsHealthy(g: Gateway, cfg: Config, now: nat)
    requires Healthy(g, cfg) && RowsCovered(g.ledger, cfg, g.db.orders, now)
    ensures Healthy(Restarted(g.db, cfg, now), cfg)
    ensures SameBalances(Restarted(g.db, cfg, now).ledger, g.ledger)
  {
    hide Consistent, Locked, BalanceOf, Restarted, Rebuilt, Entered, Collateral, Solvent, RowsCovered, OrdersMarked;
    var h := Restarted(g.db, cfg, now);
    RestartKeepsConsistent(g, cfg, now);
    RestartSafeIff(g, cfg, now);
    forall x | x in h.engine.bids ensures Fits(x.quantity, x.price) {
      assert h.engine.bids == h.engine.On(Buy);
      var o := RebuiltOrigin(g, cfg, now, Buy, x);
      RowFits(g, cfg, Buy, o);
    }
    RestartOrders(g.db, cfg, now);
    assert RowsFit(h.db.orders) by { MarkedRowsFit(g.db.orders, StaleIds(RestingOrders(g.db.orders), now)); }
  }

  lemma RowFits(g: Gateway, cfg: Config, s: Side, o: EngineOrder)
    requires RowsFit(g.db.orders) && Entered(g, cfg, s, o) && s.Buy?
    ensures Fits(g.db.orders[o.id].restingQuantity, o.price)
  {
  }

  lemma MarkedRowsFit(orders: map<OrderId, OrderRow>, ids: seq<OrderId>)
    requires RowsFit(orders)
    ensures RowsFit(OrdersMarked(orders, ids, OrderStatus.Cancelled))
  {
  }

  /** A user none of whose orders was partly filled is always covered by its rows. */
  lemma UnfilledRowsAreCovered(g: Gateway, cfg: Config, now: nat)
    requires Healthy(g, cfg)
    requires forall s, o :: o in g.engine.On(s) ==> UnfilledSinceRest(g, s, o)
    ensures RowsCovered(g.ledger, cfg, g.db.orders, now)
  {
    hide Sound, Mirrored, Locked, BalanceOf, Collateral, RowNeeds;
    forall u, s ensures SumOver<OrderId>(g.db.orders.Keys, RowNeeds(g.db.orders, s, u, now))
        <= BalanceOf(g.ledger, u, cfg.Locks(s)).reserved {
      var f, orders := g.engine.On(s), g.db.orders;
      assert BalanceOf(g.ledger, u, cfg.Locks(s)).reserved >= Locked(s, f, g.orderMap, u);
      forall o | o in f ensures Entered(g, cfg, s, o) && UnfilledSinceRest(g, s, o) {}
      ConsistentSound(g, cfg);
      SoundDistinct(g.engine);
      LockedRebuilt(s, f, orders, now, g.orderMap, u);
      RebuiltLocksLess(s, f, orders, now, g.orderMap, u);
      forall id | id in orders.Keys - Ids(f) ensures RowNeeds(orders, s, u, now)(id) == 0 {
        NoNeedElsewhere(g, cfg, now, s, u, id);
      }
      SumOfPart<OrderId>(orders.Keys, Ids(f), RowNeeds(orders, s, u, now));
    }
  }

  lemma NoNeedElsewhere(g: Gateway, cfg: Config, now: nat, s: Side, u: Address, id: OrderId)
    requires Consistent(g, cfg) && id in g.db.orders && id !in Ids(g.engine.On(s))
    ensures RowNeeds(g.db.orders, s, u, now)(id) == 0
  {
    hide Sound, Mirrored, Collateral;
    if g.db.orders[id].status.Resting? {
      var s', o := RestingOrderOf(g, cfg, id);
      assert Entered(g, cfg, s', o);
    }
  }

  lemma {:induction false} RebuiltLocksLess(s: Side, f: seq<EngineOrder>, orders: map<OrderId, OrderRow>, now: nat,
                                            owners: map<OrderId, SignedOrder>, u: Address)
    requires forall o :: o in f ==> o.id in orders && orders[o.id].restingQuantity == o.quantity
    ensures Locked(s, Rebuilt(f, orders, now), owners, u) <= Locked(s, f, owners, u)
  {
    hide Collateral;
    if f != [] {
      assert f == [f[0]] + f[1..] && f[0] in f;
      RebuiltLocksLess(s, f[1..], orders, now, owners, u);
      var rest := Rebuilt(f[1..], orders, now);
      assert f[0].(quantity := orders[f[0].id].restingQuantity) == f[0];
      assert ([f[0]] + rest)[1..] == rest && [] + rest == rest;
    }
  }

  lemma RestartKeepsOwner(g: Gateway, cfg: Config, now: nat, id: OrderId)
    requires Consistent(g, cfg) && id in Restarted(g.db, cfg, now).orderMap
    ensures id in g.orderMap && Restarted(g.db, cfg, now).orderMap[id] == g.orderMap[id]
  {
    hide Sound, Mirrored, LiveRows, StaleIds, RowsById, RestingOrders, Restored, PendingTrades, LoadedBalances,
      OrdersMarked;
    var rows := RestingOrders(g.db.orders);
    RestingOrdersAre(g.db.orders);
    LiveRowsAre(rows, now);
    RowsByIdAre(LiveRows(rows, now));
    assert id in g.engine.AllIds();
    var s := if id in Ids(g.engine.bids) then Buy else Sell;
    var o :| o in g.engine.On(s) && o.id == id;
    assert Entered(g, cfg, s, o);
  }
}
