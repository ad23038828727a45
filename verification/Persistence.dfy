/** The gateway's database as tables. Every method is one transaction that commits. */
module Persistence {
  import opened Types
  import opened Ledgers
  import Levels

  datatype OrderStatus = Resting | Filled | Cancelled

  datatype OrderRow = OrderRow(order: SignedOrder, restingQuantity: nat, status: OrderStatus)

  datatype TradeStatus = Pending | Submitted | Confirmed

  datatype TradeRow = TradeRow(trade: Trade, status: TradeStatus)

  datatype RestingOrder = RestingOrder(id: OrderId, order: SignedOrder, quantity: nat)

  datatype Tables = Tables(
    lastSyncedBlock: Option<nat>,
    balances: map<(Address, Address), TokenBalance>,
    orders: map<OrderId, OrderRow>,
    trades: map<nat, TradeRow>,
    nextTradeId: nat,
    nonces: map<SignedOrder, nat>,
    pendingCancels: set<(Address, nat)>)

  const EMPTY_TABLES := Tables(None, map[], map[], map[], 1, map[], {})

  // ----- What each statement does -----

  function BalanceRow(db: Tables, u: Address, t: Address): TokenBalance {
    if (u, t) in db.balances then db.balances[(u, t)] else TokenBalance(0, 0)
  }

  /** The rows tell what the ledger holds. */
  ghost predicate Mirrored(b: Balances, db: Tables) {
    forall u, t :: BalanceRow(db, u, t) == BalanceOf(b, u, t)
  }

  lemma MirroredSameRows(b: Balances, db: Tables, db': Tables)
    requires Mirrored(b, db) && db.balances == db'.balances
    ensures Mirrored(b, db')
  {
    forall u, t ensures BalanceRow(db', u, t) == BalanceOf(b, u, t) {
      assert BalanceRow(db, u, t) == BalanceOf(b, u, t);
    }
  }

  /** Loading the rows gives every account its row. */
  lemma LoadedMirrors(db: Tables)
    ensures forall u, t :: BalanceOf(LoadedBalances(db.balances), u, t) == BalanceRow(db, u, t)
    ensures forall u, t :: HasEntry(LoadedBalances(db.balances), u, t) <==> (u, t) in db.balances
  {
    forall u, t ensures HasEntry(LoadedBalances(db.balances), u, t) <==> (u, t) in db.balances {
      if (u, t) in db.balances {
        assert (u, t).0 in UsersIn(db.balances) && (u, t).1 in TokensOf(db.balances, u);
      }
    }
  }

  /** Auto-incremented keys: the new rows follow every key ever handed out. */
  function NewTradeIds(db: Tables, n: nat): (ids: seq<nat>)
    ensures |ids| == n && forall i :: 0 <= i < n ==> ids[i] == db.nextTradeId + i
  {
    seq(n, i => db.nextTradeId + i)
  }

  function TradesInserted(db: Tables, trades: seq<Trade>): Tables {
    db.(trades := db.trades + NewRows(db.nextTradeId, trades), nextTradeId := db.nextTradeId + |trades|)
  }

  function NewRows(first: nat, trades: seq<Trade>): (rows: map<nat, TradeRow>)
    ensures forall id :: id in rows <==> first <= id < first + |trades|
    ensures forall id :: id in rows ==> rows[id] == TradeRow(trades[id - first], Pending)
  {
    if trades == [] then map[] else
      var n := |trades| - 1;
      NewRows(first, trades[..n])[first + n := TradeRow(trades[n], Pending)]
  }

  lemma NewRowsStep(rows: map<nat, TradeRow>, first: nat, trades: seq<Trade>, k: nat)
    requires k < |trades|
    ensures rows + NewRows(first, trades[..k + 1])
            == (rows + NewRows(first, trades[..k]))[first + k := TradeRow(trades[k], Pending)]
  {
    assert trades[..k + 1][..k] == trades[..k];
  }

  function OrdersMarked(orders: map<OrderId, OrderRow>, ids: seq<OrderId>, status: OrderStatus):
    map<OrderId, OrderRow>
  {
    map id | id in orders :: if id in ids then orders[id].(status := status) else orders[id]
  }

  function TradesMarked(trades: map<nat, TradeRow>, ids: seq<nat>, status: TradeStatus): map<nat, TradeRow> {
    map id | id in trades :: if id in ids then trades[id].(status := status) else trades[id]
  }

  function ConfirmedDeleted(trades: map<nat, TradeRow>): map<nat, TradeRow> {
    map id | id in trades && !trades[id].status.Confirmed? :: trades[id]
  }

  /** One transaction: nonce, trades, balances, filled makers, and the new resting order. */
  function OrderFillSaved(db: Tables, hash: SignedOrder, expiresAt: nat, trades: seq<Trade>,
                          balances: map<(Address, Address), TokenBalance>, filled: seq<OrderId>,
                          resting: Option<RestingOrder>): Tables
  {
    var marked := OrdersMarked(db.orders, filled, Filled);
    TradesInserted(db, trades).(
      nonces := if hash in db.nonces then db.nonces else db.nonces[hash := expiresAt],
      balances := db.balances + balances,
      orders := if resting.None? then marked
                else marked[resting.value.id := OrderRow(resting.value.order, resting.value.quantity, Resting)])
  }

  /** One transaction: the order's status, balances, and the on-chain cancel to retry. */
  function OrderCancelled(db: Tables, id: OrderId, balances: map<(Address, Address), TokenBalance>,
                          maker: Address, nonce: nat): Tables
  {
    db.(orders := OrdersMarked(db.orders, [id], Cancelled),
        balances := db.balances + balances,
        pendingCancels := db.pendingCancels + {(maker, nonce)})
  }

  /** New trades get pending rows under the next keys; every other row stays. */
  lemma TradesInsertedIs(db: Tables, trades: seq<Trade>)
    ensures var h, first, next := TradesInserted(db, trades), db.nextTradeId, db.nextTradeId + |trades|;
            && h == db.(trades := h.trades, nextTradeId := next)
            && (forall k :: 0 <= k < |trades| ==>
                  first + k in h.trades && h.trades[first + k] == TradeRow(trades[k], Pending))
            && (forall id :: !(first <= id < next) ==> (id in h.trades <==> id in db.trades))
            && (forall id :: !(first <= id < next) && id in db.trades ==> h.trades[id] == db.trades[id])
  {
    hide NewRows;
  }

  /** Of the orders table: listed makers are filled and a remainder gets a resting row; the rest stays. */
  lemma OrdersSavedIs(db: Tables, hash: SignedOrder, expiresAt: nat, trades: seq<Trade>,
                      balances: map<(Address, Address), TokenBalance>, filled: seq<OrderId>,
                      resting: Option<RestingOrder>, id: OrderId)
    ensures var h := OrderFillSaved(db, hash, expiresAt, trades, balances, filled, resting);
            if resting.Some? && resting.value.id == id then
              id in h.orders && h.orders[id] == OrderRow(resting.value.order, resting.value.quantity, Resting)
            else
              && (id in h.orders <==> id in db.orders)
              && (id in db.orders ==>
                    h.orders[id] == if id in filled then db.orders[id].(status := Filled) else db.orders[id])
  {
    hide NewRows;
  }

  /** Of the other tables: the order's hash gets a row unless it has one, the given balances are
      overwritten, trades are added, and the cursor and the pending cancels stay. */
  lemma OrderFillSavedIs(db: Tables, hash: SignedOrder, expiresAt: nat, trades: seq<Trade>,
                         balances: map<(Address, Address), TokenBalance>, filled: seq<OrderId>,
                         resting: Option<RestingOrder>)
    ensures var h := OrderFillSaved(db, hash, expiresAt, trades, balances, filled, resting);
            && h.nonces.Keys == db.nonces.Keys + {hash}
            && (forall x :: x in h.nonces ==> h.nonces[x] == if x in db.nonces then db.nonces[x] else expiresAt)
            && (forall u, t :: BalanceRow(h, u, t)
                               == if (u, t) in balances then balances[(u, t)] else BalanceRow(db, u, t))
            && h.trades == TradesInserted(db, trades).trades && h.nextTradeId == db.nextTradeId + |trades|
            && h.lastSyncedBlock == db.lastSyncedBlock && h.pendingCancels == db.pendingCancels
  {
    hide NewRows, OrdersMarked;
  }

  function PrunedNonces(nonces: map<SignedOrder, nat>, now: nat): map<SignedOrder, nat> {
    map hash | hash in nonces && nonces[hash] >= now :: nonces[hash]
  }

  // ----- Queries -----

  /** Keys in the order the primary key index yields them. */
  function Ascending(ids: set<nat>): (r: seq<nat>)
    ensures forall id :: id in r <==> id in ids
    ensures forall i, j :: 0 <= i < j < |r| ==> r[i] < r[j]
  {
    if ids == {} then [] else
      var first := Levels.BestPrice(Sell, ids);
      var rest := Ascending(ids - {first});
      assert forall j :: 0 <= j < |rest| ==> rest[j] in ids - {first};
      [first] + rest
  }

  function RestingIds(orders: map<OrderId, OrderRow>): set<OrderId> {
    set id | id in orders && orders[id].status.Resting?
  }

  function RestingRow(orders: map<OrderId, OrderRow>, id: OrderId): RestingOrder
    requires id in orders
  {
    RestingOrder(id, orders[id].order, orders[id].restingQuantity)
  }

  function RestingOrders(orders: map<OrderId, OrderRow>): seq<RestingOrder> {
    var ids := Ascending(RestingIds(orders));
    seq(|ids|, i requires 0 <= i < |ids| => assert ids[i] in RestingIds(orders); RestingRow(orders, ids[i]))
  }

  function MaxOrderId(orders: map<OrderId, OrderRow>): (r: Option<OrderId>)
    ensures r.None? <==> orders == map[]
    ensures r.Some? ==> r.value in orders && forall id :: id in orders ==> id <= r.value
  {
    if orders == map[] then None else Some(Levels.BestPrice(Buy, orders.Keys))
  }

  function UnsettledIds(trades: map<nat, TradeRow>): set<nat> {
    set id | id in trades && !trades[id].status.Confirmed?
  }

  function PendingTrades(trades: map<nat, TradeRow>): seq<(nat, Trade)> {
    var ids := Ascending(UnsettledIds(trades));
    seq(|ids|, i requires 0 <= i < |ids| => assert ids[i] in UnsettledIds(trades); (ids[i], trades[ids[i]].trade))
  }

  // ----- The database -----

  class Db {
    var lastSyncedBlock: Option<nat>
    var balances: map<(Address, Address), TokenBalance>
    var orders: map<OrderId, OrderRow>
    var trades: map<nat, TradeRow>
    var nextTradeId: nat
    var nonces: map<SignedOrder, nat>
    var pendingCancels: set<(Address, nat)>

    function State(): Tables
      reads this
    {
      Tables(lastSyncedBlock, balances, orders, trades, nextTradeId, nonces, pendingCancels)
    }

    constructor ()
      ensures State() == EMPTY_TABLES
    {
      lastSyncedBlock, balances, orders, trades := None, map[], map[], map[];
      nextTradeId, nonces, pendingCancels := 1, map[], {};
    }

    method SetLastSyncedBlock(block: nat)
      modifies this
      ensures State() == old(State()).(lastSyncedBlock := Some(block))
    {
      lastSyncedBlock := Some(block);
    }

    method SaveBalance(user: Address, token: Address, balance: TokenBalance)
      modifies this
      ensures State() == old(State()).(balances := old(balances)[(user, token) := balance])
    {
      balances := balances[(user, token) := balance];
    }

    method InsertTrades(newTrades: seq<Trade>) returns (ids: seq<nat>)
      modifies this
      ensures State() == TradesInserted(old(State()), newTrades)
      ensures ids == NewTradeIds(old(State()), |newTrades|)
    {
      hide NewRows, NewTradeIds;
      ghost var rows, first := trades, nextTradeId;
      ids := [];
      for k := 0 to |newTrades|
        invariant |ids| == k && forall i :: 0 <= i < k ==> ids[i] == first + i
        invariant State() == old(State()).(trades := trades, nextTradeId := first + k)
        invariant trades == rows + NewRows(first, newTrades[..k])
      {
        NewRowsStep(rows, first, newTrades, k);
        trades := trades[nextTradeId := TradeRow(newTrades[k], Pending)];
        ids := ids + [nextTradeId];
        nextTradeId := nextTradeId + 1;
      }
      assert newTrades[..|newTrades|] == newTrades;
    }

    method WriteBalances(rows: map<(Address, Address), TokenBalance>)
      modifies this
      ensures State() == old(State()).(balances := old(balances) + rows)
    {
      var todo := rows.Keys;
      while todo != {}
        invariant todo <= rows.Keys
        invariant State() == old(State()).(balances := balances)
        invariant balances == old(balances) + (rows - todo)
        decreases |todo|
      {
        var key :| key in todo;
        balances := balances[key := rows[key]];
        assert rows - (todo - {key}) == (rows - todo)[key := rows[key]];
        todo := todo - {key};
      }
      assert rows - {} == rows;
    }

    method MarkOrders(ids: seq<OrderId>, status: OrderStatus)
      modifies this
      ensures State() == old(State()).(orders := OrdersMarked(old(orders), ids, status))
    {
      for k := 0 to |ids|
        invariant State() == old(State()).(orders := OrdersMarked(old(orders), ids[..k], status))
      {
        if ids[k] in orders {
          orders := orders[ids[k] := orders[ids[k]].(status := status)];
        }
        assert ids[..k + 1] == ids[..k] + [ids[k]];
      }
      assert ids[..|ids|] == ids;
    }

    method SaveOrderFill(hash: SignedOrder, expiresAt: nat, newTrades: seq<Trade>,
                         rows: map<(Address, Address), TokenBalance>, filled: seq<OrderId>,
                         resting: Option<RestingOrder>) returns (ids: seq<nat>)
      modifies this
      ensures State() == OrderFillSaved(old(State()), hash, expiresAt, newTrades, rows, filled, resting)
      ensures ids == NewTradeIds(old(State()), |newTrades|)
    {
      if hash !in nonces {
        nonces := nonces[hash := expiresAt];
      }
      ids := InsertTrades(newTrades);
      WriteBalances(rows);
      MarkOrders(filled, Filled);
      if resting.Some? {
        orders := orders[resting.value.id := OrderRow(resting.value.order, resting.value.quantity, Resting)];
      }
    }

    method CancelOrder(id: OrderId, rows: map<(Address, Address), TokenBalance>, maker: Address, nonce: nat)
      modifies this
      ensures State() == OrderCancelled(old(State()), id, rows, maker, nonce)
    {
      MarkOrders([id], Cancelled);
      WriteBalances(rows);
      pendingCancels := pendingCancels + {(maker, nonce)};
    }

    method MarkTrades(ids: seq<nat>, status: TradeStatus)
      modifies this
      ensures State() == old(State()).(trades := TradesMarked(old(trades), ids, status))
    {
      for k := 0 to |ids|
        invariant State() == old(State()).(trades := TradesMarked(old(trades), ids[..k], status))
      {
        if ids[k] in trades {
          trades := trades[ids[k] := trades[ids[k]].(status := status)];
        }
        assert ids[..k + 1] == ids[..k] + [ids[k]];
      }
      assert ids[..|ids|] == ids;
    }

    method PruneExpiredNonces(now: nat)
      modifies this
      ensures State() == old(State()).(nonces := nonces)
      ensures forall hash :: hash in nonces <==> hash in old(nonces) && old(nonces)[hash] >= now
      ensures forall hash :: hash in nonces ==> nonces[hash] == old(nonces)[hash]
      ensures nonces == PrunedNonces(old(nonces), now)
    {
      nonces := PrunedNonces(nonces, now);
    }

    method DeleteConfirmedTrades()
      modifies this
      ensures State() == old(State()).(trades := trades)
      ensures forall id :: id in trades <==> id in old(trades) && !old(trades)[id].status.Confirmed?
      ensures forall id :: id in trades ==> trades[id] == old(trades)[id]
      ensures trades == ConfirmedDeleted(old(trades))
    {
      trades := ConfirmedDeleted(trades);
    }
  }
}
