/** What every run keeps about signatures and times: whatever rests, is recorded or is traded was signed
    by its maker, and no order trades as taker after its expiry. */
module Vouching {
  import opened Types
  import opened MatchingEngines
  import opened Ledgers
  import opened Persistence
  import opened Gateways
  import opened GatewaySolvency
  import opened Recovery
  import opened Exchanges
  import opened System
  import opened Admission

  predicate SignedByMaker(order: SignedOrder) {
    order.signature == Some(order.maker)
  }

  predicate TradeVouched(trade: Trade) {
    && SignedByMaker(trade.makerOrder) && SignedByMaker(trade.takerOrder)
    && trade.timestamp <= trade.takerOrder.expiry
  }

  ghost predicate OrdersVouched(orders: map<OrderId, SignedOrder>) {
    forall id :: id in orders ==> SignedByMaker(orders[id])
  }

  ghost predicate RowsVouched(rows: map<OrderId, OrderRow>) {
    forall id :: id in rows ==> SignedByMaker(rows[id].order)
  }

  ghost predicate LogVouched(log: seq<Trade>) {
    forall trade :: trade in log ==> TradeVouched(trade)
  }

  ghost predicate Vouched(w: World) {
    OrdersVouched(w.g.orderMap) && RowsVouched(w.g.db.orders) && LogVouched(w.log)
  }

  // ----- Submitting -----

  lemma NewTradesVouched(g: Gateway, cfg: Config, order: SignedOrder, orderType: OrderType, now: nat)
    requires MakersKnown(g.engine, g.orderMap) && OrdersVouched(g.orderMap)
    ensures LogVouched(NewTrades(g, cfg, order, orderType, now))
  {
    hide OrderSubmitted, NewTrades, AfterSubmit, Affordable, Fillable, Unseen;
    var trades := NewTrades(g, cfg, order, orderType, now);
    forall trade | trade in trades ensures TradeVouched(trade) {
      var i :| 0 <= i < |trades| && trades[i] == trade;
      TradesAndAnswer(g, cfg, order, orderType, now, i);
      AcceptedIff(g, cfg, order, orderType, now);
    }
  }

  lemma RecordedVouched(g: Gateway, cfg: Config, order: SignedOrder, id: OrderId, e: EngineState, r: MatchResult,
                        ledger: Balances, trades: seq<Trade>, now: nat)
    requires OrdersVouched(g.orderMap) && RowsVouched(g.db.orders) && SignedByMaker(order)
    ensures var h := Recorded(g, cfg, order, id, e, r, ledger, trades, now);
            OrdersVouched(h.orderMap) && RowsVouched(h.db.orders)
  {
    hide FilledMakers, RowsOf, NewRows, Collateral;
  }

  lemma SubmitVouched(g: Gateway, cfg: Config, order: SignedOrder, orderType: OrderType, now: nat)
    requires MakersKnown(g.engine, g.orderMap) && OrdersVouched(g.orderMap) && RowsVouched(g.db.orders)
    ensures var h := OrderSubmitted(g, cfg, order, orderType, now).0;
            OrdersVouched(h.orderMap) && RowsVouched(h.db.orders)
  {
    hide AfterSubmit, FillsApplied, TradesOf, ClientFills, AfterReserve, Released, Collateral, Refusal, Recorded,
      CanReserve,
      Affordable, Fillable, Unseen;
    AcceptedIff(g, cfg, order, orderType, now);
    if OrderSubmitted(g, cfg, order, orderType, now).1.Accepted? {
      var (e, r) := AfterSubmit(g.engine, order.side, order.price, order.quantity, orderType);
      FillsFromBook(g.engine, order.side, order.price, order.quantity, orderType, g.orderMap);
      var reserved := AfterReserve(g.ledger, order.maker, OwnCollateralToken(order),
                                   Collateral(order.side, order.quantity, order.price));
      RecordedVouched(g, cfg, order, g.engine.nextId, e, r, FillsApplied(reserved, cfg, order, g.orderMap, r.fills),
                      TradesOf(order, g.orderMap, r.fills, now), now);
    } else {
      RefusedChangesNothing(g, cfg, order, orderType, now);
    }
  }

  // ----- The other steps -----

  lemma CancelVouched(g: Gateway, nonce: nat, signer: Option<Address>, found: Option<OrderId>)
    requires OrdersVouched(g.orderMap) && RowsVouched(g.db.orders)
    requires signer.Some? ==> MayFind(g.orderNonceMap, nonce, found)
    ensures var h := CancelRequested(g, nonce, signer, found).0; OrdersVouched(h.orderMap) && RowsVouched(h.db.orders)
  {
    hide AfterCancel, Released, RowsOf;
  }

  lemma RestartVouched(db: Tables, cfg: Config, now: nat)
    requires RowsVouched(db.orders)
    ensures var h := Restarted(db, cfg, now); OrdersVouched(h.orderMap) && RowsVouched(h.db.orders)
  {
    hide LiveRows, RestingOrders, Restored, LoadedBalances, PendingTrades, StaleIds, RowsById;
    RestingOrdersAre(db.orders);
    LiveRowsAre(RestingOrders(db.orders), now);
    RowsByIdAre(LiveRows(RestingOrders(db.orders), now));
  }

  /** Only balances, trade rows and pending cancels of the tables moved, and none of maps, book and
      nonces. */
  ghost predicate Untouched(g: Gateway, h: Gateway) {
    && h.orderMap == g.orderMap && h.orderNonceMap == g.orderNonceMap && h.engine == g.engine
    && h.acceptedNonces == g.acceptedNonces
        && h.db == g.db.(balances := h.db.balances, trades := h.db.trades, pendingCancels := h.db.pendingCancels)
  }

  lemma CreditUntouched(g: Gateway, user: Address, token: Address, amount: nat)
    ensures Untouched(g, DepositCredited(g, user, token, amount))
  {
    hide Credited, BalanceOf;
  }

  lemma MarkUntouched(w: World)
    ensures w.task.Marking? ==> Untouched(w.g, MarkStep(w).g) && MarkStep(w).log == w.log
  {
    hide TradesMarked, ConfirmedDeleted;
  }

  lemma RowsUntouched(w: World, cfg: Config, e: Event)
    requires e.DepositEvent? || e.CreditEvent? || e.DrainEvent? || e.LandEvent? || e.AckEvent? || e.FailEvent?
             || e.MarkEvent? || e.CancelNonceEvent? || e.ConfirmCancelEvent?
    ensures Untouched(w.g, Next(w, cfg, e).g) && Next(w, cfg, e).log == w.log
  {
    hide DepositCredited, MarkStep, SettledBatch, OrderSubmitted, NewTrades, CancelRequested, Restarted;
    if e.MarkEvent? {
      MarkUntouched(w);
    } else if e.CreditEvent? && e.index < |w.deposits| {
      var d := w.deposits[e.index];
      CreditUntouched(w.g, d.user, d.token, d.amount);
    }
  }

  lemma StepIsVouched(w: World, cfg: Config, e: Event)
    requires Vouched(w)
    ensures Vouched(Next(w, cfg, e))
  {
    hide OrdersVouched, RowsVouched, TradeVouched, OrderSubmitted, NewTrades, CancelRequested, DepositCredited,
      Restarted,
      SettledBatch, MarkStep;
    match e
    case SubmitEvent(order, orderType, now) =>
      if MakersKnown(w.g.engine, w.g.orderMap) {
        NewTradesVouched(w.g, cfg, order, orderType, now);
        SubmitVouched(w.g, cfg, order, orderType, now);
      }
    case CancelEvent(nonce, signer, found) =>
      if signer.Some? ==> MayFind(w.g.orderNonceMap, nonce, found) {
        CancelVouched(w.g, nonce, signer, found);
      }
    case RestartEvent(now) => RestartVouched(w.g.db, cfg, now);
    case _ => RowsUntouched(w, cfg, e);
  }

  lemma {:induction false} RunIsVouched(cfg: Config, events: seq<Event>, states: seq<World>, k: nat)
    requires IsRun(cfg, events, states) && k < |states|
    ensures Vouched(states[k])
  {
    hide Next, Vouched;
    if k == 0 {
      assert Vouched(START) by { StartIsVouched(); }
    } else {
      assert states[k] == Next(states[k - 1], cfg, events[k - 1]);
      RunIsVouched(cfg, events, states, k - 1);
      StepIsVouched(states[k - 1], cfg, events[k - 1]);
    }
  }

  lemma StartIsVouched()
    ensures Vouched(START)
  {
  }

  /** In every reachable state each trade of the log was signed by both makers and was made no later than
      its taker's order expired. */
  lemma TradesAreVouched(cfg: Config, w: World, trade: Trade)
    requires Reached(cfg, w) && trade in w.log
    ensures trade.makerOrder.signature == Some(trade.makerOrder.maker)
    ensures trade.takerOrder.signature == Some(trade.takerOrder.maker)
    ensures trade.timestamp <= trade.takerOrder.expiry
  {
    hide Next;
    var events, states :| IsRun(cfg, events, states) && states[|events|] == w;
    RunIsVouched(cfg, events, states, |events|);
  }

  /** So was every order that rests. */
  lemma RestingOrdersAreVouched(cfg: Config, w: World, id: OrderId)
    requires Reached(cfg, w) && id in w.g.engine.AllIds()
    ensures id in w.g.orderMap && w.g.orderMap[id].signature == Some(w.g.orderMap[id].maker)
  {
    hide Next, EngineState.AllIds;
    ReachedIsSafe(cfg, w);
    var events, states :| IsRun(cfg, events, states) && states[|events|] == w;
    RunIsVouched(cfg, events, states, |events|);
  }
}
