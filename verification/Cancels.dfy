/** Cancelling, told by the fields of the entry it finds, and that a cancelled order never comes back. */
module Cancels {
  import opened Types
  import opened PriorityBook
  import opened MatchingEngines
  import opened EngineRuns
  import opened Ledgers
  import opened Persistence
  import opened Gateways
  import opened GatewayInvariants
  import opened GatewaySolvency
  import opened Recovery
  import opened Exchanges
  import opened System
  import opened Vouching

  /** A cancel is accepted if and only if it is signed, an entry with its nonce is found, the signer owns
      it and its order rests; else it names the first of these that fails and changes nothing. */
  lemma CancelAnswers(g: Gateway, nonce: nat, signer: Option<Address>, found: Option<OrderId>)
    requires signer.Some? ==> MayFind(g.orderNonceMap, nonce, found)
    ensures var (h, r) := CancelRequested(g, nonce, signer, found);
            match r
            case CancelAccepted(id, maker) =>
              && found == Some(id) && signer == Some(maker) && id in g.orderNonceMap && id in g.engine.AllIds()
              && g.orderNonceMap[id].maker == maker && g.orderNonceMap[id].nonce == nonce
            case CancelRefused(error) =>
              && h == g
              && match error
                 case CancelBadSignature => signer == None
                 case NoSuchNonce =>
                   && signer != None && found == None
                   && forall id :: id in g.orderNonceMap ==> g.orderNonceMap[id].nonce != nonce
                 case SignerIsNotOrderMaker =>
                   && signer != None && found != None && found.value in g.orderNonceMap
                   && signer != Some(g.orderNonceMap[found.value].maker)
                 case NotOnBook =>
                   && found != None && found.value in g.orderNonceMap
                   && signer == Some(g.orderNonceMap[found.value].maker) && found.value !in g.engine.AllIds()
  {
    hide AfterCancel, Released, RowsOf, OrdersMarked, EngineState.AllIds;
  }

  /** What an accepted cancel leaves: the order is off the book and out of both maps, its row says
      cancelled, the on-chain cancel of its maker and nonce is noted for retrying, its recorded collateral
      is available again, and everything else is as it was. */
  lemma CancelLeaves(g: Gateway, cfg: Config, nonce: nat, signer: Option<Address>, found: Option<OrderId>)
    requires Consistent(g, cfg)
    requires signer.Some? ==> MayFind(g.orderNonceMap, nonce, found)
    ensures var (h, r) := CancelRequested(g, nonce, signer, found);
            r.CancelAccepted? ==>
              var id := r.orderId;
              && id in g.orderMap && id in g.orderNonceMap && id in g.db.orders
              && r.maker == g.orderMap[id].maker && nonce == g.orderMap[id].nonce
              && h.engine.AllIds() == g.engine.AllIds() - {id} && h.engine.nextId == g.engine.nextId
              && h.orderMap == g.orderMap - {id} && h.orderNonceMap == g.orderNonceMap - {id}
              && h.acceptedNonces == g.acceptedNonces && h.pendingTrades == g.pendingTrades
              && h.db.orders == g.db.orders[id := g.db.orders[id].(status := OrderStatus.Cancelled)]
              && h.db.pendingCancels == g.db.pendingCancels + {(r.maker, nonce)}
              && h.db == g.db.(orders := h.db.orders, pendingCancels := h.db.pendingCancels, balances := h.db.balances)
              && var entry := g.orderNonceMap[id];
              && BalanceOf(h.ledger, entry.maker, entry.token).available
                 == BalanceOf(g.ledger, entry.maker, entry.token).available + entry.collateral
              && forall u, t :: (u, t) != (entry.maker, entry.token)
                  ==> BalanceOf(h.ledger, u, t) == BalanceOf(g.ledger, u, t)
  {
    hide Sound, Mirrored, RowsOf, WithBalance, BalanceOf, AfterCancel, EngineState.AllIds;
    var (h, r) := CancelRequested(g, nonce, signer, found);
    if r.CancelAccepted? {
      ConsistentSound(g, cfg);
      SoundDistinct(g.engine);
      CancelRemovesIds(g.engine, r.orderId);
      var s, o := RestingWith(g.engine, r.orderId);
      assert Entered(g, cfg, s, o);
      OneMarked(g.db.orders, r.orderId);
      AfterCancelNext(g.engine, r.orderId);
    }
  }

  lemma AfterCancelNext(e: EngineState, id: OrderId)
    ensures AfterCancel(e, id).nextId == e.nextId
  {
  }

  lemma RestingWith(e: EngineState, id: OrderId) returns (s: Side, o: EngineOrder)
    requires id in e.AllIds()
    ensures o in e.On(s) && o.id == id
  {
    s := if id in Ids(e.bids) then Buy else Sell;
    o :| o in e.On(s) && o.id == id;
  }

  lemma OneMarked(orders: map<OrderId, OrderRow>, id: OrderId)
    requires id in orders
    ensures OrdersMarked(orders, [id], OrderStatus.Cancelled)
            == orders[id := orders[id].(status := OrderStatus.Cancelled)]
  {
  }

  // ----- A cancelled order never comes back -----

  ghost predicate CancelNoted(w: World, maker: Address, nonce: nat) {
    (maker, nonce) in w.g.db.pendingCancels || (maker, nonce) in w.chain.usedNonces
  }

  /** The order's row says cancelled, it does not rest, and its cancel on chain is noted or done. */
  ghost predicate Gone(w: World, id: OrderId, maker: Address, nonce: nat) {
    && id in w.g.db.orders && w.g.db.orders[id].status == OrderStatus.Cancelled && id < w.g.engine.nextId
    && w.g.db.orders[id].order.maker == maker && w.g.db.orders[id].order.nonce == nonce
    && id !in w.g.engine.AllIds() && CancelNoted(w, maker, nonce)
  }

  /** The step cancels this order. */
  ghost predicate CancelsOrder(w: World, e: Event, id: OrderId) {
    && e.CancelEvent? && (e.signer.Some? ==> MayFind(w.g.orderNonceMap, e.nonce, e.found))
    && var r := CancelRequested(w.g, e.nonce, e.signer, e.found).1; r.CancelAccepted? && r.orderId == id
  }

  lemma CancelledIsGone(w: World, cfg: Config, e: Event, id: OrderId)
    requires Safe(w, cfg) && CancelsOrder(w, e, id)
    ensures id in w.g.db.orders
    ensures Gone(Next(w, cfg, e), id, w.g.db.orders[id].order.maker, w.g.db.orders[id].order.nonce)
  {
    hide RowsTellLog, BatchTellsLog, TaskSound, SettledOnce, CancelRequested, Sound, Mirrored, EngineState.AllIds,
      AllEntered;
    CancelLeaves(w.g, cfg, e.nonce, e.signer, e.found);
    RowTells(w.g, cfg, id, e.nonce, e.signer, e.found);
  }

  lemma RowTells(g: Gateway, cfg: Config, id: OrderId, nonce: nat, signer: Option<Address>, found: Option<OrderId>)
    requires Consistent(g, cfg) && id in g.db.orders && id in g.orderMap
    requires signer.Some? ==> MayFind(g.orderNonceMap, nonce, found)
    requires var r := CancelRequested(g, nonce, signer, found).1; r.CancelAccepted? && r.orderId == id
    ensures g.db.orders[id].order == g.orderMap[id] && id < g.engine.nextId
  {
    hide AfterCancel, Released, RowsOf, OrdersMarked, EngineState.AllIds, Sound, Mirrored;
    var s, o := RestingWith(g.engine, id);
    assert Entered(g, cfg, s, o);
  }

  lemma SubmitLeavesGone(g: Gateway, cfg: Config, order: SignedOrder, orderType: OrderType, now: nat, id: OrderId)
    requires Consistent(g, cfg) && MakersKnown(g.engine, g.orderMap)
    requires id in g.db.orders && id !in g.engine.AllIds() && id < g.engine.nextId
    ensures var h := OrderSubmitted(g, cfg, order, orderType, now).0;
            && id in h.db.orders && h.db.orders[id] == g.db.orders[id] && id !in h.engine.AllIds()
            && id < h.engine.nextId && h.db.pendingCancels == g.db.pendingCancels
  {
    hide FillsApplied, TradesOf, ClientFills, AfterReserve, Released, Collateral, Refusal, CanReserve, AfterSubmit,
      FilledMakers, RowsOf, NewRows, Mirrored, AllEntered, Rejects, Sound;
    var (e, r) := AfterSubmit(g.engine, order.side, order.price, order.quantity, orderType);
    ConsistentKnowsMakers(g, cfg);
    SubmitAddsOwnId(g.engine, order.side, order.price, order.quantity, orderType);
    if OrderSubmitted(g, cfg, order, orderType, now).1.Refused? {
      RefusedChangesNothing(g, cfg, order, orderType, now);
      RefusedKeepsNext(g, cfg, order, orderType, now);
    } else {
      FillsComeFromBook(g.engine, order.side, order.price, order.quantity, orderType, id);
    }
  }

  lemma RefusedKeepsNext(g: Gateway, cfg: Config, order: SignedOrder, orderType: OrderType, now: nat)
    requires MakersKnown(g.engine, g.orderMap)
    ensures OrderSubmitted(g, cfg, order, orderType, now).1.Refused?
            ==> OrderSubmitted(g, cfg, order, orderType, now).0.engine.nextId >= g.engine.nextId
  {
    hide Match, Insert, FillsApplied, TradesOf, ClientFills, AfterReserve, Released, Recorded, Collateral, Refusal,
      CanReserve;
  }

  /** Only orders that rested are marked as filled makers. */
  lemma FillsComeFromBook(e: EngineState, side: Side, price: nat, quantity: nat, orderType: OrderType, id: OrderId)
    requires id !in e.AllIds()
    ensures var (e', r) := AfterSubmit(e, side, price, quantity, orderType); id !in FilledMakers(r.fills, e')
  {
    hide Match, Insert, Total;
    var opp := side.Opposite();
    var (e', r) := AfterSubmit(e, side, price, quantity, orderType);
    FilledMakersIs(r.fills, e');
    MatchConsumesPrefix(opp, e.On(opp), LimitOf(orderType, price), e.nextId, quantity);
    forall fill | fill in r.fills ensures fill.makerId in e.AllIds() {
      var i :| 0 <= i < |r.fills| && r.fills[i] == fill;
      assert e.On(opp)[i] in e.On(opp);
    }
  }

  lemma CancelLeavesGone(w: World, cfg: Config, e: Event, id: OrderId, maker: Address, nonce: nat)
    requires Safe(w, cfg) && Gone(w, id, maker, nonce) && e.CancelEvent?
    ensures Gone(Next(w, cfg, e), id, maker, nonce)
  {
    hide RowsTellLog, BatchTellsLog, TaskSound, SettledOnce, CancelRequested, Consistent, EngineState.AllIds;
    if e.signer.Some? ==> MayFind(w.g.orderNonceMap, e.nonce, e.found) {
      CancelAnswers(w.g, e.nonce, e.signer, e.found);
      CancelLeaves(w.g, cfg, e.nonce, e.signer, e.found);
    }
  }

  lemma RestartLeavesGone(w: World, cfg: Config, now: nat, id: OrderId, maker: Address, nonce: nat)
    requires Safe(w, cfg) && Gone(w, id, maker, nonce)
    ensures Gone(Next(w, cfg, RestartEvent(now)), id, maker, nonce)
  {
    hide RowsTellLog, BatchTellsLog, TaskSound, SettledOnce, Consistent, EngineState.AllIds, Restarted;
    RestartKeepsByExpiry(w.g.db, cfg, now);
    RestartRebuildsBook(w.g, cfg, now);
  }

  lemma GoneStays(w: World, cfg: Config, e: Event, id: OrderId, maker: Address, nonce: nat)
    requires Safe(w, cfg) && Gone(w, id, maker, nonce)
    ensures Gone(Next(w, cfg, e), id, maker, nonce)
  {
    hide Consistent, RowsTellLog, BatchTellsLog, TaskSound, SettledOnce, OrderSubmitted, NewTrades, CancelRequested,
      DepositCredited, Restarted, SettledBatch, MarkStep, EngineState.AllIds;
    match e
    case SubmitEvent(order, orderType, now) =>
      if MakersKnown(w.g.engine, w.g.orderMap) { SubmitLeavesGone(w.g, cfg, order, orderType, now, id); }
    case CancelEvent(_, _, _) => CancelLeavesGone(w, cfg, e, id, maker, nonce);
    case RestartEvent(now) => RestartLeavesGone(w, cfg, now, id, maker, nonce);
    case _ =>
      RowsUntouched(w, cfg, e);
      NotedUntouched(w, cfg, e, maker, nonce);
  }

  /** A noted cancel is only deleted once the contract has it. */
  lemma NotedUntouched(w: World, cfg: Config, e: Event, maker: Address, nonce: nat)
    requires !e.SubmitEvent? && !e.CancelEvent? && !e.RestartEvent? && CancelNoted(w, maker, nonce)
    ensures CancelNoted(Next(w, cfg, e), maker, nonce)
  {
    hide DepositCredited, MarkStep, SettledBatch, OrderSubmitted, NewTrades, CancelRequested, Restarted;
    if e.MarkEvent? {
      MarkLeavesCancels(w);
    } else if e.CreditEvent? && e.index < |w.deposits| {
      var d := w.deposits[e.index];
      CreditLeavesCancels(w.g, d.user, d.token, d.amount);
    } else if e.LandEvent? && e.sent < |w.broadcast|
        && SettledBatch(w.chain, TradesIn(w.broadcast[e.sent]), e.now).Settled? {
      SettledKeysAreFresh(w.chain, TradesIn(w.broadcast[e.sent]), e.now);
    }
  }

  lemma MarkLeavesCancels(w: World)
    ensures w.task.Marking? ==> MarkStep(w).g.db.pendingCancels == w.g.db.pendingCancels && MarkStep(w).chain == w.chain
  {
    hide TradesMarked, ConfirmedDeleted;
  }

  lemma CreditLeavesCancels(g: Gateway, user: Address, token: Address, amount: nat)
    ensures DepositCredited(g, user, token, amount).db.pendingCancels == g.db.pendingCancels
  {
    hide Credited, BalanceOf;
  }

  lemma {:induction false} GoneUntil(cfg: Config, events: seq<Event>, states: seq<World>, i: nat, j: nat, id: OrderId,
                                     maker: Address, nonce: nat)
    requires IsRun(cfg, events, states) && i <= j < |states| && Gone(states[i], id, maker, nonce)
    ensures Gone(states[j], id, maker, nonce)
    decreases j - i
  {
    hide Next, Gone, Safe;
    if i < j {
      assert states[i + 1] == Next(states[i], cfg, events[i]);
      RunIsSafe(cfg, events, states, i);
      GoneStays(states[i], cfg, events[i], id, maker, nonce);
      GoneUntil(cfg, events, states, i + 1, j, id, maker, nonce);
    }
  }

  /** In every run, once an order is cancelled it never rests again, whatever follows, restarts included;
      its row says cancelled, and its (maker, nonce) waits to be cancelled on chain until it is. */
  lemma CancelledForGood(cfg: Config, events: seq<Event>, states: seq<World>, i: nat, j: nat, id: OrderId)
    requires IsRun(cfg, events, states) && i < j < |states| && CancelsOrder(states[i], events[i], id)
    ensures id in states[i].g.db.orders
    ensures var order, g := states[i].g.db.orders[id].order, states[j].g;
            && id !in g.engine.AllIds() && id in g.db.orders && g.db.orders[id].status == OrderStatus.Cancelled
            && ((order.maker, order.nonce) in g.db.pendingCancels
                || (order.maker, order.nonce) in states[j].chain.usedNonces)
  {
    hide Next, Safe, CancelsOrder;
    RunIsSafe(cfg, events, states, i);
    assert states[i + 1] == Next(states[i], cfg, events[i]);
    CancelledIsGone(states[i], cfg, events[i], id);
    var order := states[i].g.db.orders[id].order;
    GoneUntil(cfg, events, states, i + 1, j, id, order.maker, order.nonce);
  }
}
