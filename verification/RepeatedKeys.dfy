/** A nonce key settles once: what becomes of orders that are filled by more than one trade. */
module RepeatedKeys {
  import opened Types
  import opened Gateways
  import opened GatewayInvariants
  import opened GatewaySolvency
  import opened MatchingEngines
  import opened Recovery
  import opened Exchanges
  import opened System
  import opened Agreement

  /** All trades of one submission carry the taker's key, so they share no key exactly when there is at
      most one of them. */
  lemma DisjointIffOneFill(g: Gateway, cfg: Config, order: SignedOrder, orderType: OrderType, now: nat)
    requires MakersKnown(g.engine, g.orderMap)
    ensures DisjointKeys(NewTrades(g, cfg, order, orderType, now)) <==> |NewTrades(g, cfg, order, orderType, now)| <= 1
  {
    hide AfterSubmit, OrderSubmitted, TradesOf;
    var trades := NewTrades(g, cfg, order, orderType, now);
    if |trades| > 1 {
      var fills := AfterSubmit(g.engine, order.side, order.price, order.quantity, orderType).1.fills;
      FillsFromBook(g.engine, order.side, order.price, order.quantity, orderType, g.orderMap);
      TradesOfAt(order, g.orderMap, fills, now, 0);
      TradesOfAt(order, g.orderMap, fills, now, 1);
      assert order.NonceKey() in KeysOf(trades[0]) && order.NonceKey() in KeysOf(trades[1]);
    }
  }

  /** No contract state and no time lets the trades of a submission with two fills settle together. */
  lemma TwoFillsRevert(g: Gateway, cfg: Config, order: SignedOrder, orderType: OrderType, now: nat, c: Chain,
                       later: nat)
    requires MakersKnown(g.engine, g.orderMap)
    ensures |NewTrades(g, cfg, order, orderType, now)| >= 2
            ==> SettledBatch(c, NewTrades(g, cfg, order, orderType, now), later).Reverted?
  {
    hide AfterSubmit, OrderSubmitted, TradesOf, NewTrades, SettledBatch;
    DisjointIffOneFill(g, cfg, order, orderType, now);
    var trades := NewTrades(g, cfg, order, orderType, now);
    if |trades| >= 2 {
      var i, j :| 0 <= i < j < |trades| && !(KeysOf(trades[i]) !! KeysOf(trades[j]));
      RepeatedKeyReverts(c, trades, later, i, j);
    }
  }

  /** Nor can they settle apart: of two trades of the log with a key in common, whichever submission
      they come from, at most one is ever applied; the other keeps its row for good. */
  lemma SharedKeySettlesOnce(cfg: Config, w: World, a: nat, b: nat)
    requires Reached(cfg, w) && 0 < a < b <= |w.log|
    requires !(KeysOf(w.log[a - 1]) !! KeysOf(w.log[b - 1]))
    ensures !(a in w.settled && b in w.settled)
    ensures (a in w.g.db.trades && !w.g.db.trades[a].status.Confirmed?)
            || (b in w.g.db.trades && !w.g.db.trades[b].status.Confirmed?)
  {
    hide Reached;
    if a in w.settled && b in w.settled {
      var i :| 0 <= i < |w.settled| && w.settled[i] == a;
      var j :| 0 <= j < |w.settled| && w.settled[j] == b;
      if i < j {
        NoTradeSettlesTwice(cfg, w, i, j);
      } else {
        NoTradeSettlesTwice(cfg, w, j, i);
      }
    }
    NoTradeForgotten(cfg, w, a);
    NoTradeForgotten(cfg, w, b);
  }

  // ----- Cancelled nonces over runs -----

  /** No trade applied after the first `n` carries this key, and the contract knows the key. */
  ghost predicate BarredSince(w: World, n: nat, key: NonceKey) {
    && key in w.chain.usedNonces && n <= |w.settled|
    && forall p :: n <= p < |w.settled| ==> 0 < w.settled[p] <= |w.log| && key !in KeysOf(w.log[w.settled[p] - 1])
  }

  lemma BarredStays(w: World, cfg: Config, e: Event, n: nat, key: NonceKey)
    requires Safe(w, cfg) && BarredSince(w, n, key)
    ensures BarredSince(Next(w, cfg, e), n, key)
  {
    hide Consistent, RowsTellLog, TaskSound, SettledOnce, OrderSubmitted, NewTrades, CancelRequested, DepositCredited,
      Restarted,
      SettledBatch, MarkStep;
    if e.LandEvent? && e.sent < |w.broadcast| && SettledBatch(w.chain, TradesIn(w.broadcast[e.sent]), e.now).Settled? {
      var batch := w.broadcast[e.sent];
      SettledKeysAreFresh(w.chain, TradesIn(batch), e.now);
      forall i | 0 <= i < |batch| ensures 0 < batch[i].0 <= |w.log| && key !in KeysOf(w.log[batch[i].0 - 1]) {
        assert TradesIn(batch)[i] == w.log[batch[i].0 - 1];
      }
    } else if e.MarkEvent? && w.task.Marking? {
      MarkKeepsChain(w);
    }
  }

  lemma MarkKeepsChain(w: World)
    requires w.task.Marking?
    ensures MarkStep(w).chain == w.chain && MarkStep(w).settled == w.settled && MarkStep(w).log == w.log
  {
  }

  lemma {:induction false} BarredUntil(cfg: Config, events: seq<Event>, states: seq<World>, i: nat, j: nat, n: nat,
                                       key: NonceKey)
    requires IsRun(cfg, events, states) && i <= j < |states| && BarredSince(states[i], n, key)
    ensures BarredSince(states[j], n, key)
    decreases j - i
  {
    hide Next, BarredSince, Safe;
    if i < j {
      assert states[i + 1] == Next(states[i], cfg, events[i]);
      RunIsSafe(cfg, events, states, i);
      BarredStays(states[i], cfg, events[i], n, key);
      BarredUntil(cfg, events, states, i + 1, j, n, key);
    }
  }

  /** In every run, no trade applied after a nonce was cancelled on chain has an order of that maker with
      that nonce, whenever its batch was sent. */
  lemma CancelledNonceNeverSettles(cfg: Config, events: seq<Event>, states: seq<World>, i: nat, j: nat, maker: Address,
                                   nonce: nat, p: nat)
    requires IsRun(cfg, events, states) && i < j < |states| && events[i] == CancelNonceEvent(maker, nonce)
    requires |states[i].settled| <= p < |states[j].settled|
    ensures var w := states[j];
            && 0 < w.settled[p] <= |w.log|
            && var trade := w.log[w.settled[p] - 1];
            && (trade.makerOrder.maker, trade.makerOrder.nonce) != (maker, nonce)
            && (trade.takerOrder.maker, trade.takerOrder.nonce) != (maker, nonce)
  {
    hide Next;
    assert states[i + 1] == Next(states[i], cfg, events[i]);
    CancelBars(states[i], cfg, maker, nonce);
    BarredUntil(cfg, events, states, i + 1, j, |states[i].settled|, (maker, nonce));
    var trade := states[j].log[states[j].settled[p] - 1];
    assert trade.makerOrder.NonceKey() in KeysOf(trade) && trade.takerOrder.NonceKey() in KeysOf(trade);
  }

  lemma CancelBars(w: World, cfg: Config, maker: Address, nonce: nat)
    ensures BarredSince(Next(w, cfg, CancelNonceEvent(maker, nonce)), |w.settled|, (maker, nonce))
  {
  }
}
