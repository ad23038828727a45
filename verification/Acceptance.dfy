/** How often an order can be accepted, and what the nonce table has to do with it. */
module Acceptance {
  import opened Types
  import opened MatchingEngines
  import opened Ledgers
  import opened Persistence
  import opened Gateways
  import opened GatewaySolvency
  import opened Recovery
  import opened Exchanges
  import opened System
  import opened Vouching

  /** The event submits an order with this hash, and the gateway takes it. */
  ghost predicate Accepts(w: World, cfg: Config, e: Event, hash: SignedOrder) {
    && e.SubmitEvent? && e.order.Hash() == hash && MakersKnown(w.g.engine, w.g.orderMap)
    && OrderSubmitted(w.g, cfg, e.order, e.orderType, e.now).1.Accepted?
  }

  /** The restart no longer knows this hash. */
  ghost predicate Forgets(w: World, cfg: Config, e: Event, hash: SignedOrder) {
    e.RestartEvent? && hash !in Restarted(w.g.db, cfg, e.now).acceptedNonces
  }

  // ----- One step -----

  lemma RecordedNotes(g: Gateway, cfg: Config, order: SignedOrder, orderId: OrderId, e: EngineState, r: MatchResult,
                      ledger: Balances, trades: seq<Trade>, now: nat)
    ensures var h, hash := Recorded(g, cfg, order, orderId, e, r, ledger, trades, now), order.Hash();
            && h.acceptedNonces == g.acceptedNonces + {hash}
            && h.db.nonces == if hash in g.db.nonces
                then g.db.nonces else g.db.nonces[hash := now + cfg.nonceExpirySecs]
  {
    hide OrdersMarked, FilledMakers, RowsOf, NewRows, Collateral, Tagged;
  }

  /** What a submission does to the noted hashes and their rows: nothing when it is refused. */
  lemma SubmitNotes(g: Gateway, cfg: Config, order: SignedOrder, orderType: OrderType, now: nat)
    requires MakersKnown(g.engine, g.orderMap)
    ensures var (h, r) := OrderSubmitted(g, cfg, order, orderType, now);
            if r.Refused? then h.acceptedNonces == g.acceptedNonces && h.db.nonces == g.db.nonces
            else
              && order.Hash() !in g.acceptedNonces && h.acceptedNonces == g.acceptedNonces + {order.Hash()}
              && h.db.nonces == if order.Hash() in g.db.nonces then g.db.nonces
                                else g.db.nonces[order.Hash() := now + cfg.nonceExpirySecs]
  {
    hide AfterSubmit, FillsApplied, TradesOf, ClientFills, AfterReserve, Released, Collateral, CanReserve, Recorded;
    if OrderSubmitted(g, cfg, order, orderType, now).1.Accepted? {
      var (e, r) := AfterSubmit(g.engine, order.side, order.price, order.quantity, orderType);
      FillsFromBook(g.engine, order.side, order.price, order.quantity, orderType, g.orderMap);
      var reserved := AfterReserve(g.ledger, order.maker, OwnCollateralToken(order),
                                   Collateral(order.side, order.quantity, order.price));
      RecordedNotes(g, cfg, order, g.engine.nextId, e, r, FillsApplied(reserved, cfg, order, g.orderMap, r.fills),
                    TradesOf(order, g.orderMap, r.fills, now), now);
    }
  }

  lemma CancelLeavesNonces(g: Gateway, nonce: nat, signer: Option<Address>, found: Option<OrderId>)
    requires signer.Some? ==> MayFind(g.orderNonceMap, nonce, found)
    ensures var h := CancelRequested(g, nonce, signer, found).0;
            h.acceptedNonces == g.acceptedNonces && h.db.nonces == g.db.nonces
  {
    hide AfterCancel, Released, RowsOf, OrdersMarked;
  }

  /** A hash once noted stays noted until a restart forgets it, and so does its row until a restart after
      its expiry. */
  lemma NotedStays(w: World, cfg: Config, e: Event, hash: SignedOrder)
    requires hash in w.g.acceptedNonces
    ensures !Forgets(w, cfg, e, hash) ==> hash in Next(w, cfg, e).g.acceptedNonces
    ensures hash in w.g.db.nonces && (e.RestartEvent? ==> e.now <= w.g.db.nonces[hash]) ==>
              && !Forgets(w, cfg, e, hash)
              && hash in Next(w, cfg, e).g.db.nonces && Next(w, cfg, e).g.db.nonces[hash] == w.g.db.nonces[hash]
  {
    hide OrderSubmitted, NewTrades, CancelRequested, DepositCredited, Restarted, SettledBatch, MarkStep;
    match e
    case SubmitEvent(order, orderType, now) =>
      if MakersKnown(w.g.engine, w.g.orderMap) { SubmitNotes(w.g, cfg, order, orderType, now); }
    case CancelEvent(nonce, signer, found) =>
      if signer.Some? ==> MayFind(w.g.orderNonceMap, nonce, found) { CancelLeavesNonces(w.g, nonce, signer, found); }
    case RestartEvent(now) =>
      RestartKeepsByExpiry(w.g.db, cfg, now);
      RememberedIff(w.g.db, cfg, now, hash);
    case _ => RowsUntouched(w, cfg, e);
  }

  // ----- Nonce rows over runs -----

  ghost predicate RowsNoted(w: World) {
    w.g.db.nonces.Keys <= w.g.acceptedNonces
  }

  lemma StepKeepsRowsNoted(w: World, cfg: Config, e: Event)
    requires RowsNoted(w)
    ensures RowsNoted(Next(w, cfg, e))
  {
    hide OrderSubmitted, NewTrades, CancelRequested, DepositCredited, Restarted, SettledBatch, MarkStep;
    match e
    case SubmitEvent(order, orderType, now) =>
      if MakersKnown(w.g.engine, w.g.orderMap) { SubmitNotes(w.g, cfg, order, orderType, now); }
    case CancelEvent(nonce, signer, found) =>
      if signer.Some? ==> MayFind(w.g.orderNonceMap, nonce, found) { CancelLeavesNonces(w.g, nonce, signer, found); }
    case RestartEvent(now) =>
      RestartKeepsByExpiry(w.g.db, cfg, now);
      var h := Restarted(w.g.db, cfg, now);
      forall hash | hash in h.db.nonces ensures hash in h.acceptedNonces { RememberedIff(w.g.db, cfg, now, hash); }
    case _ => RowsUntouched(w, cfg, e);
  }

  lemma {:induction false} RunKeepsRowsNoted(cfg: Config, events: seq<Event>, states: seq<World>, k: nat)
    requires IsRun(cfg, events, states) && k < |states|
    ensures RowsNoted(states[k])
  {
    hide Next, RowsNoted;
    if k == 0 {
      assert RowsNoted(START) by { StartIsNoted(); }
    } else {
      assert states[k] == Next(states[k - 1], cfg, events[k - 1]);
      RunKeepsRowsNoted(cfg, events, states, k - 1);
      StepKeepsRowsNoted(states[k - 1], cfg, events[k - 1]);
    }
  }

  lemma StartIsNoted()
    ensures RowsNoted(START)
  {
  }

  /** In every reachable state the gateway knows every hash that has a row, and an accepted submission gets
      a row that expires `nonceExpirySecs` after it. */
  lemma AcceptedIsStored(cfg: Config, w: World, e: Event, hash: SignedOrder)
    requires Reached(cfg, w)
    ensures w.g.db.nonces.Keys <= w.g.acceptedNonces
    ensures Accepts(w, cfg, e, hash) ==>
              var h := Next(w, cfg, e).g;
              && hash !in w.g.acceptedNonces && hash in h.acceptedNonces
              && hash in h.db.nonces && h.db.nonces[hash] == e.now + cfg.nonceExpirySecs
  {
    hide Next, OrderSubmitted, NewTrades;
    var events, states :| IsRun(cfg, events, states) && states[|events|] == w;
    RunKeepsRowsNoted(cfg, events, states, |events|);
    if Accepts(w, cfg, e, hash) {
      SubmitNotes(w.g, cfg, e.order, e.orderType, e.now);
      assert Next(w, cfg, e).g
          == OrderSubmitted(w.g, cfg, e.order, e.orderType, e.now).0 by { SubmitIsEvent(w, cfg, e); }
    }
  }

  lemma SubmitIsEvent(w: World, cfg: Config, e: Event)
    requires e.SubmitEvent? && MakersKnown(w.g.engine, w.g.orderMap)
    ensures Next(w, cfg, e).g == OrderSubmitted(w.g, cfg, e.order, e.orderType, e.now).0
  {
  }

  // ----- Acceptances over runs -----

  lemma {:induction false} NotedUntil(cfg: Config, events: seq<Event>, states: seq<World>, i: nat, j: nat,
                                      hash: SignedOrder)
    requires IsRun(cfg, events, states) && i <= j < |states| && hash in states[i].g.acceptedNonces
    requires forall k :: i <= k < j ==> !Forgets(states[k], cfg, events[k], hash)
    ensures hash in states[j].g.acceptedNonces
    decreases j - i
  {
    hide Next, Forgets;
    if i < j {
      assert states[i + 1] == Next(states[i], cfg, events[i]);
      NotedStays(states[i], cfg, events[i], hash);
      NotedUntil(cfg, events, states, i + 1, j, hash);
    }
  }

  lemma {:induction false} StoredUntil(cfg: Config, events: seq<Event>, states: seq<World>, i: nat, j: nat,
                                       hash: SignedOrder)
    requires IsRun(cfg, events, states) && i <= j < |states|
    requires hash in states[i].g.acceptedNonces && hash in states[i].g.db.nonces
    requires forall k :: i <= k < j && events[k].RestartEvent? ==> events[k].now <= states[i].g.db.nonces[hash]
    ensures hash in states[j].g.acceptedNonces
    decreases j - i
  {
    hide Next, Forgets;
    if i < j {
      assert states[i + 1] == Next(states[i], cfg, events[i]);
      NotedStays(states[i], cfg, events[i], hash);
      StoredUntil(cfg, events, states, i + 1, j, hash);
    }
  }

  /** In every run, between two acceptances of the same order lies a restart later than the first one's
      time plus `nonceExpirySecs`, and a restart that no longer knew the order. */
  lemma AcceptedOnceBetweenRestarts(cfg: Config, events: seq<Event>, states: seq<World>, i: nat, j: nat,
                                    hash: SignedOrder)
    requires IsRun(cfg, events, states) && i < j < |events|
    requires Accepts(states[i], cfg, events[i], hash) && Accepts(states[j], cfg, events[j], hash)
    ensures exists k :: i < k < j && events[k].RestartEvent? && events[k].now > events[i].now + cfg.nonceExpirySecs
    ensures exists k :: i < k < j && Forgets(states[k], cfg, events[k], hash)
  {
    hide Next, Forgets, Accepts, Reached;
    assert states[i + 1] == Next(states[i], cfg, events[i]);
    RunIsReached(cfg, events, states, i);
    RunIsReached(cfg, events, states, j);
    AcceptedIsStored(cfg, states[i], events[i], hash);
    AcceptedIsStored(cfg, states[j], events[j], hash);
    assert events[i].SubmitEvent? by { AcceptsSubmits(states[i], cfg, events[i], hash); }
    if forall k :: i < k < j && events[k].RestartEvent? ==> events[k].now <= events[i].now + cfg.nonceExpirySecs {
      StoredUntil(cfg, events, states, i + 1, j, hash);
    }
    if forall k :: i < k < j ==> !Forgets(states[k], cfg, events[k], hash) {
      NotedUntil(cfg, events, states, i + 1, j, hash);
    }
  }

  lemma AcceptsSubmits(w: World, cfg: Config, e: Event, hash: SignedOrder)
    requires Accepts(w, cfg, e, hash)
    ensures e.SubmitEvent?
  {
  }
}
