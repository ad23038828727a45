/** Solvency over submissions and cancels, the dust that rounding leaves behind, and exactly when a
    cancel is safe. */
module GatewaySolvency {
  import opened Types
  import opened Arithmetic
  import opened PriorityBook
  import opened MatchingEngines
  import opened EngineRuns
  import opened Ledgers
  import opened Persistence
  import opened Gateways
  import opened TradeLog
  import opened Solvency
  import opened GatewayInvariants

  ghost predicate Healthy(g: Gateway, cfg: Config) {
    && cfg.base != cfg.quote
    && Consistent(g, cfg)
    && Solvent(g.ledger, cfg, g.engine, g.orderMap)
    && BidsFit(Buy, g.engine.bids)
    && RowsFit(g.db.orders)
  }

  /** The products behind the rows with status resting fit in a word too. */
  ghost predicate RowsFit(orders: map<OrderId, OrderRow>) {
    forall id :: id in orders && orders[id].status.Resting? && orders[id].order.side.Buy?
      ==> Fits(orders[id].restingQuantity, orders[id].order.price)
  }

  // ----- The guards a caller can check before submitting -----

  predicate OnPair(cfg: Config, order: SignedOrder) {
    order.baseToken == cfg.base && order.quoteToken == cfg.quote
  }

  predicate SizeFits(order: SignedOrder) {
    order.side.Buy? ==> Fits(order.quantity, order.price)
  }

  /** Enough rests within the order's own price; a limit order needs no such guard. */
  predicate PriceHolds(e: EngineState, order: SignedOrder, orderType: OrderType) {
    orderType.Limit? || order.quantity <= Depth(order.side.Opposite(), e.On(order.side.Opposite()), Some(order.price))
  }

  // ----- Frames -----

  lemma {:induction false} LockedSameOwners(s: Side, f: seq<EngineOrder>, owners: map<OrderId, SignedOrder>,
                                            owners': map<OrderId, SignedOrder>, u: Address)
    requires forall o :: o in f ==> (o.id in owners <==> o.id in owners')
    requires forall o :: o in f && o.id in owners ==> owners[o.id] == owners'[o.id]
    ensures Locked(s, f, owners, u) == Locked(s, f, owners', u)
  {
    if f != [] {
      assert f == [f[0]] + f[1..] && f[0] in f;
      LockedSameOwners(s, f[1..], owners, owners', u);
    }
  }

  lemma {:induction false} LockedInsert(s: Side, f: seq<EngineOrder>, o: EngineOrder,
                                        owners: map<OrderId, SignedOrder>, u: Address)
    requires o.id in owners
    ensures Locked(s, Insert(s, f, o), owners, u)
            == Locked(s, f, owners, u) + (if owners[o.id].maker == u then Collateral(s, o.quantity, o.price) else 0)
  {
    hide Collateral;
    if f == [] || Better(s, o.price, f[0].price) {
      assert ([o] + f)[1..] == f;
    } else {
      LockedInsert(s, f[1..], o, owners, u);
      assert ([f[0]] + Insert(s, f[1..], o))[1..] == Insert(s, f[1..], o);
    }
  }

  lemma {:induction false} LockedRemove(s: Side, f: seq<EngineOrder>, o: EngineOrder,
                                        owners: map<OrderId, SignedOrder>, u: Address)
    requires DistinctIds(f) && o in f && o.id in owners
    ensures Locked(s, f, owners, u)
            == Locked(s, Remove(f, o.id), owners, u)
                + (if owners[o.id].maker == u then Collateral(s, o.quantity, o.price) else 0)
  {
    hide Collateral;
    if f[0] == o {
    } else {
      assert f == [f[0]] + f[1..];
      HeadDiffers(f[0], f[1..]);
      LockedRemove(s, f[1..], o, owners, u);
      assert ([f[0]] + Remove(f[1..], o.id))[1..] == Remove(f[1..], o.id);
    }
  }

  // ----- Submitting -----

  /** The trades a submission produces. */
  ghost function NewTrades(g: Gateway, cfg: Config, order: SignedOrder, orderType: OrderType, now: nat): seq<Trade>
    requires MakersKnown(g.engine, g.orderMap)
  {
    if OrderSubmitted(g, cfg, order, orderType, now).1.Refused? then [] else
      var r := AfterSubmit(g.engine, order.side, order.price, order.quantity, orderType).1;
      FillsFromBook(g.engine, order.side, order.price, order.quantity, orderType, g.orderMap);
      TradesOf(order, g.orderMap, r.fills, now)
  }

  /** Reserving the collateral puts the order under way. */
  lemma ReservePutsUnderway(g: Gateway, cfg: Config, order: SignedOrder)
    requires Healthy(g, cfg) && OnPair(cfg, order) && SizeFits(order)
    requires CanReserve(g.ledger, order.maker, OwnCollateralToken(order),
                        Collateral(order.side, order.quantity, order.price))
    ensures var opp := order.side.Opposite();
            var b := AfterReserve(g.ledger, order.maker, OwnCollateralToken(order),
                                  Collateral(order.side, order.quantity, order.price));
            && Underway(b, cfg, order, g.engine.On(opp), g.engine.On(order.side), g.orderMap, order.quantity)
            && forall u, t :: TotalsOf(b)(u, t) == TotalsOf(g.ledger)(u, t)
  {
    hide Locked, Collateral, WithBalance, BalanceOf, Consistent;
    var opp := order.side.Opposite();
    var b := AfterReserve(g.ledger, order.maker, OwnCollateralToken(order),
                          Collateral(order.side, order.quantity, order.price));
    assert cfg.Locks(opp) != cfg.Locks(order.side) && OwnCollateralToken(order) == cfg.Locks(order.side);
    forall u ensures BalanceOf(b, u, cfg.Locks(opp)).reserved >= Locked(opp, g.engine.On(opp), g.orderMap, u) {
      assert BalanceOf(g.ledger, u, cfg.Locks(opp)).reserved >= Locked(opp, g.engine.On(opp), g.orderMap, u);
    }
    forall u ensures BalanceOf(b, u, cfg.Locks(order.side)).reserved
                     >= Locked(order.side, g.engine.On(order.side), g.orderMap, u)
                        + (if u == order.maker then Collateral(order.side, order.quantity, order.price) else 0) {
      assert BalanceOf(g.ledger, u, cfg.Locks(order.side)).reserved
             >= Locked(order.side, g.engine.On(order.side), g.orderMap, u);
    }
  }

  /** Limit orders always keep to their price; market orders do when the depth is there. */
  lemma FillsKeepToPrice(e: EngineState, order: SignedOrder, orderType: OrderType)
    requires Sound(e) && PriceHolds(e, order, orderType) && !Rejects(e, order.side, order.quantity, orderType)
    ensures var opp := order.side.Opposite();
            forall fill :: fill in Match(opp, e.On(opp), LimitOf(orderType, order.price), e.nextId,
                                         order.quantity).fills
              ==> Acceptable(opp, Some(order.price), fill.price)
  {
    var opp := order.side.Opposite();
    if orderType.Limit? {
      MatchConsumesPrefix(opp, e.On(opp), Some(order.price), e.nextId, order.quantity);
    } else {
      SortedByPrice(opp, e.On(opp));
      MarketKeepsToPriceIff(opp, e.On(opp), order.price, e.nextId, order.quantity);
    }
  }

  /** A remainder that is paid for rests under cover. */
  lemma RestingIsSolvent(g: Gateway, cfg: Config, order: SignedOrder, orderType: OrderType, c: Balances, extra: nat)
    requires Consistent(g, cfg) && !Rejects(g.engine, order.side, order.quantity, orderType)
    requires var opp := order.side.Opposite();
             var m := Match(opp, g.engine.On(opp), LimitOf(orderType, order.price), g.engine.nextId, order.quantity);
             && Covers(c, cfg.Locks(opp), opp, m.book, g.orderMap, order.maker, 0)
             && Covers(c, cfg.Locks(order.side), order.side, g.engine.On(order.side), g.orderMap, order.maker, extra)
             && (orderType.Limit? && m.remaining > 0 ==> Collateral(order.side, m.remaining, order.price) <= extra)
    ensures var (e, r) := AfterSubmit(g.engine, order.side, order.price, order.quantity, orderType);
            Solvent(c, cfg, e, if r.resting then g.orderMap[g.engine.nextId := order] else g.orderMap)
  {
    hide Match, Insert, Locked, Collateral, Total, BalanceOf, Consistent;
    var opp, side, id := order.side.Opposite(), order.side, g.engine.nextId;
    var m := Match(opp, g.engine.On(opp), LimitOf(orderType, order.price), id, order.quantity);
    var (e, r) := AfterSubmit(g.engine, side, order.price, order.quantity, orderType);
    var owners := if r.resting then g.orderMap[id := order] else g.orderMap;
    assert e.On(opp) == m.book;
    forall u ensures BalanceOf(c, u, cfg.Locks(opp)).reserved >= Locked(opp, e.On(opp), owners, u)
                     && BalanceOf(c, u, cfg.Locks(side)).reserved >= Locked(side, e.On(side), owners, u) {
      RestingLocks(g, cfg, order, orderType, u);
    }
  }

  /** What a submission adds to what its own side locks: the collateral of a remainder that rests. */
  lemma RestingLocks(g: Gateway, cfg: Config, order: SignedOrder, orderType: OrderType, u: Address)
    requires Consistent(g, cfg) && !Rejects(g.engine, order.side, order.quantity, orderType)
    ensures var opp := order.side.Opposite();
            var m := Match(opp, g.engine.On(opp), LimitOf(orderType, order.price), g.engine.nextId, order.quantity);
            var (e, r) := AfterSubmit(g.engine, order.side, order.price, order.quantity, orderType);
            var owners := if r.resting then g.orderMap[g.engine.nextId := order] else g.orderMap;
            && Locked(opp, e.On(opp), owners, u) == Locked(opp, m.book, g.orderMap, u)
            && Locked(order.side, e.On(order.side), owners, u)
               == Locked(order.side, g.engine.On(order.side), g.orderMap, u)
                  + (if r.resting && u == order.maker then Collateral(order.side, m.remaining, order.price) else 0)
  {
    hide Match, Insert, Locked, Collateral, Total, Consistent;
    var opp, id := order.side.Opposite(), g.engine.nextId;
    var m := Match(opp, g.engine.On(opp), LimitOf(orderType, order.price), id, order.quantity);
    var o := EngineOrder(id, order.side, order.price, m.remaining);
    var owners := g.orderMap[id := order];
    MatchKeeps(opp, g.engine.On(opp), LimitOf(orderType, order.price), id, order.quantity);
    OldIds(g, cfg, m.book, opp);
    OldIds(g, cfg, g.engine.On(order.side), order.side);
    LockedSameOwners(opp, m.book, g.orderMap, owners, u);
    LockedSameOwners(order.side, g.engine.On(order.side), g.orderMap, owners, u);
    LockedInsert(order.side, g.engine.On(order.side), o, owners, u);
  }

  /** An order under way ends with its remainder resting under cover. */
  lemma RestingIsCovered(g: Gateway, cfg: Config, order: SignedOrder, orderType: OrderType, c: Balances)
    requires Consistent(g, cfg) && BidsFit(Buy, g.engine.bids)
    requires !Rejects(g.engine, order.side, order.quantity, orderType)
    requires var opp := order.side.Opposite();
             var m := Match(opp, g.engine.On(opp), LimitOf(orderType, order.price), g.engine.nextId, order.quantity);
             Underway(c, cfg, order, m.book, g.engine.On(order.side), g.orderMap, m.remaining)
    ensures var (e, r) := AfterSubmit(g.engine, order.side, order.price, order.quantity, orderType);
            && Solvent(c, cfg, e, if r.resting then g.orderMap[g.engine.nextId := order] else g.orderMap)
            && BidsFit(Buy, e.bids)
  {
    hide Match, Insert, Locked, Collateral, Total, BalanceOf, Consistent, Covers, Solvent;
    var opp, id := order.side.Opposite(), g.engine.nextId;
    var m := Match(opp, g.engine.On(opp), LimitOf(orderType, order.price), id, order.quantity);
    RestingIsSolvent(g, cfg, order, orderType, c, Collateral(order.side, m.remaining, order.price));
    InsertContent(order.side, g.engine.On(order.side), EngineOrder(id, order.side, order.price, m.remaining));
  }

  lemma OldIds(g: Gateway, cfg: Config, f: seq<EngineOrder>, s: Side)
    requires Consistent(g, cfg) && Ids(f) <= Ids(g.engine.On(s))
    ensures forall o :: o in f ==> o.id != g.engine.nextId
  {
    forall o | o in f ensures o.id != g.engine.nextId {
      assert o.id in Ids(f) && o.id in g.engine.AllIds();
    }
  }

  /** Solvency of reservations: a submission within the guards leaves every user's reserves covering
      that user's orders, moves holdings by exactly its trades, and each of those trades is backed by
      what its parties hold when it is made. Market sells need no price guard. */
  lemma SubmitKeepsHealthy(g: Gateway, cfg: Config, order: SignedOrder, orderType: OrderType, now: nat)
    requires Healthy(g, cfg) && OnPair(cfg, order) && SizeFits(order)
    requires order.side.Sell? || PriceHolds(g.engine, order, orderType)
    ensures MakersKnown(g.engine, g.orderMap)
    ensures Healthy(OrderSubmitted(g, cfg, order, orderType, now).0, cfg)
    ensures var trades := NewTrades(g, cfg, order, orderType, now);
            && (forall u, t :: TotalsOf(OrderSubmitted(g, cfg, order, orderType, now).0.ledger)(u, t)
                               == TotalsOf(g.ledger)(u, t) + Net(cfg.base, cfg.quote, trades, u, t))
            && Backed(cfg.base, cfg.quote, TotalsOf(g.ledger), trades)
  {
    hide AfterSubmit, Consistent, FillsApplied, TradesOf, AfterReserve, Released, Collateral, Refusal, Locked,
      ClientFills, OrderFillSaved, BalanceOf;
    SubmitKeepsConsistent(g, cfg, order, orderType, now);
    var g' := OrderSubmitted(g, cfg, order, orderType, now).0;
    var token, required := OwnCollateralToken(order), Collateral(order.side, order.quantity, order.price);
    if OrderSubmitted(g, cfg, order, orderType, now).1.Accepted? {
      AcceptedIsSolvent(g, cfg, order, orderType, now);
      AcceptedRowsFit(g, cfg, order, orderType, now);
    } else {
      RefusedChangesNothing(g, cfg, order, orderType, now);
      SolventSame(g, cfg, g');
    }
  }

  lemma AcceptedRowsFit(g: Gateway, cfg: Config, order: SignedOrder, orderType: OrderType, now: nat)
    requires RowsFit(g.db.orders) && SizeFits(order) && MakersKnown(g.engine, g.orderMap)
    requires OrderSubmitted(g, cfg, order, orderType, now).1.Accepted?
    ensures RowsFit(OrderSubmitted(g, cfg, order, orderType, now).0.db.orders)
  {
    hide AfterSubmit, FillsApplied, TradesOf, AfterReserve, Released, Collateral, Refusal, ClientFills, FilledMakers,
      RowsOf, TradesInserted, Rejects, CanReserve;
    var r := AfterSubmit(g.engine, order.side, order.price, order.quantity, orderType).1;
    FillsFromBook(g.engine, order.side, order.price, order.quantity, orderType, g.orderMap);
    RemainderIsPart(g.engine, order.side, order.price, order.quantity, orderType);
    if order.side.Buy? && r.resting {
      FitsSmaller(order.quantity, order.price, r.restingQty, order.price);
    }
  }

  lemma RemainderIsPart(e: EngineState, side: Side, price: nat, quantity: nat, orderType: OrderType)
    ensures AfterSubmit(e, side, price, quantity, orderType).1.restingQty <= quantity
  {
    var opp := side.Opposite();
    MatchAccounts(opp, e.On(opp), LimitOf(orderType, price), e.nextId, quantity);
  }

  /** A refused submission changes no balance and no order on the book. In particular a market order
      that cannot be filled completely leaves book and ledger as they were. */
  lemma RefusedChangesNothing(g: Gateway, cfg: Config, order: SignedOrder, orderType: OrderType, now: nat)
    requires MakersKnown(g.engine, g.orderMap)
    requires OrderSubmitted(g, cfg, order, orderType, now).1.Refused?
    ensures var g' := OrderSubmitted(g, cfg, order, orderType, now).0;
            && SameBalances(g'.ledger, g.ledger)
            && g'.engine.bids == g.engine.bids && g'.engine.asks == g.engine.asks
            && g' == g.(engine := g'.engine, ledger := g'.ledger)
  {
    hide AfterSubmit, FillsApplied, TradesOf, Collateral, Refusal, ClientFills, Recorded;
    var token, required := OwnCollateralToken(order), Collateral(order.side, order.quantity, order.price);
    if CanReserve(g.ledger, order.maker, token, required) {
      ReserveThenRelease(g.ledger, order.maker, token, required);
      if orderType.Market? && AfterSubmit(g.engine, order.side, order.price, order.quantity, orderType).1.fills == [] {
        NoFillNoChange(g.engine, order.side, order.price, order.quantity);
      }
    }
  }

  lemma SolventSame(g: Gateway, cfg: Config, h: Gateway)
    requires Solvent(g.ledger, cfg, g.engine, g.orderMap) && BidsFit(Buy, g.engine.bids)
    requires SameBalances(h.ledger, g.ledger) && h.orderMap == g.orderMap
    requires h.engine.bids == g.engine.bids && h.engine.asks == g.engine.asks
    ensures Solvent(h.ledger, cfg, h.engine, h.orderMap) && BidsFit(Buy, h.engine.bids)
    ensures forall u, t :: TotalsOf(h.ledger)(u, t) == TotalsOf(g.ledger)(u, t)
  {
    forall u, s ensures BalanceOf(h.ledger, u, cfg.Locks(s)).reserved >= Locked(s, h.engine.On(s), h.orderMap, u) {
      assert BalanceOf(g.ledger, u, cfg.Locks(s)).reserved >= Locked(s, g.engine.On(s), g.orderMap, u);
    }
  }

  lemma AcceptedIsSolvent(g: Gateway, cfg: Config, order: SignedOrder, orderType: OrderType, now: nat)
    requires Healthy(g, cfg) && OnPair(cfg, order) && SizeFits(order) && MakersKnown(g.engine, g.orderMap)
    requires order.side.Sell? || PriceHolds(g.engine, order, orderType)
    ensures OrderSubmitted(g, cfg, order, orderType, now).1.Accepted? ==>
            var g' := OrderSubmitted(g, cfg, order, orderType, now).0;
            var trades := NewTrades(g, cfg, order, orderType, now);
            && Solvent(g'.ledger, cfg, g'.engine, g'.orderMap) && BidsFit(Buy, g'.engine.bids)
            && (forall u, t :: TotalsOf(g'.ledger)(u, t)
                  == TotalsOf(g.ledger)(u, t) + Net(cfg.base, cfg.quote, trades, u, t))
            && Backed(cfg.base, cfg.quote, TotalsOf(g.ledger), trades)
  {
    hide Match, Consistent, FillsApplied, TradesOf, AfterReserve, Released, Collateral, Refusal, ClientFills, Insert,
      Total, Underway, Solvent, OrderFillSaved, BalanceOf, Backed, CanReserve, Sound, Depth;
    if OrderSubmitted(g, cfg, order, orderType, now).1.Refused? { return; }
    var opp, id := order.side.Opposite(), g.engine.nextId;
    var b := AfterReserve(g.ledger, order.maker, OwnCollateralToken(order),
                          Collateral(order.side, order.quantity, order.price));
    var limit := LimitOf(orderType, order.price);
    var m := Match(opp, g.engine.On(opp), limit, id, order.quantity);
    ReservePutsUnderway(g, cfg, order);
    ConsistentKnowsMakers(g, cfg);
    assert Sound(g.engine) by { ConsistentSound(g, cfg); }
    if order.side.Buy? {
      FillsKeepToPrice(g.engine, order, orderType);
    }
    MatchSettles(b, cfg, order, g.engine.On(opp), g.engine.On(order.side), g.orderMap, limit, id, order.quantity, now);
    var c := FillsApplied(b, cfg, order, g.orderMap, m.fills);
    RestingIsCovered(g, cfg, order, orderType, c);
    BackedMonotone(cfg.base, cfg.quote, TotalsOf(b), TotalsOf(g.ledger), TradesOf(order, g.orderMap, m.fills, now));
  }

  lemma ConsistentSound(g: Gateway, cfg: Config)
    requires Consistent(g, cfg)
    ensures Sound(g.engine)
  {
  }

  // ----- Rounding dust -----

  lemma {:induction false} DustOfFills(order: SignedOrder, fills: seq<EngineFill>, q: nat)
    requires order.side.Buy? && Fits(q, order.price) && FillQty(fills) <= q
    requires forall fill :: fill in fills ==> fill.price <= order.price
    ensures var used := Paid(fills) + Surpluses(order, fills) + Quote(q - FillQty(fills), order.price);
            used <= Quote(q, order.price) <= used + 2 * |fills|
  {
    hide Quote;
    if fills != [] {
      var fill := fills[0];
      assert fill in fills && forall x :: x in fills[1..] ==> x in fills;
      TakerSplit(q, order.price, fill.quantity, fill.price);
      FitsSmaller(q, order.price, q - fill.quantity, order.price);
      assert Surplus(order, fill) == Quote(fill.quantity, order.price - fill.price) by { NoSurplus(fill.quantity); }
      DustOfFills(order, fills[1..], q - fill.quantity);
    }
  }

  lemma NoSurplus(q: nat)
    ensures Quote(q, 0) == 0
  {
    assert q * 0 == 0;
  }

  /** What a limit buy with n fills leaves in reserve beyond the collateral recorded for its
      remainder: between 0 and 2n units, never negative. */
  lemma DustIsBounded(g: Gateway, cfg: Config, order: SignedOrder, now: nat)
    requires Healthy(g, cfg) && OnPair(cfg, order) && SizeFits(order) && order.side.Buy?
    requires MakersKnown(g.engine, g.orderMap)
    ensures OrderSubmitted(g, cfg, order, Limit, now).1.Accepted? ==>
            var g' := OrderSubmitted(g, cfg, order, Limit, now).0;
            var r := AfterSubmit(g.engine, order.side, order.price, order.quantity, Limit).1;
            var recorded := if r.resting then g'.orderNonceMap[g.engine.nextId].collateral else 0;
            var kept := BalanceOf(g'.ledger, order.maker, cfg.quote).reserved
                        - BalanceOf(g.ledger, order.maker, cfg.quote).reserved;
            && kept == Quote(order.quantity, order.price) - Paid(r.fills) - Surpluses(order, r.fills)
            && recorded <= kept <= recorded + 2 * |r.fills|
  {
    hide Match, Consistent, FillsApplied, TradesOf, Refusal, ClientFills, Insert, Total, Underway, Solvent,
      OrderFillSaved, BalanceOf, Backed, Sound, Depth, Quote, Paid, Surpluses, WithBalance, Net;
    if OrderSubmitted(g, cfg, order, Limit, now).1.Refused? { return; }
    var id := g.engine.nextId;
    var b := AfterReserve(g.ledger, order.maker, cfg.quote, Quote(order.quantity, order.price));
    var m := Match(Sell, g.engine.asks, Some(order.price), id, order.quantity);
    ReservePutsUnderway(g, cfg, order);
    ConsistentKnowsMakers(g, cfg);
    ConsistentSound(g, cfg);
    FillsKeepToPrice(g.engine, order, Limit);
    MatchSettles(b, cfg, order, g.engine.asks, g.engine.bids, g.orderMap, Some(order.price), id, order.quantity, now);
    MatchAccounts(Sell, g.engine.asks, Some(order.price), id, order.quantity);
    DustOfFills(order, m.fills, order.quantity);
    if m.remaining == 0 {
      NoQuantity(order.price);
    }
  }

  lemma NoQuantity(p: nat)
    ensures Quote(0, p) == 0
  {
    assert 0 * p == 0;
  }

  // ----- Cancelling -----

  /** The order still rests with the quantity it came to rest with. */
  ghost predicate UnfilledSinceRest(g: Gateway, s: Side, o: EngineOrder) {
    o in g.engine.On(s) && o.id in g.db.orders && g.db.orders[o.id].restingQuantity == o.quantity
  }

  ghost function CancelByMaker(g: Gateway, id: OrderId): Gateway
    requires id in g.orderNonceMap
  {
    CancelRequested(g, g.orderNonceMap[id].nonce, Some(g.orderNonceMap[id].maker), Some(id)).0
  }

  /** The collateral a cancel releases is fixed when the order comes to rest. It is what the order
      still locks exactly when nothing was filled since, or, for a bid, when the value of what was
      filled disappears in the rounding of what is left. */
  lemma CancelReleasesExactlyIff(g: Gateway, cfg: Config, s: Side, o: EngineOrder)
    requires Healthy(g, cfg) && o in g.engine.On(s)
    ensures o.id in g.orderNonceMap && o.id in g.db.orders && o.quantity <= g.db.orders[o.id].restingQuantity
    ensures var filled := g.db.orders[o.id].restingQuantity - o.quantity;
            g.orderNonceMap[o.id].collateral == Collateral(s, o.quantity, o.price)
            <==> if s.Sell? then filled == 0 else o.quantity * o.price % E18 + filled * o.price < E18
  {
    assert Entered(g, cfg, s, o);
    if s.Buy? {
      var resting := g.db.orders[o.id].restingQuantity;
      assert Fits(resting, o.price);
      FitsSmaller(resting, o.price, o.quantity, o.price);
      assert resting * o.price == o.quantity * o.price + (resting - o.quantity) * o.price;
      RoundsAway(o.quantity * o.price, (resting - o.quantity) * o.price);
    }
  }

  lemma RoundsAway(x: nat, y: nat)
    ensures (x + y) / E18 == x / E18 <==> x % E18 + y < E18
  {
  }

  /** What a cancel releases beyond the order's own collateral is spare in its maker's reserve. */
  ghost predicate ExcessIsSpare(g: Gateway, cfg: Config, s: Side, o: EngineOrder)
    requires o.id in g.orderNonceMap
  {
    var entry := g.orderNonceMap[o.id];
    entry.collateral - Collateral(s, o.quantity, o.price)
    <= BalanceOf(g.ledger, entry.maker, cfg.Locks(s)).reserved - Locked(s, g.engine.On(s), g.orderMap, entry.maker)
  }

  /** Exactly when a cancel is safe: the subtraction does not wrap and every user stays covered if and
      only if what is released beyond the order's own collateral is spare in its maker's reserve. */
  lemma CancelSafeIff(g: Gateway, cfg: Config, s: Side, o: EngineOrder)
    requires Healthy(g, cfg) && o in g.engine.On(s)
    ensures o.id in g.orderNonceMap && o.id in g.engine.AllIds()
    ensures var entry, g' := g.orderNonceMap[o.id], CancelByMaker(g, o.id);
            var reserved := BalanceOf(g.ledger, entry.maker, cfg.Locks(s)).reserved;
            (entry.collateral <= reserved && Solvent(g'.ledger, cfg, g'.engine, g'.orderMap))
            <==> ExcessIsSpare(g, cfg, s, o)
  {
    hide Remove, Locked, WithBalance, BalanceOf, Collateral, Sound, RowsOf, OrderCancelled;
    assert Entered(g, cfg, s, o);
    var entry, g' := g.orderNonceMap[o.id], CancelByMaker(g, o.id);
    var opp := s.Opposite();
    ConsistentSound(g, cfg);
    SoundDistinct(g.engine);
    InAllIds(g.engine, s, o);
    CancelLocks(g, cfg, s, o);
    var reserved := BalanceOf(g.ledger, entry.maker, cfg.Locks(s)).reserved;
    if entry.collateral <= reserved {
      forall u, s' ensures BalanceOf(g'.ledger, u, cfg.Locks(s')).reserved
                           == BalanceOf(g.ledger, u, cfg.Locks(s')).reserved
                              - (if u == entry.maker && s' == s then entry.collateral else 0) {
        assert s' != s ==> cfg.Locks(s') != cfg.Locks(s);
      }
    }
    if entry.collateral <= reserved && Solvent(g'.ledger, cfg, g'.engine, g'.orderMap) {
      assert BalanceOf(g'.ledger, entry.maker, cfg.Locks(s)).reserved
             >= Locked(s, g'.engine.On(s), g'.orderMap, entry.maker);
    }
    if entry.collateral - Collateral(s, o.quantity, o.price)
        <= reserved - Locked(s, g.engine.On(s), g.orderMap, entry.maker) {
      forall u, s' ensures BalanceOf(g'.ledger, u, cfg.Locks(s')).reserved
                           >= Locked(s', g'.engine.On(s'), g'.orderMap, u) {
        assert BalanceOf(g.ledger, u, cfg.Locks(s')).reserved >= Locked(s', g.engine.On(s'), g.orderMap, u);
      }
    }
  }

  lemma InAllIds(e: EngineState, s: Side, o: EngineOrder)
    requires o in e.On(s)
    ensures o.id in e.AllIds()
  {
  }

  /** A cancel takes the order's own collateral out of what its maker has locked, and nothing else. */
  lemma CancelLocks(g: Gateway, cfg: Config, s: Side, o: EngineOrder)
    requires Consistent(g, cfg) && o in g.engine.On(s)
    ensures o.id in g.orderNonceMap && o.id in g.engine.AllIds()
    ensures var entry, g' := g.orderNonceMap[o.id], CancelByMaker(g, o.id);
            forall u, s' :: Locked(s', g.engine.On(s'), g.orderMap, u)
                            == Locked(s', g'.engine.On(s'), g'.orderMap, u)
                               + (if u == entry.maker && s' == s then Collateral(s, o.quantity, o.price) else 0)
  {
    hide Collateral, Sound, WithBalance, BalanceOf, RowsOf, OrderCancelled, Locked, Remove;
    assert Entered(g, cfg, s, o);
    ConsistentSound(g, cfg);
    SoundDistinct(g.engine);
    InAllIds(g.engine, s, o);
    var g' := CancelByMaker(g, o.id);
    forall u, s' ensures Locked(s', g.engine.On(s'), g.orderMap, u)
                         == Locked(s', g'.engine.On(s'), g'.orderMap, u)
                            + (if u == g.orderNonceMap[o.id].maker && s' == s
                               then Collateral(s, o.quantity, o.price) else 0)
    {
      forall x | x in g'.engine.On(s') ensures x.id != o.id { StaysAfterCancel(g.engine, o.id, s', x); }
      LockedSameOwners(s', g'.engine.On(s'), g.orderMap, g'.orderMap, u);
      if s' == s {
        LockedRemove(s, g.engine.On(s), o, g.orderMap, u);
      } else {
        OtherSideKeeps(g.engine, s, o);
      }
    }
  }

  lemma OtherSideKeeps(e: EngineState, s: Side, o: EngineOrder)
    requires Sound(e) && o in e.On(s)
    ensures AfterCancel(e, o.id).On(s.Opposite()) == e.On(s.Opposite())
  {
    assert o.id in Ids(e.On(s));
    RemoveAbsent(e.On(s.Opposite()), o.id);
  }

  /** A safe cancel keeps everything covered, moves no holdings and gives its maker exactly the
      recorded collateral back. */
  lemma CancelKeepsHealthy(g: Gateway, cfg: Config, s: Side, o: EngineOrder)
    requires Healthy(g, cfg) && o in g.engine.On(s)
    requires o.id in g.orderNonceMap && ExcessIsSpare(g, cfg, s, o)
    ensures Healthy(CancelByMaker(g, o.id), cfg)
    ensures forall u, t :: TotalsOf(CancelByMaker(g, o.id).ledger)(u, t) == TotalsOf(g.ledger)(u, t)
    ensures var entry := g.orderNonceMap[o.id];
            BalanceOf(CancelByMaker(g, o.id).ledger, entry.maker, cfg.Locks(s)).available
            == BalanceOf(g.ledger, entry.maker, cfg.Locks(s)).available + entry.collateral
  {
    hide Collateral, Sound, CancelRequested, Locked, Solvent, Consistent, BalanceOf, BidsFit, ExcessIsSpare, RowsFit;
    CancelSafeIff(g, cfg, s, o);
    assert g.orderNonceMap[o.id].token == cfg.Locks(s) by { EnteredToken(g, cfg, s, o); }
    CancelKeepsConsistent(g, cfg, g.orderNonceMap[o.id].nonce, Some(g.orderNonceMap[o.id].maker), Some(o.id));
    CancelKeepsFit(g, cfg, o.id);
    forall u, t ensures TotalsOf(CancelByMaker(g, o.id).ledger)(u, t) == TotalsOf(g.ledger)(u, t) {
      CancelledBalance(g, o.id, u, t);
    }
    CancelledBalance(g, o.id, g.orderNonceMap[o.id].maker, cfg.Locks(s));
  }

  /** An order that was not filled since it came to rest can always be cancelled safely, and gives
      back exactly what it locks. */
  lemma UnfilledIsSpare(g: Gateway, cfg: Config, s: Side, o: EngineOrder)
    requires Healthy(g, cfg) && UnfilledSinceRest(g, s, o)
    ensures o.id in g.orderNonceMap && ExcessIsSpare(g, cfg, s, o)
    ensures g.orderNonceMap[o.id].collateral == Collateral(s, o.quantity, o.price)
  {
    hide Collateral, Sound, Locked, BalanceOf;
    assert Entered(g, cfg, s, o);
    SolventAt(g, cfg, g.orderNonceMap[o.id].maker, s);
  }

  lemma EnteredToken(g: Gateway, cfg: Config, s: Side, o: EngineOrder)
    requires Consistent(g, cfg) && o in g.engine.On(s)
    ensures o.id in g.orderNonceMap && g.orderNonceMap[o.id].token == cfg.Locks(s)
  {
    assert Entered(g, cfg, s, o);
  }

  lemma CancelKeepsFit(g: Gateway, cfg: Config, id: OrderId)
    requires Consistent(g, cfg) && id in g.orderNonceMap && BidsFit(Buy, g.engine.bids) && RowsFit(g.db.orders)
    ensures BidsFit(Buy, CancelByMaker(g, id).engine.bids) && RowsFit(CancelByMaker(g, id).db.orders)
  {
    hide Entered, Mirrored, Sound, RowsOf, WithBalance, BalanceOf;
    forall x | x in CancelByMaker(g, id).engine.bids ensures Fits(x.quantity, x.price) {
      RemoveKeeps(Buy, g.engine.bids, id);
    }
  }

  lemma CancelledBalance(g: Gateway, id: OrderId, u: Address, t: Address)
    requires id in g.orderNonceMap && id in g.engine.AllIds()
    requires var entry := g.orderNonceMap[id];
             entry.collateral <= BalanceOf(g.ledger, entry.maker, entry.token).reserved
    ensures var entry, h := g.orderNonceMap[id], CancelByMaker(g, id).ledger;
            && BalanceOf(h, u, t).Total() == BalanceOf(g.ledger, u, t).Total()
            && BalanceOf(h, u, t).available == BalanceOf(g.ledger, u, t).available
                 + (if u == entry.maker && t == entry.token then entry.collateral else 0)
  {
    hide WithBalance, BalanceOf, OrderCancelled, RowsOf, AfterCancel;
  }

  lemma SolventAt(g: Gateway, cfg: Config, u: Address, s: Side)
    requires Solvent(g.ledger, cfg, g.engine, g.orderMap)
    ensures BalanceOf(g.ledger, u, cfg.Locks(s)).reserved >= Locked(s, g.engine.On(s), g.orderMap, u)
  {
  }
}
