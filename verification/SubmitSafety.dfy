/** Submissions outside the guards: orders that walk the book whatever their price, and orders that
    reserve a token of their own. Exactly when the ledger stands them. */
module SubmitSafety {
  import opened Types
  import opened Arithmetic
  import opened PriorityBook
  import opened MatchingEngines
  import opened Ledgers
  import opened Persistence
  import opened Gateways
  import opened Solvency
  import opened GatewayInvariants
  import opened GatewaySolvency

  /** What the fills take out of the taker's reserve. */
  ghost function Cost(order: SignedOrder, fills: seq<EngineFill>): nat {
    if order.side.Buy? then Paid(fills) + Surpluses(order, fills) else FillQty(fills)
  }

  ghost function CostOf(order: SignedOrder, fill: EngineFill): nat {
    if order.side.Buy? then Quote(fill.quantity, fill.price) + Surplus(order, fill) else fill.quantity
  }

  lemma CostCons(order: SignedOrder, fill: EngineFill, rest: seq<EngineFill>)
    ensures Cost(order, [fill] + rest) == CostOf(order, fill) + Cost(order, rest)
  {
    assert ([fill] + rest)[1..] == rest;
  }

  lemma NoCost(order: SignedOrder)
    ensures Cost(order, []) == 0 && FillQty([]) == 0
  {
  }

  /** The taker has `budget` in reserve beyond its own orders, and the opposite side is covered. */
  ghost predicate Funded(b: Balances, cfg: Config, order: SignedOrder, f: seq<EngineOrder>, own: seq<EngineOrder>,
                         owners: map<OrderId, SignedOrder>, budget: nat)
  {
    var opp := order.side.Opposite();
    && cfg.base != cfg.quote
    && Covers(b, cfg.Locks(opp), opp, f, owners, order.maker, 0)
    && Covers(b, cfg.Locks(order.side), order.side, own, owners, order.maker, budget)
    && BidsFit(opp, f)
  }

  lemma FundedCanSettle(b: Balances, cfg: Config, order: SignedOrder, f: seq<EngineOrder>, own: seq<EngineOrder>,
                        owners: map<OrderId, SignedOrder>, budget: nat, fill: EngineFill)
    requires Funded(b, cfg, order, f, own, owners, budget)
    requires f != [] && f[0].id in owners && fill.price == f[0].price && fill.quantity <= f[0].quantity
    requires CostOf(order, fill) <= budget
    ensures var m := owners[f[0].id].maker;
            CanSettle(b, Seller(order, m), Buyer(order, m), cfg.base, cfg.quote, fill.quantity,
                      Quote(fill.quantity, fill.price))
    ensures order.side.Buy? ==>
              Quote(fill.quantity, fill.price) + Surplus(order, fill) <= BalanceOf(b, order.maker, cfg.quote).reserved
  {
    hide Quote, Locked, BalanceOf, AfterTake, Surplus;
    LockedAfterTake(order.side.Opposite(), f, owners, fill.quantity, owners[f[0].id].maker);
    assert BalanceOf(b, order.maker, cfg.Locks(order.side)).reserved >= budget;
  }

  lemma FundedFill(b: Balances, cfg: Config, order: SignedOrder, f: seq<EngineOrder>, own: seq<EngineOrder>,
                   owners: map<OrderId, SignedOrder>, budget: nat, fill: EngineFill)
    requires Funded(b, cfg, order, f, own, owners, budget)
    requires f != [] && f[0].id in owners && fill.price == f[0].price && fill.quantity <= f[0].quantity
    requires CostOf(order, fill) <= budget
    ensures var c, token := FillApplied(b, cfg, order, owners[f[0].id].maker, fill), cfg.Locks(order.side);
            && Funded(c, cfg, order, AfterTake(f, fill.quantity), own, owners, budget - CostOf(order, fill))
            && BalanceOf(c, order.maker, token).reserved
               == BalanceOf(b, order.maker, token).reserved - CostOf(order, fill)
  {
    hide Quote, FillApplied, Locked, WithBalance, BalanceOf, AfterTake;
    var m, opp, t := owners[f[0].id].maker, order.side.Opposite(), fill.quantity;
    var c := FillApplied(b, cfg, order, m, fill);
    FundedCanSettle(b, cfg, order, f, own, owners, budget, fill);
    BidsFitAfterTake(opp, f, t);
    forall u ensures BalanceOf(c, u, cfg.Locks(opp)).reserved >= Locked(opp, AfterTake(f, t), owners, u) {
      FillEffect(b, cfg, order, m, fill, u, cfg.Locks(opp));
      LockedAfterTake(opp, f, owners, t, u);
    }
    forall u ensures BalanceOf(c, u, cfg.Locks(order.side)).reserved
                     == BalanceOf(b, u, cfg.Locks(order.side)).reserved
                        - (if u == order.maker then CostOf(order, fill) else 0) {
      FillEffect(b, cfg, order, m, fill, u, cfg.Locks(order.side));
    }
  }

  /** Fills that stay within the budget leave the rest of it, to the unit. */
  lemma {:induction false} FundedMatch(b: Balances, cfg: Config, order: SignedOrder, f: seq<EngineOrder>,
                                       own: seq<EngineOrder>, owners: map<OrderId, SignedOrder>, limit: Option<nat>,
                                       taker: OrderId, r: nat, budget: nat)
    requires Funded(b, cfg, order, f, own, owners, budget) && OwnersKnown(order.side.Opposite(), f, owners)
    requires Cost(order, Match(order.side.Opposite(), f, limit, taker, r).fills) <= budget
    ensures var m, token := Match(order.side.Opposite(), f, limit, taker, r), cfg.Locks(order.side);
            && MakersOnRecord(owners, m.fills)
            && Funded(FillsApplied(b, cfg, order, owners, m.fills), cfg, order, m.book, own, owners,
                      budget - Cost(order, m.fills))
            && BalanceOf(FillsApplied(b, cfg, order, owners, m.fills), order.maker, token).reserved
               == BalanceOf(b, order.maker, token).reserved - Cost(order, m.fills)
    decreases |f|, r
  {
    hide Match, Funded, FillApplied, FillsApplied, TradesOf, OwnersKnown, BalanceOf, CostOf, Cost, AfterTake,
      KeepsToPrice, MakersOnRecord;
    var opp := order.side.Opposite();
    MatchIdle(opp, f, limit, taker, r);
    if r > 0 && f != [] && Acceptable(opp, limit, f[0].price) {
      var fill := FillTurn(order, f, owners, limit, taker, r);
      var left, t := AfterTake(f, fill.quantity), fill.quantity;
      var rest := Match(opp, left, limit, taker, r - t).fills;
      CostCons(order, fill, rest);
      FundedFill(b, cfg, order, f, own, owners, budget, fill);
      FundedMatch(FillApplied(b, cfg, order, owners[f[0].id].maker, fill), cfg, order, left, own, owners, limit, taker,
                  r - t, budget - CostOf(order, fill));
      FillsCons(b, cfg, order, owners, fill, rest, 0);
    } else {
      NoFills(b, cfg, order, owners, 0);
      NoCost(order);
    }
  }

  /** What the order reserves of the token that its side of the configured pair settles in: nothing when
      it names another one. */
  function Grant(cfg: Config, order: SignedOrder): nat {
    if OwnCollateralToken(order) == cfg.Locks(order.side)
        then Collateral(order.side, order.quantity, order.price) else 0
  }

  /** What an accepted order leaves: the book after its walk, and the ledger with its fills applied. */
  lemma AcceptedLeaves(g: Gateway, cfg: Config, order: SignedOrder, orderType: OrderType, now: nat)
    requires MakersKnown(g.engine, g.orderMap)
    ensures OrderSubmitted(g, cfg, order, orderType, now).1.Accepted? ==>
            var h := OrderSubmitted(g, cfg, order, orderType, now).0;
            var (e, r) := AfterSubmit(g.engine, order.side, order.price, order.quantity, orderType);
            var required := Collateral(order.side, order.quantity, order.price);
            && !Rejects(g.engine, order.side, order.quantity, orderType)
            && CanReserve(g.ledger, order.maker, OwnCollateralToken(order), required)
            && MakersOnRecord(g.orderMap, r.fills)
            && h.engine == e && h.orderMap == (if r.resting then g.orderMap[g.engine.nextId := order] else g.orderMap)
            && h.ledger == FillsApplied(AfterReserve(g.ledger, order.maker, OwnCollateralToken(order), required), cfg,
                                        order,
                                        g.orderMap, r.fills)
  {
    hide Match, Insert, FillsApplied, TradesOf, Refusal, ClientFills, Total, OrderFillSaved, BalanceOf, WithBalance,
      Ids, FilledMakers, RowsOf, MakersOnRecord, CanReserve, Collateral;
    FillsFromBook(g.engine, order.side, order.price, order.quantity, orderType, g.orderMap);
  }

  lemma ReserveFunds(g: Gateway, cfg: Config, order: SignedOrder, budget: nat)
    requires Healthy(g, cfg)
    requires CanReserve(g.ledger, order.maker, OwnCollateralToken(order),
                        Collateral(order.side, order.quantity, order.price))
    requires budget == Grant(cfg, order) + BalanceOf(g.ledger, order.maker, cfg.Locks(order.side)).reserved
                       - Locked(order.side, g.engine.On(order.side), g.orderMap, order.maker)
    ensures var opp := order.side.Opposite();
            var b := AfterReserve(g.ledger, order.maker, OwnCollateralToken(order),
                                  Collateral(order.side, order.quantity, order.price));
            && Funded(b, cfg, order, g.engine.On(opp), g.engine.On(order.side), g.orderMap, budget)
            && BalanceOf(b, order.maker, cfg.Locks(order.side)).reserved
               == BalanceOf(g.ledger, order.maker, cfg.Locks(order.side)).reserved + Grant(cfg, order)
  {
    hide Locked, Collateral, WithBalance, BalanceOf, Consistent;
    var opp := order.side.Opposite();
    var b := AfterReserve(g.ledger, order.maker, OwnCollateralToken(order),
                          Collateral(order.side, order.quantity, order.price));
    forall u ensures BalanceOf(b, u, cfg.Locks(opp)).reserved >= Locked(opp, g.engine.On(opp), g.orderMap, u) {
      assert BalanceOf(g.ledger, u, cfg.Locks(opp)).reserved >= Locked(opp, g.engine.On(opp), g.orderMap, u);
    }
    forall u ensures BalanceOf(b, u, cfg.Locks(order.side)).reserved
                     >= Locked(order.side, g.engine.On(order.side), g.orderMap, u)
                         + (if u == order.maker then budget else 0) {
      assert BalanceOf(g.ledger, u, cfg.Locks(order.side)).reserved
             >= Locked(order.side, g.engine.On(order.side), g.orderMap, u);
    }
  }

  /** What an accepted order needs of its side's token: its fills, and collateral for what rests. */
  ghost function Need(e: EngineState, order: SignedOrder, orderType: OrderType): nat {
    var r := AfterSubmit(e, order.side, order.price, order.quantity, orderType).1;
    Cost(order, r.fills) + (if r.resting then Collateral(order.side, r.restingQty, order.price) else 0)
  }

  /** Exactly when an accepted order is safe, whatever its type, its price and the tokens it names: its
      maker's reserve goes down by what the fills cost, with no subtraction wrapping, and every user
      stays covered, if and only if what it needs is at most what it reserved of the token it is settled
      in, plus what its maker has there in reserve beyond its orders. */
  lemma SubmitSafeIff(g: Gateway, cfg: Config, order: SignedOrder, orderType: OrderType, now: nat)
    requires Healthy(g, cfg) && MakersKnown(g.engine, g.orderMap)
    ensures OrderSubmitted(g, cfg, order, orderType, now).1.Accepted? ==>
            var h, token := OrderSubmitted(g, cfg, order, orderType, now).0, cfg.Locks(order.side);
            var fills := AfterSubmit(g.engine, order.side, order.price, order.quantity, orderType).1.fills;
            var reserved := BalanceOf(g.ledger, order.maker, token).reserved;
            (Solvent(h.ledger, cfg, h.engine, h.orderMap)
             && BalanceOf(h.ledger, order.maker, token).reserved == reserved + Grant(cfg, order) - Cost(order, fills))
            <==> Need(g.engine, order, orderType)
                 <= Grant(cfg, order) + reserved - Locked(order.side, g.engine.On(order.side), g.orderMap, order.maker)
  {
    hide Match, Insert, Consistent, FillsApplied, OrderSubmitted, BalanceOf, Collateral, Cost, WithBalance, Locked,
      Grant, Rejects, Funded, MakersOnRecord, CanReserve;
    if OrderSubmitted(g, cfg, order, orderType, now).1.Refused? { return; }
    AcceptedLeaves(g, cfg, order, orderType, now);
    ConsistentKnowsMakers(g, cfg);
    var side, opp, token := order.side, order.side.Opposite(), cfg.Locks(order.side);
    var h := OrderSubmitted(g, cfg, order, orderType, now).0;
    var m := Match(opp, g.engine.On(opp), LimitOf(orderType, order.price), g.engine.nextId, order.quantity);
    var b := AfterReserve(g.ledger, order.maker, OwnCollateralToken(order),
                          Collateral(side, order.quantity, order.price));
    SolventAt(g, cfg, order.maker, side);
    var reserved := BalanceOf(g.ledger, order.maker, token).reserved;
    var budget := Grant(cfg, order) + reserved - Locked(side, g.engine.On(side), g.orderMap, order.maker);
    var need := Need(g.engine, order, orderType);
    if need <= budget {
      ReserveFunds(g, cfg, order, budget);
      assert OwnersKnown(opp, g.engine.On(opp), g.orderMap);
      FundedMatch(b, cfg, order, g.engine.On(opp), g.engine.On(side), g.orderMap, LimitOf(orderType, order.price),
                  g.engine.nextId, order.quantity, budget);
      FundedCovers(h.ledger, cfg, order, m.book, g.engine.On(side), g.orderMap, budget - Cost(order, m.fills));
      RestingIsSolvent(g, cfg, order, orderType, h.ledger, budget - Cost(order, m.fills));
    } else if Solvent(h.ledger, cfg, h.engine, h.orderMap) {
      RestingLocks(g, cfg, order, orderType, order.maker);
      assert BalanceOf(h.ledger, order.maker, cfg.Locks(side)).reserved
             >= Locked(side, h.engine.On(side), h.orderMap, order.maker);
    }
  }

  lemma FundedCovers(b: Balances, cfg: Config, order: SignedOrder, f: seq<EngineOrder>, own: seq<EngineOrder>,
                     owners: map<OrderId, SignedOrder>, budget: nat)
    requires Funded(b, cfg, order, f, own, owners, budget)
    ensures Covers(b, cfg.Locks(order.side.Opposite()), order.side.Opposite(), f, owners, order.maker, 0)
    ensures Covers(b, cfg.Locks(order.side), order.side, own, owners, order.maker, budget)
  {
  }

  /** A market buy on the configured pair: safe if and only if the cost of its walk is at most the
      collateral of its own price plus what its maker has in reserve beyond its bids. */
  lemma MarketBuySafeIff(g: Gateway, cfg: Config, order: SignedOrder, now: nat)
    requires Healthy(g, cfg) && OnPair(cfg, order) && order.side.Buy? && MakersKnown(g.engine, g.orderMap)
    ensures OrderSubmitted(g, cfg, order, Market, now).1.Accepted? ==>
            var h := OrderSubmitted(g, cfg, order, Market, now).0;
            var cost := Cost(order, Match(Sell, g.engine.asks, None, g.engine.nextId, order.quantity).fills);
            var reserved := BalanceOf(g.ledger, order.maker, cfg.quote).reserved;
            var budget := Quote(order.quantity, order.price)
                          + reserved - Locked(Buy, g.engine.bids, g.orderMap, order.maker);
            (Solvent(h.ledger, cfg, h.engine, h.orderMap)
             && BalanceOf(h.ledger, order.maker, cfg.quote).reserved
                == reserved + Quote(order.quantity, order.price) - cost)
            <==> cost <= budget
  {
    hide Match, Insert, Consistent, OrderSubmitted, BalanceOf, Quote, Cost, Locked, Solvent, Total;
    SubmitSafeIff(g, cfg, order, Market, now);
    AcceptedLeaves(g, cfg, order, Market, now);
  }
}
