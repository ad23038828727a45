/** How much can stay reserved without an order that needs it: the rounding dust of every fill, and the
    collateral of the orders that restarts dropped as stale. */
module StuckFunds {
  import opened Types
  import opened Arithmetic
  import opened PriorityBook
  import opened MatchingEngines
  import opened EngineRuns
  import opened Ledgers
  import opened Persistence
  import opened Gateways
  import opened TradeLog
  import opened Solvency
  import opened GatewayInvariants
  import opened GatewaySolvency
  import opened Recovery
  import opened Exchanges
  import opened System
  import opened Agreement
  import opened GuardedRuns

  type Excess = (Address, Side) -> int

  /** Rounding only ever leaves quote tokens behind, at most two units a fill. */
  function Dust(s: Side, fills: nat): nat {
    if s.Buy? then 2 * fills else 0
  }

  /** Reserves exceed what the list needs by no more than this, with `extra` for `taker`. */
  ghost predicate AtMost(b: Balances, cfg: Config, s: Side, f: seq<EngineOrder>, owners: map<OrderId, SignedOrder>,
                         taker: Address, extra: nat, over: Excess, fills: nat)
  {
    forall u :: BalanceOf(b, u, cfg.Locks(s)).reserved
                <= Locked(s, f, owners, u) + (if u == taker then extra else 0) + over(u, s) + Dust(s, fills)
  }

  ghost predicate Tight(b: Balances, cfg: Config, e: EngineState, owners: map<OrderId, SignedOrder>, over: Excess,
                        fills: nat) {
    forall u, s :: BalanceOf(b, u, cfg.Locks(s)).reserved
                   <= Locked(s, e.On(s), owners, u) + over(u, s) + Dust(s, fills)
  }

  /** Both sides while an order is under way that still holds collateral for `r` units. */
  ghost predicate UnderwayAtMost(b: Balances, cfg: Config, order: SignedOrder, f: seq<EngineOrder>,
                                 own: seq<EngineOrder>,
                                 owners: map<OrderId, SignedOrder>, r: nat, over: Excess, fills: nat)
  {
    && AtMost(b, cfg, order.side.Opposite(), f, owners, order.maker, 0, over, fills)
    && AtMost(b, cfg, order.side, own, owners, order.maker, Collateral(order.side, r, order.price), over, fills)
  }

  // ----- One fill -----

  lemma LockedBeforeTake(s: Side, f: seq<EngineOrder>, owners: map<OrderId, SignedOrder>, t: nat, u: Address)
    requires f != [] && t <= f[0].quantity && BidsFit(s, f) && f[0].id in owners
    ensures Locked(s, f, owners, u)
            <= Locked(s, AfterTake(f, t), owners, u)
               + (if u == owners[f[0].id].maker then Collateral(s, t, f[0].price) + (if s.Buy? then 1 else 0) else 0)
  {
    assert f[0] in f;
    if s.Buy? {
      QuoteSplitsQuantity(t, f[0].quantity - t, f[0].price);
    }
    if t < f[0].quantity {
      assert AfterTake(f, t)[1..] == f[1..];
    } else {
      NoQuantity(f[0].price);
    }
  }

  lemma TakerKeeps(order: SignedOrder, r: nat, fill: EngineFill)
    requires fill.quantity <= r && (order.side.Buy? ==> Fits(r, order.price) && fill.price <= order.price)
    ensures Collateral(order.side, r, order.price)
            <= (if order.side.Buy? then Quote(fill.quantity, fill.price) + Surplus(order, fill) + 2 else fill.quantity)
               + Collateral(order.side, r - fill.quantity, order.price)
  {
    if order.side.Buy? {
      TakerSplit(r, order.price, fill.quantity, fill.price);
      NoSurplus(fill.quantity);
    }
  }

  lemma FillKeepsAtMost(b: Balances, cfg: Config, order: SignedOrder, f: seq<EngineOrder>, own: seq<EngineOrder>,
                        owners: map<OrderId, SignedOrder>, r: nat, fill: EngineFill, over: Excess, fills: nat)
    requires Underway(b, cfg, order, f, own, owners, r)
    requires f != [] && f[0].id in owners && fill.price == f[0].price
    requires fill.quantity <= r && fill.quantity <= f[0].quantity
    requires order.side.Buy? ==> fill.price <= order.price
    requires UnderwayAtMost(b, cfg, order, f, own, owners, r, over, fills)
    ensures UnderwayAtMost(FillApplied(b, cfg, order, owners[f[0].id].maker, fill), cfg, order,
                           AfterTake(f, fill.quantity), own, owners, r - fill.quantity, over, fills + 1)
  {
    hide Quote, FillApplied, Locked, WithBalance, BalanceOf, AfterTake, Surplus;
    var m, opp, t := owners[f[0].id].maker, order.side.Opposite(), fill.quantity;
    var c := FillApplied(b, cfg, order, m, fill);
    FillCanSettle(b, cfg, order, f, own, owners, r, fill);
    TakerAffords(b, cfg, order, f, own, owners, r, fill);
    TakerKeeps(order, r, fill);
    forall u ensures BalanceOf(c, u, cfg.Locks(opp)).reserved
                     <= Locked(opp, AfterTake(f, t), owners, u) + over(u, opp) + Dust(opp, fills + 1) {
      FillEffect(b, cfg, order, m, fill, u, cfg.Locks(opp));
      LockedBeforeTake(opp, f, owners, t, u);
    }
    forall u ensures BalanceOf(c, u, cfg.Locks(order.side)).reserved
                     <= Locked(order.side, own, owners, u)
                        + (if u == order.maker then Collateral(order.side, r - t, order.price) else 0)
                        + over(u, order.side) + Dust(order.side, fills + 1) {
      FillEffect(b, cfg, order, m, fill, u, cfg.Locks(order.side));
    }
  }

  lemma {:induction false} MatchKeepsAtMost(b: Balances, cfg: Config, order: SignedOrder, f: seq<EngineOrder>,
                                            own: seq<EngineOrder>, owners: map<OrderId, SignedOrder>,
                                            limit: Option<nat>, taker: OrderId, r: nat, over: Excess, fills: nat)
    requires Underway(b, cfg, order, f, own, owners, r) && OwnersKnown(order.side.Opposite(), f, owners)
    requires KeepsToPrice(order, Match(order.side.Opposite(), f, limit, taker, r).fills)
    requires UnderwayAtMost(b, cfg, order, f, own, owners, r, over, fills)
    ensures var m := Match(order.side.Opposite(), f, limit, taker, r);
            && MakersOnRecord(owners, m.fills)
            && UnderwayAtMost(FillsApplied(b, cfg, order, owners, m.fills), cfg, order, m.book, own, owners,
                              m.remaining, over, fills + |m.fills|)
    decreases |f|, r
  {
    hide Match, Underway, UnderwayAtMost, Quote, FillApplied, FillsApplied, TradesOf, OwnersKnown, Collateral,
      AfterTake, Surplus, KeepsToPrice, MakersOnRecord;
    var opp := order.side.Opposite();
    MatchIdle(opp, f, limit, taker, r);
    if r == 0 || f == [] || !Acceptable(opp, limit, f[0].price) {
      NoFills(b, cfg, order, owners, 0);
    } else {
      var fill := FillTurn(order, f, owners, limit, taker, r);
      var left, t := AfterTake(f, fill.quantity), fill.quantity;
      FillKeepsUnderway(b, cfg, order, f, own, owners, r, fill);
      FillKeepsAtMost(b, cfg, order, f, own, owners, r, fill, over, fills);
      MatchKeepsAtMost(FillApplied(b, cfg, order, owners[f[0].id].maker, fill), cfg, order, left, own, owners, limit,
                       taker, r - t, over, fills + 1);
      FillsCons(b, cfg, order, owners, fill, Match(opp, left, limit, taker, r - t).fills, 0);
    }
  }

  // ----- Submitting -----

  lemma ReserveKeepsAtMost(g: Gateway, cfg: Config, order: SignedOrder, over: Excess, fills: nat)
    requires cfg.base != cfg.quote && OnPair(cfg, order) && Tight(g.ledger, cfg, g.engine, g.orderMap, over, fills)
    requires CanReserve(g.ledger, order.maker, OwnCollateralToken(order),
                        Collateral(order.side, order.quantity, order.price))
    ensures var b := AfterReserve(g.ledger, order.maker, OwnCollateralToken(order),
                                  Collateral(order.side, order.quantity, order.price));
            UnderwayAtMost(b, cfg, order, g.engine.On(order.side.Opposite()), g.engine.On(order.side), g.orderMap,
                           order.quantity, over, fills)
  {
    hide Locked, Collateral, WithBalance, BalanceOf;
    var opp, side, required := order.side.Opposite(), order.side, Collateral(order.side, order.quantity, order.price);
    var b := AfterReserve(g.ledger, order.maker, OwnCollateralToken(order), required);
    forall u ensures BalanceOf(b, u, cfg.Locks(opp)).reserved
                     <= Locked(opp, g.engine.On(opp), g.orderMap, u) + over(u, opp) + Dust(opp, fills) {
      assert BalanceOf(g.ledger, u, cfg.Locks(opp)).reserved
             <= Locked(opp, g.engine.On(opp), g.orderMap, u) + over(u, opp) + Dust(opp, fills);
    }
    forall u ensures BalanceOf(b, u, cfg.Locks(side)).reserved
                     <= Locked(side, g.engine.On(side), g.orderMap, u) + (if u == order.maker then required else 0)
                        + over(u, side) + Dust(side, fills) {
      assert BalanceOf(g.ledger, u, cfg.Locks(side)).reserved
             <= Locked(side, g.engine.On(side), g.orderMap, u) + over(u, side) + Dust(side, fills);
    }
  }

  /** What does not rest has nothing left to lock. */
  lemma NothingLeft(e: EngineState, order: SignedOrder, orderType: OrderType)
    requires Sound(e) && !Rejects(e, order.side, order.quantity, orderType)
    requires !AfterSubmit(e, order.side, order.price, order.quantity, orderType).1.resting
    ensures var opp := order.side.Opposite();
            var m := Match(opp, e.On(opp), LimitOf(orderType, order.price), e.nextId, order.quantity);
            m.remaining == 0 && Collateral(order.side, m.remaining, order.price) == 0
  {
    if orderType.Market? {
      MarketAllOrNothing(e, order.side, order.price, order.quantity);
    }
    NoQuantity(order.price);
  }

  lemma RestingIsTight(g: Gateway, cfg: Config, order: SignedOrder, orderType: OrderType, c: Balances, over: Excess,
                       fills: nat)
    requires Consistent(g, cfg) && !Rejects(g.engine, order.side, order.quantity, orderType)
    requires var opp := order.side.Opposite();
             var m := Match(opp, g.engine.On(opp), LimitOf(orderType, order.price), g.engine.nextId, order.quantity);
             UnderwayAtMost(c, cfg, order, m.book, g.engine.On(order.side), g.orderMap, m.remaining, over, fills)
    ensures var (e, r) := AfterSubmit(g.engine, order.side, order.price, order.quantity, orderType);
            Tight(c, cfg, e, if r.resting then g.orderMap[g.engine.nextId := order] else g.orderMap, over, fills)
  {
    hide Match, Insert, Locked, Collateral, Total, BalanceOf, Consistent;
    var opp, side, id := order.side.Opposite(), order.side, g.engine.nextId;
    var (e, r) := AfterSubmit(g.engine, side, order.price, order.quantity, orderType);
    var owners := if r.resting then g.orderMap[id := order] else g.orderMap;
    ConsistentSound(g, cfg);
    if !r.resting {
      NothingLeft(g.engine, order, orderType);
    }
    forall u ensures BalanceOf(c, u, cfg.Locks(opp)).reserved
                     <= Locked(opp, e.On(opp), owners, u) + over(u, opp) + Dust(opp, fills)
    ensures BalanceOf(c, u, cfg.Locks(side)).reserved
            <= Locked(side, e.On(side), owners, u) + over(u, side) + Dust(side, fills) {
      RestingLocks(g, cfg, order, orderType, u);
    }
  }

  lemma SubmitKeepsTight(g: Gateway, cfg: Config, order: SignedOrder, orderType: OrderType, now: nat, over: Excess,
                         fills: nat)
    requires Healthy(g, cfg) && OnPair(cfg, order) && SizeFits(order) && MakersKnown(g.engine, g.orderMap)
    requires order.side.Sell? || PriceHolds(g.engine, order, orderType)
    requires Tight(g.ledger, cfg, g.engine, g.orderMap, over, fills)
    ensures var h := OrderSubmitted(g, cfg, order, orderType, now).0;
            Tight(h.ledger, cfg, h.engine, h.orderMap, over, fills + |NewTrades(g, cfg, order, orderType, now)|)
  {
    hide Match, Consistent, FillsApplied, TradesOf, AfterReserve, Collateral, Refusal, ClientFills, Insert, Total,
      Underway, Solvent, OrderFillSaved, BalanceOf, CanReserve, Sound, Depth, Tight, UnderwayAtMost, FilledMakers,
      RowsOf;
    var h := OrderSubmitted(g, cfg, order, orderType, now).0;
    if OrderSubmitted(g, cfg, order, orderType, now).1.Refused? {
      RefusedChangesNothing(g, cfg, order, orderType, now);
      SameIsTight(g, cfg, h, over, fills);
    } else {
      var opp, id := order.side.Opposite(), g.engine.nextId;
      var b := AfterReserve(g.ledger, order.maker, OwnCollateralToken(order),
                            Collateral(order.side, order.quantity, order.price));
      var limit := LimitOf(orderType, order.price);
      ReservePutsUnderway(g, cfg, order);
      ReserveKeepsAtMost(g, cfg, order, over, fills);
      ConsistentKnowsMakers(g, cfg);
      assert Sound(g.engine) by { ConsistentSound(g, cfg); }
      if order.side.Buy? {
        FillsKeepToPrice(g.engine, order, orderType);
      }
      MatchKeepsAtMost(b, cfg, order, g.engine.On(opp), g.engine.On(order.side), g.orderMap, limit, id, order.quantity,
                       over, fills);
      var m := Match(opp, g.engine.On(opp), limit, id, order.quantity);
      RestingIsTight(g, cfg, order, orderType, FillsApplied(b, cfg, order, g.orderMap, m.fills), over,
                     fills + |m.fills|);
    }
  }

  lemma SameIsTight(g: Gateway, cfg: Config, h: Gateway, over: Excess, fills: nat)
    requires Tight(g.ledger, cfg, g.engine, g.orderMap, over, fills)
    requires SameBalances(h.ledger, g.ledger) && h.orderMap == g.orderMap
    requires h.engine.bids == g.engine.bids && h.engine.asks == g.engine.asks
    ensures Tight(h.ledger, cfg, h.engine, h.orderMap, over, fills)
  {
    hide Locked, BalanceOf;
    forall u, s ensures BalanceOf(h.ledger, u, cfg.Locks(s)).reserved
                        <= Locked(s, h.engine.On(s), h.orderMap, u) + over(u, s) + Dust(s, fills) {
      assert h.engine.On(s) == g.engine.On(s);
      assert BalanceOf(h.ledger, u, cfg.Locks(s)) == BalanceOf(g.ledger, u, cfg.Locks(s));
    }
  }

  // ----- Cancelling -----

  /** What is recorded for an order is never less than what it still locks. */
  lemma RecordedCovers(g: Gateway, cfg: Config, s: Side, o: EngineOrder)
    requires Consistent(g, cfg) && RowsFit(g.db.orders) && o in g.engine.On(s)
    ensures o.id in g.orderNonceMap && Collateral(s, o.quantity, o.price) <= g.orderNonceMap[o.id].collateral
  {
    assert Entered(g, cfg, s, o);
    MakerSplit(s, g.db.orders[o.id].restingQuantity, o.price, o.quantity);
  }

  lemma CancelKeepsTight(g: Gateway, cfg: Config, s: Side, o: EngineOrder, over: Excess, fills: nat)
    requires Healthy(g, cfg) && o in g.engine.On(s)
    requires o.id in g.orderNonceMap && ExcessIsSpare(g, cfg, s, o)
    requires Tight(g.ledger, cfg, g.engine, g.orderMap, over, fills)
    ensures var h := CancelByMaker(g, o.id); Tight(h.ledger, cfg, h.engine, h.orderMap, over, fills)
  {
    hide Collateral, Consistent, CancelRequested, Locked, BalanceOf, ExcessIsSpare, Solvent;
    var h, entry := CancelByMaker(g, o.id), g.orderNonceMap[o.id];
    RecordedCovers(g, cfg, s, o);
    CancelSafeIff(g, cfg, s, o);
    CancelLocks(g, cfg, s, o);
    assert entry.token == cfg.Locks(s) by { EnteredToken(g, cfg, s, o); }
    forall u, s' ensures BalanceOf(h.ledger, u, cfg.Locks(s')).reserved
                         <= Locked(s', h.engine.On(s'), h.orderMap, u) + over(u, s') + Dust(s', fills) {
      CancelledBalance(g, o.id, u, cfg.Locks(s'));
      assert s' != s ==> cfg.Locks(s') != cfg.Locks(s);
      assert BalanceOf(g.ledger, u, cfg.Locks(s')).reserved
             <= Locked(s', g.engine.On(s'), g.orderMap, u) + over(u, s') + Dust(s', fills);
    }
  }

  // ----- Restarting -----

  /** The collateral that the rows of a user recorded and that a restart leaves out as stale. */
  ghost function Dropped(orders: map<OrderId, OrderRow>, s: Side, u: Address, now: nat): int {
    SumOver<OrderId>(orders.Keys, RowNeeds(orders, s, u, 0)) - SumOver<OrderId>(orders.Keys,
        RowNeeds(orders, s, u, now))
  }

  lemma {:induction false} RebuiltLocksMore(s: Side, f: seq<EngineOrder>, orders: map<OrderId, OrderRow>,
                                            owners: map<OrderId, SignedOrder>, u: Address)
    requires forall o :: o in f ==> o.id in orders && o.quantity <= orders[o.id].restingQuantity
    requires s.Buy? ==> forall o :: o in f ==> Fits(orders[o.id].restingQuantity, o.price)
    ensures Locked(s, f, owners, u) <= Locked(s, Rebuilt(f, orders, 0), owners, u)
  {
    hide Collateral;
    if f != [] {
      assert f == [f[0]] + f[1..] && f[0] in f;
      RebuiltLocksMore(s, f[1..], orders, owners, u);
      var head := f[0].(quantity := orders[f[0].id].restingQuantity);
      var rest := Rebuilt(f[1..], orders, 0);
      assert ([head] + rest)[1..] == rest;
      MakerSplit(s, head.quantity, head.price, f[0].quantity);
    }
  }

  /** The rows of a user record at least what that user's orders on the book still need. */
  lemma RowsCoverTheBook(g: Gateway, cfg: Config, s: Side, u: Address)
    requires Consistent(g, cfg) && RowsFit(g.db.orders)
    ensures Locked(s, g.engine.On(s), g.orderMap, u)
            <= SumOver<OrderId>(g.db.orders.Keys, RowNeeds(g.db.orders, s, u, 0))
  {
    hide Sound, Mirrored, Locked, Collateral, RowNeeds, Rebuilt;
    var f, orders := g.engine.On(s), g.db.orders;
    ConsistentSound(g, cfg);
    SoundDistinct(g.engine);
    forall o | o in f ensures Entered(g, cfg, s, o) {}
    LockedRebuilt(s, f, orders, 0, g.orderMap, u);
    RebuiltLocksMore(s, f, orders, g.orderMap, u);
    forall id | id in orders.Keys - Ids(f) ensures RowNeeds(orders, s, u, 0)(id) == 0 {
      NoNeedElsewhere(g, cfg, 0, s, u, id);
    }
    SumOfPart<OrderId>(orders.Keys, Ids(f), RowNeeds(orders, s, u, 0));
  }

  lemma RestartKeepsTight(g: Gateway, cfg: Config, now: nat, over: Excess, over': Excess, fills: nat)
    requires Healthy(g, cfg) && Tight(g.ledger, cfg, g.engine, g.orderMap, over, fills)
    requires forall u, s :: over'(u, s) == over(u, s) + Dropped(g.db.orders, s, u, now)
    ensures var h := Restarted(g.db, cfg, now); Tight(h.ledger, cfg, h.engine, h.orderMap, over', fills)
  {
    hide Consistent, Locked, BalanceOf, Restarted, RowNeeds, Solvent, RowsFit;
    var h := Restarted(g.db, cfg, now);
    RestartKeepsConsistent(g, cfg, now);
    forall u, s ensures BalanceOf(h.ledger, u, cfg.Locks(s)).reserved
                        <= Locked(s, h.engine.On(s), h.orderMap, u) + over'(u, s) + Dust(s, fills) {
      RestLocks(g, cfg, now, s, u);
      RowsCoverTheBook(g, cfg, s, u);
      assert BalanceOf(h.ledger, u, cfg.Locks(s)) == BalanceOf(g.ledger, u, cfg.Locks(s));
      assert BalanceOf(g.ledger, u, cfg.Locks(s)).reserved
             <= Locked(s, g.engine.On(s), g.orderMap, u) + over(u, s) + Dust(s, fills);
    }
  }

  // ----- Runs -----

  /** The collateral dropped as stale by the restarts among the first `n` events. */
  ghost function DroppedSoFar(events: seq<Event>, states: seq<World>, n: nat, u: Address, s: Side): int
    requires n <= |events| < |states|
  {
    if n == 0 then 0
    else
      DroppedSoFar(events, states, n - 1, u, s)
      + (if events[n - 1].RestartEvent? then Dropped(states[n - 1].g.db.orders, s, u, events[n - 1].now) else 0)
  }

  ghost function OverOf(events: seq<Event>, states: seq<World>, n: nat): Excess
    requires n <= |events| < |states|
  {
    (u, s) => DroppedSoFar(events, states, n, u, s)
  }

  ghost predicate TightWorld(w: World, cfg: Config, over: Excess) {
    Tight(w.g.ledger, cfg, w.g.engine, w.g.orderMap, over, |w.log|)
  }

  lemma CreditKeepsTight(g: Gateway, cfg: Config, user: Address, token: Address, amount: nat, over: Excess, fills: nat)
    requires Tight(g.ledger, cfg, g.engine, g.orderMap, over, fills)
    ensures var h := DepositCredited(g, user, token, amount); Tight(h.ledger, cfg, h.engine, h.orderMap, over, fills)
  {
    hide Locked, WithBalance, BalanceOf;
    var h := DepositCredited(g, user, token, amount);
    forall u, s ensures BalanceOf(h.ledger, u, cfg.Locks(s)).reserved
                        <= Locked(s, h.engine.On(s), h.orderMap, u) + over(u, s) + Dust(s, fills) {
      assert BalanceOf(g.ledger, u, cfg.Locks(s)).reserved
             <= Locked(s, g.engine.On(s), g.orderMap, u) + over(u, s) + Dust(s, fills);
    }
  }

  lemma CancelStepIsTight(w: World, cfg: Config, e: Event, over: Excess)
    requires Good(w, cfg) && e.CancelEvent? && Within(w, cfg, e) && TightWorld(w, cfg, over)
    ensures TightWorld(Next(w, cfg, e), cfg, over)
  {
    hide Healthy, Safe, RestingSigned, AllWellFormed, LedgerAccounts, ChainAccounts, Backed, ExcessIsSpare, Tight;
    if e.signer.Some? ==> MayFind(w.g.orderNonceMap, e.nonce, e.found) {
      var (g', r) := CancelRequested(w.g, e.nonce, e.signer, e.found);
      if r.CancelAccepted? {
        var id := e.found.value;
        var s := if id in Ids(w.g.engine.bids) then Buy else Sell;
        var o: EngineOrder :| o in w.g.engine.On(s) && o.id == id;
        CancelKeepsTight(w.g, cfg, s, o, over, |w.log|);
      }
    }
  }

  lemma SubmitStepIsTight(w: World, cfg: Config, e: Event, over: Excess)
    requires Good(w, cfg) && e.SubmitEvent? && Within(w, cfg, e) && TightWorld(w, cfg, over)
    ensures TightWorld(Next(w, cfg, e), cfg, over)
  {
    hide Healthy, Safe, RestingSigned, AllWellFormed, LedgerAccounts, ChainAccounts, Backed, OrderSubmitted, NewTrades,
      Tight, PriceHolds;
    if MakersKnown(w.g.engine, w.g.orderMap) {
      SubmitKeepsTight(w.g, cfg, e.order, e.orderType, e.now, over, |w.log|);
    }
  }

  lemma StepIsTight(w: World, cfg: Config, e: Event, over: Excess, over': Excess)
    requires Good(w, cfg) && Within(w, cfg, e) && TightWorld(w, cfg, over)
    requires forall u, s :: over'(u, s) == over(u, s)
                            + (if e.RestartEvent? then Dropped(w.g.db.orders, s, u, e.now) else 0)
    ensures TightWorld(Next(w, cfg, e), cfg, over')
  {
    hide Healthy, Safe, RestingSigned, AllWellFormed, LedgerAccounts, ChainAccounts, Backed, OrderSubmitted, NewTrades,
      Tight, CancelRequested, DepositCredited, Restarted, SettledBatch, Within, Dropped, MarkStep;
    match e
    case SubmitEvent(_, _, _) =>
      SubmitStepIsTight(w, cfg, e, over);
      MoreOver(Next(w, cfg, e), cfg, over, over');
    case CancelEvent(_, _, _) =>
      CancelStepIsTight(w, cfg, e, over);
      MoreOver(Next(w, cfg, e), cfg, over, over');
    case CreditEvent(index) =>
      if index < |w.deposits| {
        var d := w.deposits[index];
        CreditKeepsTight(w.g, cfg, d.user, d.token, d.amount, over, |w.log|);
      }
      MoreOver(Next(w, cfg, e), cfg, over, over');
    case RestartEvent(now) =>
      RestartKeepsTight(w.g, cfg, now, over, over', |w.log|);
    case MarkEvent =>
      MarkLeavesBook(w);
      MoreOver(Next(w, cfg, e), cfg, over, over');
    case _ =>
      MoreOver(Next(w, cfg, e), cfg, over, over');
  }

  lemma MarkLeavesBook(w: World)
    ensures w.task.Marking? ==>
              var w' := MarkStep(w);
              && w'.g.ledger == w.g.ledger && w'.g.engine == w.g.engine && w'.g.orderMap == w.g.orderMap
                  && w'.log == w.log
  {
  }

  lemma MoreOver(w: World, cfg: Config, over: Excess, over': Excess)
    requires TightWorld(w, cfg, over) && forall u, s :: over(u, s) <= over'(u, s)
    ensures TightWorld(w, cfg, over')
  {
    hide Locked, BalanceOf;
    forall u, s ensures BalanceOf(w.g.ledger, u, cfg.Locks(s)).reserved
                        <= Locked(s, w.g.engine.On(s), w.g.orderMap, u) + over'(u, s) + Dust(s, |w.log|) {
      assert BalanceOf(w.g.ledger, u, cfg.Locks(s)).reserved
             <= Locked(s, w.g.engine.On(s), w.g.orderMap, u) + over(u, s) + Dust(s, |w.log|);
    }
  }

  lemma {:induction false} RunIsTight(cfg: Config, events: seq<Event>, states: seq<World>, n: nat)
    requires IsRun(cfg, events, states) && AllWithin(cfg, events, states) && n < |states|
    ensures TightWorld(states[n], cfg, OverOf(events, states, n))
  {
    hide Good, Within, Next, TightWorld, Dropped;
    if n == 0 {
      StartIsTight(cfg, OverOf(events, states, 0));
    } else {
      assert states[n] == Next(states[n - 1], cfg, events[n - 1]);
      RunIsGood(cfg, events, states, n - 1);
      RunIsTight(cfg, events, states, n - 1);
      StepIsTight(states[n - 1], cfg, events[n - 1], OverOf(events, states, n - 1), OverOf(events, states, n));
    }
  }

  lemma StartIsTight(cfg: Config, over: Excess)
    requires forall u, s :: over(u, s) == 0
    ensures TightWorld(START, cfg, over)
  {
  }

  /** How much is stuck: in every state of a guarded run, what a user has reserved lies between what that
      user's orders on the book need and, beyond that, two units of quote for each trade of the run and
      the collateral of the user's orders that restarts dropped as stale. */
  lemma StuckIsBounded(cfg: Config, events: seq<Event>, states: seq<World>, n: nat, u: Address, s: Side)
    requires IsRun(cfg, events, states) && AllWithin(cfg, events, states) && n < |states|
    ensures var w := states[n];
            var reserved, needed := BalanceOf(w.g.ledger, u, cfg.Locks(s)).reserved,
                Locked(s, w.g.engine.On(s), w.g.orderMap, u);
            needed <= reserved <= needed + DroppedSoFar(events, states, n, u, s) + Dust(s, |w.log|)
  {
    hide Next, Within, Safe, Consistent, BalanceOf, Locked, DroppedSoFar;
    RunIsGood(cfg, events, states, n);
    RunIsTight(cfg, events, states, n);
    var w := states[n];
    assert BalanceOf(w.g.ledger, u, cfg.Locks(s)).reserved
           <= Locked(s, w.g.engine.On(s), w.g.orderMap, u) + OverOf(events, states, n)(u, s) + Dust(s, |w.log|);
  }
}
