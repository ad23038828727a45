/** Short runs in which the unguarded statements fail. */
module Examples {
  import opened Types
  import opened Arithmetic
  import opened PriorityBook
  import opened MatchingEngines
  import opened Ledgers
  import opened Persistence
  import opened Gateways
  import opened Solvency
  import opened GatewayInvariants
  import opened GatewaySolvency
  import opened Recovery
  import opened Exchanges
  import opened System
  import opened Agreement
  import opened GuardedRuns

  const CFG: Config := Config(Address(1), Address(2), 0)
  const SELLER: Address := Address(3)
  const BUYER: Address := Address(4)

  const TEN: nat := 10 * E18
  const SIX: nat := 6 * E18
  const FOUR: nat := 4 * E18

  const ASK: SignedOrder := SignedOrder(Sell, SELLER, CFG.base, CFG.quote, 2, TEN, 1, 100, Some(SELLER))

  /** The buyer's orders, told apart by their nonces. */
  function Bid(quantity: nat, price: nat, nonce: nat): SignedOrder {
    SignedOrder(Buy, BUYER, CFG.base, CFG.quote, price, quantity, nonce, 100, Some(BUYER))
  }

  // ----- The run: two deposits, an ask, and a buy of four of its ten units -----

  ghost function SellerDeposited(): World {
    Next(START, CFG, DepositEvent(Deposit(SELLER, CFG.base, TEN, 1)))
  }

  ghost function SellerCredited(): World {
    Next(SellerDeposited(), CFG, CreditEvent(0))
  }

  ghost function AskRested(): World {
    Next(SellerCredited(), CFG, SubmitEvent(ASK, Limit, 0))
  }

  ghost function BuyerDeposited(): World {
    Next(AskRested(), CFG, DepositEvent(Deposit(BUYER, CFG.quote, 20, 2)))
  }

  /** Ten units rest at price 2, and the buyer holds 20. */
  ghost function Waiting(): World {
    Next(BuyerDeposited(), CFG, CreditEvent(1))
  }

  /** Four of the ten units are sold. */
  ghost function PartlyFilled(): World {
    Next(Waiting(), CFG, SubmitEvent(Bid(FOUR, 2, 2), Limit, 0))
  }

  /** Every nonce row expires at time zero. */
  ghost predicate ExpireAtZero(nonces: map<SignedOrder, nat>) {
    forall hash :: hash in nonces ==> nonces[hash] == 0
  }

  /** The ask rests with `left` of its ten units; its row and its cancel entry say ten. */
  ghost predicate Rests(g: Gateway, left: nat, nextId: nat) {
    && g.engine == EngineState([], [EngineOrder(1, Sell, 2, left)], nextId)
    && BalanceOf(g.ledger, SELLER, CFG.base) == TokenBalance(0, left)
    && g.orderMap == map[1 := ASK]
    && g.orderNonceMap == map[1 := NonceEntry(SELLER, 1, CFG.base, TEN)]
    && g.db.orders == map[1 := OrderRow(ASK, TEN, Resting)]
  }

  lemma CreditedSeller()
    ensures var w := SellerCredited();
            && w.g.engine == EngineState([], [], 1) && w.g.acceptedNonces == {} && w.log == []
            && w.g.orderMap == map[] && w.g.orderNonceMap == map[] && w.g.db.orders == map[] && w.g.db.nonces == map[]
            && BalanceOf(w.g.ledger, SELLER, CFG.base) == TokenBalance(TEN, 0)
            && BalanceOf(w.g.ledger, BUYER, CFG.quote) == TokenBalance(0, 0)
  {
    hide WithBalance, BalanceOf, OrderSubmitted, NewTrades, CancelRequested, Restarted, SettledBatch, Deposited;
    var none: Balances := map[];
    assert BalanceOf(none, SELLER, CFG.base) == TokenBalance(0, 0)
        && BalanceOf(none, BUYER, CFG.quote) == TokenBalance(0, 0) by {
      NoBalances(SELLER, CFG.base);
      NoBalances(BUYER, CFG.quote);
    }
  }

  lemma NoBalances(u: Address, t: Address)
    ensures BalanceOf(map[], u, t) == TokenBalance(0, 0)
  {
  }

  lemma AskComesToRest(g: Gateway)
    requires g.engine == EngineState([], [], 1) && g.acceptedNonces == {}
    requires g.orderMap == map[] && g.orderNonceMap == map[] && g.db.orders == map[]
    requires BalanceOf(g.ledger, SELLER, CFG.base) == TokenBalance(TEN, 0)
    ensures MakersKnown(g.engine, g.orderMap) && NewTrades(g, CFG, ASK, Limit, 0) == []
    ensures var h := OrderSubmitted(g, CFG, ASK, Limit, 0).0;
            && Rests(h, TEN, 2) && h.acceptedNonces == {ASK.Hash()}
            && (ExpireAtZero(g.db.nonces) ==> ExpireAtZero(h.db.nonces))
            && BalanceOf(h.ledger, BUYER, CFG.quote) == BalanceOf(g.ledger, BUYER, CFG.quote)
  {
    hide WithBalance, BalanceOf, TradesInserted, RowsOf, E18, FillApplied;
    assert Match(Buy, [], Some(2), 1, TEN) == Matched([], [], TEN);
    assert TEN > 0 by { assert E18 > 0 by { Positive(); } }
    var b := AfterReserve(g.ledger, SELLER, CFG.base, TEN);
    UnfoldNoFills(b, CFG, ASK, g.orderMap, [], 1, TEN, 0);
    UnfoldNoFilledMakers([], AfterSubmit(g.engine, Sell, 2, TEN, Limit).0);
  }

  lemma Positive()
    ensures E18 > 0
  {
  }

  lemma WaitingIs()
    ensures ReachedWithin(CFG, Waiting())
    ensures var g := Waiting().g;
            && Rests(g, TEN, 2) && g.acceptedNonces == {ASK.Hash()} && Waiting().log == [] && ExpireAtZero(g.db.nonces)
            && BalanceOf(g.ledger, BUYER, CFG.quote) == TokenBalance(20, 0)
            && |Waiting().deposits| == 2
  {
    hide Next, Rests, OrderSubmitted, WithBalance, BalanceOf, ReachedWithin, NewTrades;
    CreditedSeller();
    AskComesToRest(SellerCredited().g);
    assert AskRested().g == OrderSubmitted(SellerCredited().g, CFG, ASK, Limit, 0).0 && AskRested().log == [] by {
      Submitted(SellerCredited(), ASK, Limit);
    }
    BuyerCredited();
    StartIsWithin(CFG);
    ReachedWithinSteps(CFG, START, DepositEvent(Deposit(SELLER, CFG.base, TEN, 1)));
    ReachedWithinSteps(CFG, SellerDeposited(), CreditEvent(0));
    ReachedWithinSteps(CFG, SellerCredited(), SubmitEvent(ASK, Limit, 0));
    ReachedWithinSteps(CFG, AskRested(), DepositEvent(Deposit(BUYER, CFG.quote, 20, 2)));
    ReachedWithinSteps(CFG, BuyerDeposited(), CreditEvent(1));
  }

  lemma Submitted(w: World, order: SignedOrder, orderType: OrderType)
    requires MakersKnown(w.g.engine, w.g.orderMap)
    ensures var w' := Next(w, CFG, SubmitEvent(order, orderType, 0));
            && w'.g == OrderSubmitted(w.g, CFG, order, orderType, 0).0
            && w'.log == w.log + NewTrades(w.g, CFG, order, orderType, 0)
            && w'.deposits == w.deposits
  {
    hide OrderSubmitted, NewTrades;
  }

  lemma BuyerCredited()
    requires Rests(AskRested().g, TEN, 2) && AskRested().g.acceptedNonces == {ASK.Hash()} && AskRested().log == []
    requires ExpireAtZero(AskRested().g.db.nonces)
    requires BalanceOf(AskRested().g.ledger, BUYER, CFG.quote) == TokenBalance(0, 0)
    ensures var g := Waiting().g;
            && Rests(g, TEN, 2) && g.acceptedNonces == {ASK.Hash()} && Waiting().log == [] && ExpireAtZero(g.db.nonces)
            && BalanceOf(g.ledger, BUYER, CFG.quote) == TokenBalance(20, 0)
            && |Waiting().deposits| == 2
  {
    hide WithBalance, BalanceOf, OrderSubmitted, NewTrades, CancelRequested, Restarted, SettledBatch, Deposited,
      AskRested;
    OneDeposit();
  }

  lemma OneDeposit()
    ensures |AskRested().deposits| == 1
  {
    hide OrderSubmitted, NewTrades, BalanceOf, WithBalance, Deposited;
  }

  // ----- One fill -----

  lemma BuyMatches(e: EngineState, left: nat, q: nat, limit: Option<nat>)
    requires e.asks == [EngineOrder(1, Sell, 2, left)] && 0 < q <= left && (limit == None || limit == Some(2))
    ensures Match(Sell, e.asks, limit, e.nextId, q)
            == Matched([EngineFill(1, e.nextId, 2, q)], if q < left then [EngineOrder(1, Sell, 2, left - q)] else [], 0)
    ensures Total(e.asks) == left && Depth(Sell, e.asks, Some(1)) == 0
  {
    assert e.asks[1..] == [];
    MatchTurn(Sell, e.asks, limit, e.nextId, q);
    MatchIdle(Sell, AfterTake(e.asks, q), limit, e.nextId, 0);
  }

  /** A buy of part of the ask, reserved at its own price and filled at 2. */
  lemma BuyFills(g: Gateway, left: nat, nextId: nat, order: SignedOrder, orderType: OrderType)
    requires Rests(g, left, nextId) && order.side.Buy? && order.maker == BUYER && order.signature == Some(BUYER)
    requires order.expiry == 100 && order.price > 0
    requires 0 < order.quantity < left && (orderType.Market? || order.price == 2)
    requires order.Hash() !in g.acceptedNonces
    requires CanReserve(g.ledger, BUYER, OwnCollateralToken(order), Quote(order.quantity, order.price))
    ensures MakersKnown(g.engine, g.orderMap)
    ensures NewTrades(g, CFG, order, orderType, 0) == [TradeOf(order, ASK, EngineFill(1, nextId, 2, order.quantity), 0)]
    ensures var h := OrderSubmitted(g, CFG, order, orderType, 0).0;
            var b := AfterReserve(g.ledger, BUYER, OwnCollateralToken(order), Quote(order.quantity, order.price));
            && OrderSubmitted(g, CFG, order, orderType, 0).1.Accepted?
            && h.engine == EngineState([], [EngineOrder(1, Sell, 2, left - order.quantity)], nextId + 1)
            && h.ledger == FillApplied(b, CFG, order, SELLER, EngineFill(1, nextId, 2, order.quantity))
            && h.orderMap == g.orderMap && h.orderNonceMap == g.orderNonceMap && h.db.orders == g.db.orders
            && h.acceptedNonces == g.acceptedNonces + {order.Hash()}
            && (ExpireAtZero(g.db.nonces) ==> ExpireAtZero(h.db.nonces))
  {
    hide WithBalance, BalanceOf, TradesInserted, RowsOf, E18, FillApplied, FillsApplied, TradesOf, ClientFills, Quote,
      FilledMakers, CanReserve;
    var fill := EngineFill(1, nextId, 2, order.quantity);
    var fills := [fill];
    BuyMatches(g.engine, left, order.quantity, LimitOf(orderType, order.price));
    assert EngineOrder(1, Sell, 2, left) in g.engine.asks;
    var b := AfterReserve(g.ledger, BUYER, OwnCollateralToken(order), Quote(order.quantity, order.price));
    assert fills[1..] == [];
    UnfoldFills(b, CFG, order, g.orderMap, fills, nextId, order.quantity, 0);
    UnfoldNoFills(FillApplied(b, CFG, order, SELLER, fill), CFG, order, g.orderMap, fills[1..], nextId, 0, 0);
    var e := EngineState([], [EngineOrder(1, Sell, 2, left - order.quantity)], nextId + 1);
    assert EngineOrder(1, Sell, 2, left - order.quantity) in e.asks && 1 in e.AllIds();
    UnfoldFilledMakers(fills, e);
    UnfoldNoFilledMakers(fills[1..], e);
    NothingMarked(g.db.orders);
  }

  lemma NothingMarked(orders: map<OrderId, OrderRow>)
    ensures OrdersMarked(orders, [], Filled) == orders
  {
  }

  lemma Amounts()
    ensures Quote(FOUR, 1) == 4 && Quote(FOUR, 2) == 8 && Quote(E18, 1) == 1 && Quote(E18, 2) == 2
            && Quote(TEN, 2) == 20
    ensures Fits(FOUR, 1) && Fits(FOUR, 2) && Fits(E18, 1) && Fits(E18, 2) && Fits(TEN, 2)
  {
  }

  /** What a fill of the ask does to the buyer's quote balance and the seller's base balance. */
  lemma FillBalances(b: Balances, order: SignedOrder, fill: EngineFill)
    requires order.side.Buy? && order.maker == BUYER && order.price <= fill.price
    ensures var c := FillApplied(b, CFG, order, SELLER, fill);
            var paid := Quote(fill.quantity, fill.price);
            && BalanceOf(c, BUYER, CFG.quote)
               == TokenBalance(BalanceOf(b, BUYER, CFG.quote).available,
                               WrappingSub(BalanceOf(b, BUYER, CFG.quote).reserved, paid))
            && BalanceOf(c, SELLER, CFG.base)
               == TokenBalance(BalanceOf(b, SELLER, CFG.base).available,
                               WrappingSub(BalanceOf(b, SELLER, CFG.base).reserved, fill.quantity))
  {
    hide WithBalance, BalanceOf, Quote, WrappingSub;
  }

  // ----- A market buy does not look at its price -----

  /** Ten units rest at 2. A market buy of four at price 1 reserves four and pays eight: its reserve
      wraps around. */
  lemma MarketBuyBelowTheAskWraps()
    ensures var w, order := Waiting(), Bid(FOUR, 1, 2);
            var w' := Next(w, CFG, SubmitEvent(order, Market, 0));
            && ReachedWithin(CFG, w) && Reached(CFG, w')
            && OnPair(CFG, order) && SizeFits(order) && !PriceHolds(w.g.engine, order, Market)
            && BalanceOf(w'.g.ledger, BUYER, CFG.quote).reserved == TWO_256 - 4
  {
    hide Next, Quote, FillApplied, WithBalance, BalanceOf, OrderSubmitted, NewTrades, ReachedWithin, Reached, Waiting;
    var w, order := Waiting(), Bid(FOUR, 1, 2);
    WaitingIs();
    Amounts();
    BuyFills(w.g, TEN, 2, order, Market);
    Submitted(w, order, Market);
    FillBalances(AfterReserve(w.g.ledger, BUYER, CFG.quote, 4), order, EngineFill(1, 2, 2, FOUR));
    BuyMatches(w.g.engine, TEN, FOUR, None);
    WithinIsReached(CFG, w);
    ReachedSteps(CFG, w, SubmitEvent(order, Market, 0));
    assert WrappingSub(4, 8) == TWO_256 - 4;
  }

  // ----- Collateral and rows remember the quantity an order came to rest with -----

  lemma PartlyFilledIs()
    ensures ReachedWithin(CFG, PartlyFilled()) && Healthy(PartlyFilled().g, CFG)
    ensures Rests(PartlyFilled().g, SIX, 3)
    ensures PartlyFilled().log == [TradeOf(Bid(FOUR, 2, 2), ASK, EngineFill(1, 2, 2, FOUR), 0)]
    ensures PartlyFilled().g.acceptedNonces == {ASK.Hash(), Bid(FOUR, 2, 2).Hash()}
    ensures ExpireAtZero(PartlyFilled().g.db.nonces)
    ensures BalanceOf(PartlyFilled().g.ledger, BUYER, CFG.quote) == TokenBalance(12, 0)
  {
    hide Next, Quote, FillApplied, WithBalance, BalanceOf, OrderSubmitted, NewTrades, ReachedWithin, Reached, Waiting,
      Healthy, Safe;
    var w, order := Waiting(), Bid(FOUR, 2, 2);
    WaitingIs();
    Amounts();
    BuyFills(w.g, TEN, 2, order, Limit);
    Submitted(w, order, Limit);
    FillBalances(AfterReserve(w.g.ledger, BUYER, CFG.quote, 8), order, EngineFill(1, 2, 2, FOUR));
    ReachedWithinSteps(CFG, w, SubmitEvent(order, Limit, 0));
    GuardedRunsAreGood(CFG, PartlyFilled());
  }

  /** Four of ten units were sold and six are reserved. Cancelling releases ten: the reserve wraps
      around, and the seller has ten available. */
  lemma CancelAfterPartialFillWraps()
    ensures var w, e := PartlyFilled(), CancelEvent(1, Some(SELLER), Some(1));
            && ReachedWithin(CFG, w) && Reached(CFG, Next(w, CFG, e))
            && w.log == [TradeOf(Bid(FOUR, 2, 2), ASK, EngineFill(1, 2, 2, FOUR), 0)]
            && BalanceOf(w.g.ledger, SELLER, CFG.base) == TokenBalance(0, SIX)
            && BalanceOf(Next(w, CFG, e).g.ledger, SELLER, CFG.base) == TokenBalance(TEN, TWO_256 - FOUR)
  {
    hide WithBalance, BalanceOf, ReachedWithin, Reached, PartlyFilled, Healthy, RowsOf, OrderSubmitted, NewTrades,
      Restarted, SettledBatch, OrderCancelled;
    var w, e := PartlyFilled(), CancelEvent(1, Some(SELLER), Some(1));
    PartlyFilledIs();
    WithinIsReached(CFG, w);
    ReachedSteps(CFG, w, e);
    assert EngineOrder(1, Sell, 2, SIX) in w.g.engine.asks && 1 in w.g.engine.AllIds();
    assert Next(w, CFG, e).g.ledger == Released(w.g.ledger, SELLER, CFG.base, TEN);
    assert WrappingSub(SIX, TEN) == TWO_256 - FOUR;
  }

  /** A restart instead puts all ten units back on the book over a reserve of six. */
  lemma RestartAfterPartialFillIsUncovered()
    ensures var w := PartlyFilled();
            var w' := Next(w, CFG, RestartEvent(0));
            && ReachedWithin(CFG, w) && Reached(CFG, w')
            && w'.g.engine.asks == [EngineOrder(1, Sell, 2, TEN)]
            && BalanceOf(w'.g.ledger, SELLER, CFG.base).reserved == SIX
            && !Solvent(w'.g.ledger, CFG, w'.g.engine, w'.g.orderMap)
  {
    hide BalanceOf, ReachedWithin, Reached, PartlyFilled, Consistent, RowsOf, OrderSubmitted, NewTrades, Restarted,
      SettledBatch, CancelRequested, Solvent, RowsCovered, RowNeeds, Locked;
    var w := PartlyFilled();
    PartlyFilledIs();
    WithinIsReached(CFG, w);
    ReachedSteps(CFG, w, RestartEvent(0));
    var h := Restarted(w.g.db, CFG, 0);
    RestartRebuildsBook(w.g, CFG, 0);
    RestartKeepsConsistent(w.g, CFG, 0);
    RestartSafeIff(w.g, CFG, 0);
    assert w.g.engine.On(Sell) == [EngineOrder(1, Sell, 2, SIX)];
    assert h.engine.asks == h.engine.On(Sell) == Rebuilt(w.g.engine.On(Sell), w.g.db.orders, 0);
    RebuiltOne(EngineOrder(1, Sell, 2, SIX), w.g.db.orders, 0);
    assert BalanceOf(h.ledger, SELLER, CFG.base) == BalanceOf(w.g.ledger, SELLER, CFG.base);
    OneRowNeeds(w.g);
    assert !RowsCovered(w.g.ledger, CFG, w.g.db.orders, 0) by {
      assert CFG.Locks(Sell) == CFG.base;
      UncoveredBy(w.g.ledger, w.g.db.orders);
    }
  }

  lemma OneRowNeeds(g: Gateway)
    requires g.db.orders == map[1 := OrderRow(ASK, TEN, Resting)]
    ensures SumOver<OrderId>(g.db.orders.Keys, RowNeeds(g.db.orders, Sell, SELLER, 0)) == TEN
  {
    var needs := RowNeeds(g.db.orders, Sell, SELLER, 0);
    assert g.db.orders.Keys == {1};
    SumPick<OrderId>(g.db.orders.Keys, needs, 1);
    assert g.db.orders.Keys - {1} == {};
  }

  lemma UncoveredBy(b: Balances, orders: map<OrderId, OrderRow>)
    requires SumOver<OrderId>(orders.Keys, RowNeeds(orders, Sell, SELLER, 0)) > BalanceOf(b, SELLER, CFG.base).reserved
    ensures !RowsCovered(b, CFG, orders, 0)
  {
    assert CFG.Locks(Sell) == CFG.base;
  }

  lemma RebuiltOne(o: EngineOrder, orders: map<OrderId, OrderRow>, now: nat)
    requires o.id in orders && !Stale(orders[o.id].order, now)
    ensures Rebuilt([o], orders, now) == [o.(quantity := orders[o.id].restingQuantity)]
  {
    assert [o][1..] == [];
  }

  // ----- An order filled twice -----

  /** One more unit of the same ask is sold: whatever the contract holds and whatever the time, the two
      trades never settle together, although every step of the run is within the guards. */
  lemma AskFilledTwiceReverts(c: Chain, later: nat)
    ensures var w := Next(PartlyFilled(), CFG, SubmitEvent(Bid(E18, 2, 3), Limit, 0));
            ReachedWithin(CFG, w) && |w.log| == 2 && SettledBatch(c, w.log, later).Reverted?
  {
    hide Next, Quote, FillApplied, WithBalance, BalanceOf, OrderSubmitted, NewTrades, ReachedWithin, PartlyFilled,
      Healthy, SettledBatch;
    var w, order := PartlyFilled(), Bid(E18, 2, 3);
    PartlyFilledIs();
    Amounts();
    BuyFills(w.g, SIX, 3, order, Limit);
    Submitted(w, order, Limit);
    ReachedWithinSteps(CFG, w, SubmitEvent(order, Limit, 0));
    var log := Next(w, CFG, SubmitEvent(order, Limit, 0)).log;
    assert ASK.NonceKey() in KeysOf(log[0]) && ASK.NonceKey() in KeysOf(log[1]);
    RepeatedKeyReverts(c, log, later, 0, 1);
  }

  // ----- Cancelling by nonce alone -----

  /** A bid of one unit at price 1, above nothing it could meet. */
  function LowBid(maker: Address): SignedOrder {
    SignedOrder(Buy, maker, CFG.base, CFG.quote, 1, E18, 1, 100, Some(maker))
  }

  lemma LowBidRests(g: Gateway, maker: Address)
    requires g.engine.bids == [] && (g.engine.asks == [] || g.engine.asks[0].price > 1)
    requires MakersKnown(g.engine, g.orderMap) && LowBid(maker).Hash() !in g.acceptedNonces
    requires CanReserve(g.ledger, maker, CFG.quote, 1)
    ensures var h, id := OrderSubmitted(g, CFG, LowBid(maker), Limit, 0).0, g.engine.nextId;
            && h.engine == EngineState([EngineOrder(id, Buy, 1, E18)], g.engine.asks, id + 1)
            && h.orderNonceMap == g.orderNonceMap[id := NonceEntry(maker, 1, CFG.quote, 1)]
  {
    hide WithBalance, BalanceOf, RowsOf, FillApplied, Quote, OrderFillSaved, MakersKnown, CanReserve, Tagged,
      FilledMakers;
    Amounts();
    MatchIdle(Sell, g.engine.asks, Some(1), g.engine.nextId, E18);
    UnfoldNoFills(AfterReserve(g.ledger, maker, CFG.quote, 1), CFG, LowBid(maker), g.orderMap, [], g.engine.nextId,
                  E18, 0);
  }

  /** The buyer bids under the nonce that the seller's ask uses. Its order 2 rests, but a cancel by that
      nonce may find the seller's order 1: the buyer is told that it is not the maker. */
  lemma ShadowedCancelIsRefused()
    ensures var w := Next(Waiting(), CFG, SubmitEvent(LowBid(BUYER), Limit, 0));
            && ReachedWithin(CFG, w)
            && w.g.engine.bids == [EngineOrder(2, Buy, 1, E18)]
            && 2 in w.g.orderNonceMap && w.g.orderNonceMap[2] == NonceEntry(BUYER, 1, CFG.quote, 1)
            && MayFind(w.g.orderNonceMap, 1, Some(1))
            && CancelRequested(w.g, 1, Some(BUYER), Some(1)).1 == CancelRefused(SignerIsNotOrderMaker)
  {
    hide Next, OrderSubmitted, NewTrades, ReachedWithin, Waiting, BalanceOf, Quote;
    WaitingIs();
    Amounts();
    AskIsKnown(Waiting().g);
    LowBidRests(Waiting().g, BUYER);
    Submitted(Waiting(), LowBid(BUYER), Limit);
    ReachedWithinSteps(CFG, Waiting(), SubmitEvent(LowBid(BUYER), Limit, 0));
  }

  lemma AskIsKnown(g: Gateway)
    requires Rests(g, TEN, 2)
    ensures MakersKnown(g.engine, g.orderMap)
  {
  }

  /** All ten units are sold. */
  ghost function SoldOut(): World {
    Next(Waiting(), CFG, SubmitEvent(Bid(TEN, 2, 2), Limit, 0))
  }

  lemma SellsOut(g: Gateway)
    requires Rests(g, TEN, 2) && g.acceptedNonces == {ASK.Hash()}
    requires BalanceOf(g.ledger, BUYER, CFG.quote) == TokenBalance(20, 0)
    ensures MakersKnown(g.engine, g.orderMap)
    ensures var h := OrderSubmitted(g, CFG, Bid(TEN, 2, 2), Limit, 0).0;
            && h.engine == EngineState([], [], 3)
            && h.ledger == FillApplied(AfterReserve(g.ledger, BUYER, CFG.quote, 20), CFG, Bid(TEN, 2, 2), SELLER,
                                       EngineFill(1, 2, 2, TEN))
            && h.orderNonceMap == g.orderNonceMap
            && h.acceptedNonces == {ASK.Hash(), Bid(TEN, 2, 2).Hash()}
  {
    hide WithBalance, BalanceOf, RowsOf, E18, FillApplied, FillsApplied, TradesOf, ClientFills, Quote, FilledMakers,
      OrderFillSaved, Tagged;
    var order, fill := Bid(TEN, 2, 2), EngineFill(1, 2, 2, TEN);
    var fills := [fill];
    Amounts();
    Positive();
    BuyMatches(g.engine, TEN, TEN, Some(2));
    assert EngineOrder(1, Sell, 2, TEN) in g.engine.asks;
    var b := AfterReserve(g.ledger, BUYER, CFG.quote, 20);
    assert fills[1..] == [];
    UnfoldFills(b, CFG, order, g.orderMap, fills, 2, TEN, 0);
    UnfoldNoFills(FillApplied(b, CFG, order, SELLER, fill), CFG, order, g.orderMap, fills[1..], 2, 0, 0);
  }

  lemma FillPaysSeller(b: Balances, order: SignedOrder, fill: EngineFill)
    requires order.side.Buy? && order.maker == BUYER && order.price <= fill.price
    ensures BalanceOf(FillApplied(b, CFG, order, SELLER, fill), SELLER, CFG.quote).available
            >= Quote(fill.quantity, fill.price)
  {
    hide WithBalance, BalanceOf, Quote, WrappingSub;
  }

  /** The seller's ask was filled and left its entry behind. The seller bids under the same nonce; its
      order 3 rests, but a cancel may find order 1: the seller is told that it is not on the book. */
  lemma LeftoverEntryIsRefused()
    ensures var w := Next(SoldOut(), CFG, SubmitEvent(LowBid(SELLER), Limit, 0));
            && ReachedWithin(CFG, w)
            && w.g.engine.bids == [EngineOrder(3, Buy, 1, E18)]
            && 3 in w.g.orderNonceMap && w.g.orderNonceMap[3] == NonceEntry(SELLER, 1, CFG.quote, 1)
            && MayFind(w.g.orderNonceMap, 1, Some(1))
            && CancelRequested(w.g, 1, Some(SELLER), Some(1)).1 == CancelRefused(NotOnBook)
  {
    hide Next, OrderSubmitted, NewTrades, ReachedWithin, Waiting, BalanceOf, Quote, FillApplied, WithBalance;
    var w, order := Waiting(), Bid(TEN, 2, 2);
    WaitingIs();
    Amounts();
    SellsOut(w.g);
    Submitted(w, order, Limit);
    FillPaysSeller(AfterReserve(w.g.ledger, BUYER, CFG.quote, 20), order, EngineFill(1, 2, 2, TEN));
    ReachedWithinSteps(CFG, w, SubmitEvent(order, Limit, 0));
    LowBidRests(SoldOut().g, SELLER);
    Submitted(SoldOut(), LowBid(SELLER), Limit);
    ReachedWithinSteps(CFG, SoldOut(), SubmitEvent(LowBid(SELLER), Limit, 0));
  }

  // ----- A restart forgets what has expired -----

  lemma RestartedIs(w: World, now: nat)
    ensures Next(w, CFG, RestartEvent(now)).g == Restarted(w.g.db, CFG, now)
  {
    hide Restarted, OrderSubmitted, NewTrades, CancelRequested, SettledBatch;
  }

  lemma OnlyAskIsRestored(g: Gateway, row: RestingOrder)
    requires g.db.orders == map[1 := OrderRow(ASK, TEN, Resting)] && row in RestingOrders(g.db.orders)
    ensures row.order == ASK
  {
    RestingOrdersAre(g.db.orders);
  }

  /** The buyer's order was filled completely. Restarted once its nonce row has expired, the gateway has
      nothing against taking it again. */
  lemma FilledOrderIsTakenAgain()
    ensures var w, order := PartlyFilled(), Bid(FOUR, 2, 2);
            var w' := Next(w, CFG, RestartEvent(1));
            && ReachedWithin(CFG, w) && Reached(CFG, w')
            && order.Hash() in w.g.acceptedNonces
            && Refusal(w'.g.acceptedNonces, order, Limit, 1) == None
  {
    hide Next, ReachedWithin, Reached, PartlyFilled, Restarted, BalanceOf, RestingOrders;
    var w, order := PartlyFilled(), Bid(FOUR, 2, 2);
    PartlyFilledIs();
    WithinIsReached(CFG, w);
    ReachedSteps(CFG, w, RestartEvent(1));
    RestartedIs(w, 1);
    RememberedIff(w.g.db, CFG, 1, order.Hash());
    forall row | row in RestingOrders(w.g.db.orders) ensures row.order.Hash() != order.Hash() {
      OnlyAskIsRestored(w.g, row);
    }
  }

  // ----- An order that names another token -----

  const OTHER: Address := Address(5)
  const FOREIGN: SignedOrder := SignedOrder(Buy, BUYER, CFG.base, OTHER, 2, FOUR, 2, 100, Some(BUYER))

  ghost function OtherDeposited(): World {
    Next(Waiting(), CFG, DepositEvent(Deposit(BUYER, OTHER, 8, 3)))
  }

  /** The buyer also holds eight of another token. */
  ghost function OtherCredited(): World {
    Next(OtherDeposited(), CFG, CreditEvent(2))
  }

  lemma OtherCreditedIs()
    ensures ReachedWithin(CFG, OtherCredited())
    ensures var g := OtherCredited().g;
            && Rests(g, TEN, 2) && g.acceptedNonces == {ASK.Hash()}
            && BalanceOf(g.ledger, BUYER, CFG.quote) == TokenBalance(20, 0)
            && CanReserve(g.ledger, BUYER, OTHER, 8)
  {
    hide WithBalance, BalanceOf, OrderSubmitted, NewTrades, CancelRequested, Restarted, SettledBatch, Deposited,
      Waiting, ReachedWithin, Within;
    WaitingIs();
    assert Within(Waiting(), CFG, DepositEvent(Deposit(BUYER, OTHER, 8, 3)))
        && Within(OtherDeposited(), CFG, CreditEvent(2)) by {
      AlwaysWithin(Waiting());
      AlwaysWithin(OtherDeposited());
    }
    ReachedWithinSteps(CFG, Waiting(), DepositEvent(Deposit(BUYER, OTHER, 8, 3)));
    ReachedWithinSteps(CFG, OtherDeposited(), CreditEvent(2));
  }

  lemma AlwaysWithin(w: World)
    ensures forall d :: Within(w, CFG, DepositEvent(d))
    ensures forall index :: Within(w, CFG, CreditEvent(index))
  {
  }

  /** A buy that names another quote token reserves eight of that, and its fill takes eight of the
      configured one, of which nothing is reserved: the reserve wraps around. */
  lemma ForeignTokenWraps()
    ensures var w := OtherCredited();
            var w' := Next(w, CFG, SubmitEvent(FOREIGN, Limit, 0));
            && ReachedWithin(CFG, w) && Reached(CFG, w')
            && SizeFits(FOREIGN) && PriceHolds(w.g.engine, FOREIGN, Limit) && !OnPair(CFG, FOREIGN)
            && BalanceOf(w'.g.ledger, BUYER, CFG.quote).reserved == TWO_256 - 8
  {
    hide Next, Quote, FillApplied, WithBalance, BalanceOf, OrderSubmitted, NewTrades, ReachedWithin, Reached,
      OtherCredited, CanReserve;
    var w := OtherCredited();
    OtherCreditedIs();
    Amounts();
    BuyFills(w.g, TEN, 2, FOREIGN, Limit);
    Submitted(w, FOREIGN, Limit);
    FillBalances(AfterReserve(w.g.ledger, BUYER, OTHER, 8), FOREIGN, EngineFill(1, 2, 2, FOUR));
    WithinIsReached(CFG, w);
    ReachedSteps(CFG, w, SubmitEvent(FOREIGN, Limit, 0));
    assert WrappingSub(0, 8) == TWO_256 - 8;
  }
}
