/** Collateral: what the book locks, and why every subtraction the ledger makes while an order is
    filled stays above zero. */
module Solvency {
  import opened Types
  import opened Arithmetic
  import opened PriorityBook
  import opened MatchingEngines
  import opened Ledgers
  import opened Gateways
  import opened TradeLog

  /** What the orders of `u` in this list need: the quantity for asks, the quote value for bids. */
  ghost function Locked(s: Side, f: seq<EngineOrder>, owners: map<OrderId, SignedOrder>, u: Address): nat {
    if f == [] then 0 else
      (if f[0].id in owners && owners[f[0].id].maker == u then Collateral(s, f[0].quantity, f[0].price) else 0)
      + Locked(s, f[1..], owners, u)
  }

  /** Reserves in `token` cover the list, with `extra` to spare for `taker`. */
  ghost predicate Covers(b: Balances, token: Address, s: Side, f: seq<EngineOrder>, owners: map<OrderId, SignedOrder>,
                         taker: Address, extra: nat)
  {
    forall u :: BalanceOf(b, u, token).reserved >= Locked(s, f, owners, u) + (if u == taker then extra else 0)
  }

  /** Every user's reserves cover that user's orders on the book. */
  ghost predicate Solvent(b: Balances, cfg: Config, e: EngineState, owners: map<OrderId, SignedOrder>) {
    forall u, s :: BalanceOf(b, u, cfg.Locks(s)).reserved >= Locked(s, e.On(s), owners, u)
  }

  /** The products behind bids fit in a word. */
  ghost predicate BidsFit(s: Side, f: seq<EngineOrder>) {
    s.Buy? ==> forall o :: o in f ==> Fits(o.quantity, o.price)
  }

  // ----- Splitting collateral -----

  lemma MakerSplit(s: Side, q: nat, p: nat, t: nat)
    requires t <= q && (s.Buy? ==> Fits(q, p))
    ensures Collateral(s, t, p) + Collateral(s, q - t, p) <= Collateral(s, q, p)
  {
    if s.Buy? {
      QuoteSplitsQuantity(t, q - t, p);
    }
  }

  /** A fill of a buyer uses the reserve of the filled quantity: what is paid, what is released for
      the better price, and at most two units of dust. */
  lemma TakerSplit(r: nat, limit: nat, t: nat, p: nat)
    requires t <= r && p <= limit && Fits(r, limit)
    ensures var used := Quote(t, p) + Quote(t, limit - p);
            used + Quote(r - t, limit) <= Quote(r, limit) <= used + Quote(r - t, limit) + 2
  {
    FitsSmaller(r, limit, t, limit);
    QuoteSplitsQuantity(t, r - t, limit);
    QuoteSplitsPrice(t, p, limit - p);
  }

  lemma LockedAfterTake(s: Side, f: seq<EngineOrder>, owners: map<OrderId, SignedOrder>, t: nat, u: Address)
    requires f != [] && t <= f[0].quantity && BidsFit(s, f) && f[0].id in owners
    ensures Locked(s, AfterTake(f, t), owners, u)
            + (if u == owners[f[0].id].maker then Collateral(s, t, f[0].price) else 0)
            <= Locked(s, f, owners, u)
  {
    assert f[0] in f;
    MakerSplit(s, f[0].quantity, f[0].price, t);
    if t < f[0].quantity {
      assert AfterTake(f, t)[1..] == f[1..];
    }
  }

  lemma BidsFitAfterTake(s: Side, f: seq<EngineOrder>, t: nat)
    requires f != [] && t <= f[0].quantity && BidsFit(s, f)
    ensures BidsFit(s, AfterTake(f, t))
  {
    if s.Buy? {
      assert f[0] in f;
      FitsSmaller(f[0].quantity, f[0].price, f[0].quantity - t, f[0].price);
      assert forall o :: o in f[1..] ==> o in f;
    }
  }

  // ----- One fill -----

  /** The taker still holds collateral for `r` units, and both sides of the book are covered. */
  ghost predicate Underway(b: Balances, cfg: Config, order: SignedOrder, f: seq<EngineOrder>, own: seq<EngineOrder>,
                           owners: map<OrderId, SignedOrder>, r: nat)
  {
    var opp := order.side.Opposite();
    && cfg.base != cfg.quote
    && Covers(b, cfg.Locks(opp), opp, f, owners, order.maker, 0)
    && Covers(b, cfg.Locks(order.side), order.side, own, owners, order.maker, Collateral(order.side, r, order.price))
    && BidsFit(opp, f)
    && (order.side.Buy? ==> Fits(r, order.price))
  }

  lemma FillCanSettle(b: Balances, cfg: Config, order: SignedOrder, f: seq<EngineOrder>, own: seq<EngineOrder>,
                      owners: map<OrderId, SignedOrder>, r: nat, fill: EngineFill)
    requires Underway(b, cfg, order, f, own, owners, r)
    requires f != [] && f[0].id in owners && fill.price == f[0].price
    requires fill.quantity <= r && fill.quantity <= f[0].quantity
    requires order.side.Buy? ==> fill.price <= order.price
    ensures var m := owners[f[0].id].maker;
            CanSettle(b, Seller(order, m), Buyer(order, m), cfg.base, cfg.quote, fill.quantity,
                      Quote(fill.quantity, fill.price))
  {
    LockedAfterTake(order.side.Opposite(), f, owners, fill.quantity, owners[f[0].id].maker);
    if order.side.Buy? {
      TakerSplit(r, order.price, fill.quantity, fill.price);
    }
  }

  /** What one fill does to reserves and holdings when nothing wraps. */
  lemma FillEffect(b: Balances, cfg: Config, order: SignedOrder, m: Address, fill: EngineFill, u: Address, t: Address)
    requires CanSettle(b, Seller(order, m), Buyer(order, m), cfg.base, cfg.quote, fill.quantity,
                       Quote(fill.quantity, fill.price))
    requires order.side.Buy? ==>
               Quote(fill.quantity, fill.price) + Surplus(order, fill) <= BalanceOf(b, order.maker, cfg.quote).reserved
    ensures var c := FillApplied(b, cfg, order, m, fill);
            && BalanceOf(c, u, t).reserved == BalanceOf(b, u, t).reserved
                 - (if u == Seller(order, m) && t == cfg.base then fill.quantity else 0)
                 - (if u == Buyer(order, m) && t == cfg.quote then Quote(fill.quantity, fill.price) else 0)
                 - (if u == order.maker && t == cfg.quote then Surplus(order, fill) else 0)
            && BalanceOf(c, u, t).Total() == BalanceOf(b, u, t).Total()
                 + TradeDelta(Seller(order, m), Buyer(order, m), cfg.base, cfg.quote,
                              fill.quantity, Quote(fill.quantity, fill.price), u, t)
  {
    hide Quote, FillSettled, WithBalance;
    var seller, buyer, amount := Seller(order, m), Buyer(order, m), Quote(fill.quantity, fill.price);
    FillSettledExactly(b, seller, buyer, cfg.base, cfg.quote, fill.quantity, amount, u, t);
    FillSettledExactly(b, seller, buyer, cfg.base, cfg.quote, fill.quantity, amount, order.maker, cfg.quote);
  }

  /** One fill keeps both sides covered and leaves the taker's collateral for the rest. */
  lemma FillKeepsUnderway(b: Balances, cfg: Config, order: SignedOrder, f: seq<EngineOrder>, own: seq<EngineOrder>,
                          owners: map<OrderId, SignedOrder>, r: nat, fill: EngineFill)
    requires Underway(b, cfg, order, f, own, owners, r)
    requires f != [] && f[0].id in owners && fill.price == f[0].price
    requires fill.quantity <= r && fill.quantity <= f[0].quantity
    requires order.side.Buy? ==> fill.price <= order.price
    ensures Underway(FillApplied(b, cfg, order, owners[f[0].id].maker, fill), cfg, order,
                     AfterTake(f, fill.quantity), own, owners, r - fill.quantity)
    ensures order.side.Buy? ==>
              Quote(fill.quantity, fill.price) + Surplus(order, fill) <= BalanceOf(b, order.maker, cfg.quote).reserved
  {
    hide Quote, FillApplied, Locked, WithBalance, BalanceOf;
    var m, opp, t := owners[f[0].id].maker, order.side.Opposite(), fill.quantity;
    var c := FillApplied(b, cfg, order, m, fill);
    FillCanSettle(b, cfg, order, f, own, owners, r, fill);
    TakerAffords(b, cfg, order, f, own, owners, r, fill);
    BidsFitAfterTake(opp, f, t);
    if order.side.Buy? {
      FitsSmaller(r, order.price, r - t, order.price);
    }
    forall u ensures BalanceOf(c, u, cfg.Locks(opp)).reserved >= Locked(opp, AfterTake(f, t), owners, u) {
      FillEffect(b, cfg, order, m, fill, u, cfg.Locks(opp));
      LockedAfterTake(opp, f, owners, t, u);
    }
    forall u ensures BalanceOf(c, u, cfg.Locks(order.side)).reserved
                     >= Locked(order.side, own, owners, u)
                         + (if u == order.maker then Collateral(order.side, r - t, order.price) else 0)
    {
      FillEffect(b, cfg, order, m, fill, u, cfg.Locks(order.side));
    }
  }

  /** The taker's own reserve pays for the fill, releases the surplus, and still covers the rest. */
  lemma TakerAffords(b: Balances, cfg: Config, order: SignedOrder, f: seq<EngineOrder>, own: seq<EngineOrder>,
                     owners: map<OrderId, SignedOrder>, r: nat, fill: EngineFill)
    requires Underway(b, cfg, order, f, own, owners, r) && fill.quantity <= r
    requires order.side.Buy? ==> fill.price <= order.price
    ensures Collateral(order.side, fill.quantity, fill.price) + Surplus(order, fill)
            + Collateral(order.side, r - fill.quantity, order.price) <= Collateral(order.side, r, order.price)
    ensures order.side.Buy? ==>
              Quote(fill.quantity, fill.price) + Surplus(order, fill) <= BalanceOf(b, order.maker, cfg.quote).reserved
  {
    if order.side.Buy? {
      TakerSplit(r, order.price, fill.quantity, fill.price);
      assert BalanceOf(b, order.maker, cfg.quote).reserved >= Quote(r, order.price);
    }
  }

  // ----- All fills of an order -----

  /** Amounts a buying taker pays and gets released over its fills. */
  ghost function Paid(fills: seq<EngineFill>): nat {
    if fills == [] then 0 else Quote(fills[0].quantity, fills[0].price) + Paid(fills[1..])
  }

  ghost function Surpluses(order: SignedOrder, fills: seq<EngineFill>): nat {
    if fills == [] then 0 else Surplus(order, fills[0]) + Surpluses(order, fills[1..])
  }

  /** A buyer's fills are no dearer than its price. */
  ghost predicate KeepsToPrice(order: SignedOrder, fills: seq<EngineFill>) {
    order.side.Buy? ==> forall fill :: fill in fills ==> fill.price <= order.price
  }

  /** The makers on the opposite side are on record as orders of that side. */
  ghost predicate OwnersKnown(s: Side, f: seq<EngineOrder>, owners: map<OrderId, SignedOrder>) {
    forall o :: o in f ==> o.id in owners && owners[o.id].side == s
  }

  lemma OwnersKnownAfterTake(s: Side, f: seq<EngineOrder>, owners: map<OrderId, SignedOrder>, t: nat)
    requires f != [] && t <= f[0].quantity && OwnersKnown(s, f, owners)
    ensures OwnersKnown(s, AfterTake(f, t), owners)
  {
    assert f[0] in f && forall o :: o in f[1..] ==> o in f;
  }

  ghost function TotalsOf(b: Balances): Holdings {
    (u, t) => BalanceOf(b, u, t).Total()
  }

  /** Running the loop over the fills of an order. */
  ghost predicate FillsGood(b: Balances, c: Balances, cfg: Config, order: SignedOrder, fills: seq<EngineFill>,
                            trades: seq<Trade>) {
    && (forall u, t :: TotalsOf(c)(u, t) == TotalsOf(b)(u, t) + Net(cfg.base, cfg.quote, trades, u, t))
    && Backed(cfg.base, cfg.quote, TotalsOf(b), trades)
    && (order.side.Buy? ==> BalanceOf(c, order.maker, cfg.quote).reserved
                            == BalanceOf(b, order.maker, cfg.quote).reserved - Paid(fills) - Surpluses(order, fills))
  }

  /** One turn of the loop over an order's fills: the first fill, and the orders and owners it leaves to
      the next turn. */
  lemma FillTurn(order: SignedOrder, f: seq<EngineOrder>, owners: map<OrderId, SignedOrder>, limit: Option<nat>,
                 taker: OrderId, r: nat) returns (fill: EngineFill)
    requires r > 0 && f != [] && Acceptable(order.side.Opposite(), limit, f[0].price)
    requires OwnersKnown(order.side.Opposite(), f, owners)
    ensures fill == EngineFill(f[0].id, taker, f[0].price, Min(r, f[0].quantity))
    ensures f[0].id in owners && owners[f[0].id].side == order.side.Opposite()
    ensures OwnersKnown(order.side.Opposite(), AfterTake(f, fill.quantity), owners)
    ensures |AfterTake(f, fill.quantity)| < |f| || (|AfterTake(f, fill.quantity)| == |f| && fill.quantity > 0)
    ensures var m := Match(order.side.Opposite(), f, limit, taker, r);
            var rest := Match(order.side.Opposite(), AfterTake(f, fill.quantity), limit, taker, r - fill.quantity);
            && m == rest.(fills := [fill] + rest.fills)
            && (KeepsToPrice(order, m.fills) ==>
                  KeepsToPrice(order, rest.fills) && (order.side.Buy? ==> fill.price <= order.price))
  {
    hide Match, OwnersKnown;
    var opp, t := order.side.Opposite(), Min(r, f[0].quantity);
    fill := EngineFill(f[0].id, taker, f[0].price, t);
    MatchTurn(opp, f, limit, taker, r);
    HeadOwner(opp, f, owners);
    OwnersKnownAfterTake(opp, f, owners, t);
    var rest := Match(opp, AfterTake(f, t), limit, taker, r - t);
    assert fill in [fill] + rest.fills && forall x :: x in rest.fills ==> x in [fill] + rest.fills;
  }

  /** What one more fill in front does to the loops over fills. */
  lemma FillsCons(b: Balances, cfg: Config, order: SignedOrder, owners: map<OrderId, SignedOrder>, fill: EngineFill,
                  rest: seq<EngineFill>, now: nat)
    requires fill.makerId in owners && MakersOnRecord(owners, rest)
    ensures MakersOnRecord(owners, [fill] + rest)
    ensures FillsApplied(b, cfg, order, owners, [fill] + rest)
            == FillsApplied(FillApplied(b, cfg, order, owners[fill.makerId].maker, fill), cfg, order, owners, rest)
    ensures TradesOf(order, owners, [fill] + rest, now)
            == [TradeOf(order, owners[fill.makerId], fill, now)] + TradesOf(order, owners, rest, now)
  {
    hide FillApplied;
    assert ([fill] + rest)[1..] == rest;
  }

  lemma NoFills(b: Balances, cfg: Config, order: SignedOrder, owners: map<OrderId, SignedOrder>, now: nat)
    ensures MakersOnRecord(owners, []) && FillsApplied(b, cfg, order, owners, []) == b
    ensures TradesOf(order, owners, [], now) == []
  {
  }

  /** Every fill of an order is paid from collateral: the book stays covered, holdings move by exactly
      the trades, and each trade is backed by what its parties hold when it is made. */
  lemma {:induction false} MatchSettles(b: Balances, cfg: Config, order: SignedOrder, f: seq<EngineOrder>,
                                        own: seq<EngineOrder>,
                                        owners: map<OrderId, SignedOrder>, limit: Option<nat>, taker: OrderId,
                                        r: nat, now: nat)
    requires Underway(b, cfg, order, f, own, owners, r)
    requires OwnersKnown(order.side.Opposite(), f, owners)
    requires KeepsToPrice(order, Match(order.side.Opposite(), f, limit, taker, r).fills)
    ensures var m := Match(order.side.Opposite(), f, limit, taker, r);
            && MakersOnRecord(owners, m.fills)
            && Underway(FillsApplied(b, cfg, order, owners, m.fills), cfg, order, m.book, own, owners, m.remaining)
            && FillsGood(b, FillsApplied(b, cfg, order, owners, m.fills), cfg, order, m.fills,
                         TradesOf(order, owners, m.fills, now))
    decreases |f|, r
  {
    hide Match, Underway, Quote, FillApplied, FillsGood, OwnersKnown, FillsApplied, TradesOf, TradeOf, AfterTake,
      Surplus, KeepsToPrice, MakersOnRecord;
    var opp := order.side.Opposite();
    MatchIdle(opp, f, limit, taker, r);
    if r == 0 || f == [] || !Acceptable(opp, limit, f[0].price) {
      NoFills(b, cfg, order, owners, now);
      NoFillsGood(b, cfg, order, []);
    } else {
      var fill := FillTurn(order, f, owners, limit, taker, r);
      var left, t := AfterTake(f, fill.quantity), fill.quantity;
      var rest := Match(opp, left, limit, taker, r - t).fills;
      var c := FillApplied(b, cfg, order, owners[f[0].id].maker, fill);
      FillCanSettle(b, cfg, order, f, own, owners, r, fill);
      FillKeepsUnderway(b, cfg, order, f, own, owners, r, fill);
      MatchSettles(c, cfg, order, left, own, owners, limit, taker, r - t, now);
      FillsCons(b, cfg, order, owners, fill, rest, now);
      FillsGoodCons(b, c, FillsApplied(c, cfg, order, owners, rest), cfg, order, owners[f[0].id], fill, rest,
                    TradesOf(order, owners, rest, now), now);
    }
  }

  lemma HeadOwner(s: Side, f: seq<EngineOrder>, owners: map<OrderId, SignedOrder>)
    requires f != [] && OwnersKnown(s, f, owners)
    ensures f[0].id in owners && owners[f[0].id].side == s
  {
    assert f[0] in f;
  }

  lemma NoFillsGood(b: Balances, cfg: Config, order: SignedOrder, fills: seq<EngineFill>)
    requires fills == []
    ensures FillsGood(b, b, cfg, order, fills, [])
  {
  }

  lemma FillsGoodCons(b: Balances, c: Balances, d: Balances, cfg: Config, order: SignedOrder, makerOrder: SignedOrder,
                      fill: EngineFill, rest: seq<EngineFill>, restTrades: seq<Trade>, now: nat)
    requires makerOrder.side == order.side.Opposite()
    requires c == FillApplied(b, cfg, order, makerOrder.maker, fill)
    requires CanSettle(b, Seller(order, makerOrder.maker), Buyer(order, makerOrder.maker), cfg.base, cfg.quote,
                       fill.quantity, Quote(fill.quantity, fill.price))
    requires order.side.Buy? ==>
               Quote(fill.quantity, fill.price) + Surplus(order, fill) <= BalanceOf(b, order.maker, cfg.quote).reserved
    requires FillsGood(c, d, cfg, order, rest, restTrades)
    ensures FillsGood(b, d, cfg, order, [fill] + rest, [TradeOf(order, makerOrder, fill, now)] + restTrades)
  {
    hide Quote, FillApplied, WithBalance, BalanceOf, Backed, TradeDelta;
    var m, trade := makerOrder.maker, TradeOf(order, makerOrder, fill, now);
    var trades := [trade] + restTrades;
    assert trades[1..] == restTrades && ([fill] + rest)[1..] == rest;
    assert TradeSeller(trade) == Seller(order, m) && TradeBuyer(trade) == Buyer(order, m);
    forall u, t ensures TotalsOf(c)(u, t) == TotalsOf(b)(u, t) + Delta(cfg.base, cfg.quote, trade, u, t) {
      FillEffect(b, cfg, order, m, fill, u, t);
    }
    FillEffect(b, cfg, order, m, fill, order.maker, cfg.quote);
    assert trades[..0] == [];
    BackedCons(cfg.base, cfg.quote, TotalsOf(b), TotalsOf(c), trades);
    assert BackedAt(cfg.base, cfg.quote, TotalsOf(b), trades, 0);
  }
}
