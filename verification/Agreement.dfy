/** Gateway and contract agree: over every guarded run, the contract's balances with the unsettled
    trades applied are the ledger's holdings plus the deposits it has not seen, and the log can be
    settled in order. */
module Agreement {
  import opened Types
  import opened Arithmetic
  import opened PriorityBook
  import opened MatchingEngines
  import opened EngineRuns
  import opened Ledgers
  import opened Persistence
  import opened Gateways
  import opened TradeLog
  import opened Solvency
  import opened GatewayInvariants
  import opened GatewaySolvency
  import opened Recovery
  import opened Exchanges
  import opened Deposits
  import opened System

  // ----- Guards -----

  /** What the agreement asks of a step: orders on the configured pair whose products fit and whose
      price can hold, and cancels and restarts only where they are safe. Deposits may be credited in
      any order, late, never or again. */
  ghost predicate Within(w: World, cfg: Config, e: Event) {
    match e
    case SubmitEvent(order, orderType, now) => OnPair(cfg, order) && SizeFits(order)
        && PriceHolds(w.g.engine, order, orderType)
    case CancelEvent(nonce, signer, found) =>
      found.Some? && found.value in w.g.orderNonceMap
      ==> forall s, o :: o in w.g.engine.On(s) && o.id == found.value ==> ExcessIsSpare(w.g, cfg, s, o)
    case RestartEvent(now) => RowsCovered(w.g.ledger, cfg, w.g.db.orders, now)
    case _ => true
  }

  // ----- Accounts -----

  /** What was credited to `u` in `t`, each deposit as often as it was credited. */
  ghost function CreditedSum(deposits: seq<Deposit>, credited: multiset<nat>, u: Address, t: Address): nat {
    if deposits == [] then 0
    else
      var n := |deposits| - 1;
      CreditedSum(deposits[..n], credited, u, t) + credited[n] * DepositOf(deposits[n], u, t)
  }

  ghost function CreditedHoldings(deposits: seq<Deposit>, credited: multiset<nat>): Holdings {
    (u, t) => CreditedSum(deposits, credited, u, t)
  }

  lemma {:induction false} CreditedOneMore(deposits: seq<Deposit>, credited: multiset<nat>, index: nat, u: Address,
                                           t: Address)
    ensures CreditedSum(deposits, credited + multiset{index}, u, t)
            == CreditedSum(deposits, credited, u, t)
                + (if index < |deposits| then DepositOf(deposits[index], u, t) else 0)
  {
    if deposits != [] {
      var n := |deposits| - 1;
      CreditedOneMore(deposits[..n], credited, index, u, t);
      assert (credited + multiset{index})[n] == credited[n] + (if n == index then 1 else 0);
    }
  }

  lemma NewDepositUncredited(deposits: seq<Deposit>, credited: multiset<nat>, d: Deposit, u: Address, t: Address)
    requires |deposits| !in credited
    ensures CreditedSum(deposits + [d], credited, u, t) == CreditedSum(deposits, credited, u, t)
  {
    assert (deposits + [d])[..|deposits|] == deposits;
  }

  /** Deposits credited at most once add up to no more than all deposits. */
  lemma {:induction false} CreditedAtMostOnce(deposits: seq<Deposit>, credited: multiset<nat>, u: Address, t: Address)
    requires forall index :: 0 <= index < |deposits| ==> credited[index] <= 1
    ensures CreditedSum(deposits, credited, u, t) <= DepositSum(deposits, u, t)
  {
    if deposits != [] {
      var n := |deposits| - 1;
      CreditedAtMostOnce(deposits[..n], credited, u, t);
      assert credited[n] == 0 || credited[n] == 1;
    }
  }

  ghost predicate LedgerAccounts(cfg: Config, ledger: Balances, credited: Holdings, log: seq<Trade>) {
    forall u, t :: TotalsOf(ledger)(u, t) == credited(u, t) + Net(cfg.base, cfg.quote, log, u, t)
  }

  ghost predicate ChainAccounts(cfg: Config, chain: Chain, deposits: seq<Deposit>, applied: seq<Trade>) {
    forall u, t :: ChainBalance(chain, u, t) == DepositSum(deposits, u, t) + Net(cfg.base, cfg.quote, applied, u, t)
  }

  /** Resting orders were signed by their makers and are on the configured pair. */
  ghost predicate RestingSigned(g: Gateway, cfg: Config) {
    forall s, o :: o in g.engine.On(s) && o.id in g.orderMap
        ==> Signed(g.orderMap[o.id]) && OnPair(cfg, g.orderMap[o.id])
  }

  ghost predicate Good(w: World, cfg: Config) {
    && Safe(w, cfg)
    && Healthy(w.g, cfg)
    && RestingSigned(w.g, cfg)
    && AllWellFormed(cfg.base, cfg.quote, w.log)
    && LedgerAccounts(cfg, w.g.ledger, CreditedHoldings(w.deposits, w.credited), w.log)
    && ChainAccounts(cfg, w.chain, w.deposits, TradesAt(w.settled, w.log))
    && Backed(cfg.base, cfg.quote, CreditedHoldings(w.deposits, w.credited), w.log)
  }

  // ----- The trades a guarded submission produces pass the contract's own checks -----

  lemma {:induction false} TradesOfAt(order: SignedOrder, orderMap: map<OrderId, SignedOrder>, fills: seq<EngineFill>,
                                      now: nat, i: nat)
    requires MakersOnRecord(orderMap, fills) && i < |fills|
    ensures fills[i].makerId in orderMap
    ensures TradesOf(order, orderMap, fills, now)[i] == TradeOf(order, orderMap[fills[i].makerId], fills[i], now)
    decreases |fills|
  {
    TailOnRecord(orderMap, fills);
    if i > 0 {
      TradesOfAt(order, orderMap, fills[1..], now, i - 1);
    }
  }

  lemma FillWellFormed(g: Gateway, cfg: Config, order: SignedOrder, orderType: OrderType, now: nat, i: nat)
    requires Healthy(g, cfg) && RestingSigned(g, cfg) && Signed(order)
    requires OnPair(cfg, order) && SizeFits(order) && PriceHolds(g.engine, order, orderType)
    requires !Rejects(g.engine, order.side, order.quantity, orderType)
    requires var opp := order.side.Opposite();
             i < |Match(opp, g.engine.On(opp), LimitOf(orderType, order.price), g.engine.nextId, order.quantity).fills|
    ensures var opp := order.side.Opposite();
            var fill := Match(opp, g.engine.On(opp), LimitOf(orderType, order.price), g.engine.nextId,
                              order.quantity).fills[i];
            fill.makerId in g.orderMap
                && WellFormed(cfg.base, cfg.quote, TradeOf(order, g.orderMap[fill.makerId], fill, now))
  {
    hide Match, Sound, Mirrored, Solvent, Depth, Total, Entered, FillQty;
    var opp := order.side.Opposite();
    var f := g.engine.On(opp);
    var fills := Match(opp, f, LimitOf(orderType, order.price), g.engine.nextId, order.quantity).fills;
    MatchConsumesPrefix(opp, f, LimitOf(orderType, order.price), g.engine.nextId, order.quantity);
    MatchAccounts(opp, f, LimitOf(orderType, order.price), g.engine.nextId, order.quantity);
    ConsistentSound(g, cfg);
    FillsKeepToPrice(g.engine, order, orderType);
    FillIsPart(fills, i);
    assert fills[i] in fills && f[i] in f;
    FillFits(g, cfg, order, f[i], fills[i]);
    MakerMatches(g, cfg, opp, f[i]);
  }

  lemma MakerMatches(g: Gateway, cfg: Config, s: Side, o: EngineOrder)
    requires Consistent(g, cfg) && RestingSigned(g, cfg) && o in g.engine.On(s)
    ensures o.id in g.orderMap
    ensures var signed := g.orderMap[o.id];
            signed.side == s && signed.price == o.price && Signed(signed) && OnPair(cfg, signed)
  {
    assert Entered(g, cfg, s, o);
  }

  lemma FillFits(g: Gateway, cfg: Config, order: SignedOrder, o: EngineOrder, fill: EngineFill)
    requires BidsFit(Buy, g.engine.bids) && SizeFits(order) && o in g.engine.On(order.side.Opposite())
    requires fill.quantity <= o.quantity && fill.quantity <= order.quantity && fill.price == o.price
    requires Acceptable(order.side.Opposite(), Some(order.price), fill.price)
    ensures Fits(fill.quantity, fill.price)
  {
    if order.side.Buy? {
      FitsSmaller(order.quantity, order.price, fill.quantity, fill.price);
    } else {
      FitsSmaller(o.quantity, o.price, fill.quantity, fill.price);
    }
  }

  lemma {:induction false} FillIsPart(fills: seq<EngineFill>, i: nat)
    requires i < |fills|
    ensures fills[i].quantity <= FillQty(fills)
  {
    if i > 0 {
      FillIsPart(fills[1..], i - 1);
    }
  }

  lemma NewTradesWellFormed(g: Gateway, cfg: Config, order: SignedOrder, orderType: OrderType, now: nat)
    requires Healthy(g, cfg) && RestingSigned(g, cfg)
    requires OnPair(cfg, order) && SizeFits(order) && PriceHolds(g.engine, order, orderType)
    requires MakersKnown(g.engine, g.orderMap)
    ensures AllWellFormed(cfg.base, cfg.quote, NewTrades(g, cfg, order, orderType, now))
  {
    hide Match, Insert, Healthy, WellFormed, RestingSigned, TradesOf, FillsApplied, ClientFills, Collateral, Recorded,
      Total, Depth;
    if OrderSubmitted(g, cfg, order, orderType, now).1.Accepted? {
      var trades := NewTrades(g, cfg, order, orderType, now);
      var opp := order.side.Opposite();
      var fills := Match(opp, g.engine.On(opp), LimitOf(orderType, order.price), g.engine.nextId, order.quantity).fills;
      FillsFromBook(g.engine, order.side, order.price, order.quantity, orderType, g.orderMap);
      forall trade | trade in trades ensures WellFormed(cfg.base, cfg.quote, trade) {
        var i :| 0 <= i < |trades| && trades[i] == trade;
        TradesOfAt(order, g.orderMap, fills, now, i);
        FillWellFormed(g, cfg, order, orderType, now, i);
      }
    }
  }

  lemma SubmitKeepsSigned(g: Gateway, cfg: Config, order: SignedOrder, orderType: OrderType, now: nat)
    requires Consistent(g, cfg) && RestingSigned(g, cfg) && OnPair(cfg, order) && MakersKnown(g.engine, g.orderMap)
    ensures RestingSigned(OrderSubmitted(g, cfg, order, orderType, now).0, cfg)
  {
    hide AfterSubmit, FillsApplied, TradesOf, ClientFills, Collateral, Sound, Mirrored, Entered, OrderFillSaved,
      Released, AfterReserve;
    var g' := OrderSubmitted(g, cfg, order, orderType, now).0;
    if OrderSubmitted(g, cfg, order, orderType, now).1.Refused? {
      RefusedChangesNothing(g, cfg, order, orderType, now);
      assert forall s :: g'.engine.On(s) == g.engine.On(s);
    } else {
      var r := AfterSubmit(g.engine, order.side, order.price, order.quantity, orderType).1;
      forall s, x | x in g'.engine.On(s) && x.id in g'.orderMap
          ensures Signed(g'.orderMap[x.id]) && OnPair(cfg, g'.orderMap[x.id]) {
        if !(r.resting && s == order.side && x == EngineOrder(g.engine.nextId, order.side, order.price, r.restingQty)) {
          var o := StaysFrom(g.engine, order.side, order.price, order.quantity, orderType, s, x);
          assert Entered(g, cfg, s, o);
          KnownId(g, cfg, s, o);
        }
      }
    }
  }

  lemma KnownId(g: Gateway, cfg: Config, s: Side, o: EngineOrder)
    requires Consistent(g, cfg) && o in g.engine.On(s)
    ensures o.id < g.engine.nextId && o.id in g.orderMap
  {
    assert Entered(g, cfg, s, o);
    InAllIds(g.engine, s, o);
  }

  // ----- Every guarded step keeps the accounts -----

  lemma NetOfSettledMore(w: World, cfg: Config, more: seq<Trade>)
    requires InLog(w.settled, w.log)
    ensures InLog(w.settled, w.log + more) && TradesAt(w.settled, w.log + more) == TradesAt(w.settled, w.log)
  {
  }

  lemma SubmitIsGood(w: World, cfg: Config, order: SignedOrder, orderType: OrderType, now: nat)
    requires Good(w, cfg) && Within(w, cfg, SubmitEvent(order, orderType, now)) && MakersKnown(w.g.engine, w.g.orderMap)
    ensures Good(Next(w, cfg, SubmitEvent(order, orderType, now)), cfg)
  {
    hide Healthy, Consistent, OrderSubmitted, NewTrades, RestingSigned, WellFormed, Backed, Net, RowsTellLog,
      BatchTellsLog, BalanceOf, DepositSum, ChainBalance, TaskSound, SettledOnce, PriceHolds;
    var w' := Next(w, cfg, SubmitEvent(order, orderType, now));
    var more := NewTrades(w.g, cfg, order, orderType, now);
    StepIsSafe(w, cfg, SubmitEvent(order, orderType, now));
    SubmitKeepsHealthy(w.g, cfg, order, orderType, now);
    SubmitKeepsSigned(w.g, cfg, order, orderType, now);
    NewTradesWellFormed(w.g, cfg, order, orderType, now);
    assert InLog(w.settled, w.log) by { SettledInLog(w.settled, w.log, w.chain.usedNonces); }
    NetOfSettledMore(w, cfg, more);
    forall u, t ensures TotalsOf(w'.g.ledger)(u, t)
        == CreditedHoldings(w'.deposits, w'.credited)(u, t) + Net(cfg.base, cfg.quote, w'.log, u, t) {
      NetAppend(cfg.base, cfg.quote, w.log, more, u, t);
    }
    BackedExtend(cfg.base, cfg.quote, CreditedHoldings(w.deposits, w.credited), TotalsOf(w.g.ledger), w.log, more);
    BackedMonotone(cfg.base, cfg.quote, CreditedHoldings(w.deposits, w.credited),
                   CreditedHoldings(w'.deposits, w'.credited), w'.log);
  }

  lemma SettledInLog(settled: seq<nat>, log: seq<Trade>, used: set<NonceKey>)
    requires SettledOnce(settled, log, used)
    ensures InLog(settled, log)
  {
  }

  /** Steps that leave log, settled trades, chain and deposits alone. */
  lemma GatewayOnly(w: World, cfg: Config, w': World)
    requires Good(w, cfg) && Safe(w', cfg) && Healthy(w'.g, cfg) && RestingSigned(w'.g, cfg)
    requires w' == w.(g := w'.g, task := w'.task, broadcast := w'.broadcast)
    requires forall u, t :: TotalsOf(w'.g.ledger)(u, t) == TotalsOf(w.g.ledger)(u, t)
    ensures Good(w', cfg)
  {
    hide Healthy, Safe, RestingSigned, WellFormed, Net, BalanceOf, DepositSum, ChainBalance;
    assert InLog(w.settled, w.log) by { SafeParts(w, cfg); }
    BackedMonotone(cfg.base, cfg.quote, CreditedHoldings(w.deposits, w.credited),
                   CreditedHoldings(w'.deposits, w'.credited), w'.log);
  }

  lemma SafeParts(w: World, cfg: Config)
    requires Safe(w, cfg)
    ensures Consistent(w.g, cfg) && InLog(w.settled, w.log)
    ensures forall index :: index in w.credited ==> index < |w.deposits|
    ensures SettledOnce(w.settled, w.log, w.chain.usedNonces)
    ensures forall k :: 0 <= k < |w.broadcast| ==> BatchTellsLog(w.broadcast[k], w.log)
  {
  }

  lemma CancelIsGood(w: World, cfg: Config, nonce: nat, signer: Option<Address>, found: Option<OrderId>)
    requires Good(w, cfg) && Within(w, cfg, CancelEvent(nonce, signer, found))
    ensures Good(Next(w, cfg, CancelEvent(nonce, signer, found)), cfg)
  {
    hide Healthy, Safe, RestingSigned, WellFormed, Net, BalanceOf, DepositSum, ChainBalance, Backed, ExcessIsSpare;
    StepIsSafe(w, cfg, CancelEvent(nonce, signer, found));
    if signer.Some? ==> MayFind(w.g.orderNonceMap, nonce, found) {
      var (g', r) := CancelRequested(w.g, nonce, signer, found);
      if r.CancelAccepted? {
        var s := if found.value in Ids(w.g.engine.bids) then Buy else Sell;
        var o: EngineOrder :| o in w.g.engine.On(s) && o.id == found.value;
        CancelKeepsHealthy(w.g, cfg, s, o);
        HealthyParts(w.g, cfg);
        CancelKeepsSigned(w.g, cfg, found.value);
      }
      GatewayOnly(w, cfg, Next(w, cfg, CancelEvent(nonce, signer, found)));
    }
  }

  lemma HealthyParts(g: Gateway, cfg: Config)
    requires Healthy(g, cfg)
    ensures Consistent(g, cfg) && Sound(g.engine)
  {
  }

  lemma CancelKeepsSigned(g: Gateway, cfg: Config, id: OrderId)
    requires Consistent(g, cfg) && RestingSigned(g, cfg) && id in g.orderNonceMap
    ensures RestingSigned(CancelByMaker(g, id), cfg)
  {
    hide Entered, Mirrored, Sound;
    if id in g.engine.AllIds() {
      forall s, x | x in CancelByMaker(g, id).engine.On(s) && x.id in CancelByMaker(g, id).orderMap
        ensures Signed(CancelByMaker(g, id).orderMap[x.id]) && OnPair(cfg, CancelByMaker(g, id).orderMap[x.id]) {
        StaysAfterCancel(g.engine, id, s, x);
      }
    }
  }

  lemma CreditKeepsHealthy(g: Gateway, cfg: Config, d: Deposit)
    requires Healthy(g, cfg) && RestingSigned(g, cfg)
    ensures var h := DepositCredited(g, d.user, d.token, d.amount);
            && Healthy(h, cfg) && RestingSigned(h, cfg)
            && forall u, t :: TotalsOf(h.ledger)(u, t) == TotalsOf(g.ledger)(u, t) + DepositOf(d, u, t)
  {
    hide Consistent, Locked, BidsFit, WithBalance, BalanceOf;
    CreditKeepsConsistent(g, cfg, d.user, d.token, d.amount);
    var h := DepositCredited(g, d.user, d.token, d.amount);
    forall u, s ensures BalanceOf(h.ledger, u, cfg.Locks(s)).reserved >= Locked(s, h.engine.On(s), h.orderMap, u) {
      assert BalanceOf(g.ledger, u, cfg.Locks(s)).reserved >= Locked(s, g.engine.On(s), g.orderMap, u);
    }
  }

  lemma CreditIsGood(w: World, cfg: Config, index: nat)
    requires Good(w, cfg) && index < |w.deposits|
    ensures Good(Next(w, cfg, CreditEvent(index)), cfg)
  {
    hide Healthy, Safe, RestingSigned, WellFormed, Net, ChainBalance, Backed, DepositCredited, TotalsOf, CreditedSum;
    var w', d := Next(w, cfg, CreditEvent(index)), w.deposits[index];
    StepIsSafe(w, cfg, CreditEvent(index));
    SafeParts(w, cfg);
    CreditKeepsHealthy(w.g, cfg, d);
    forall u, t ensures CreditedHoldings(w'.deposits, w'.credited)(u, t)
                        == CreditedHoldings(w.deposits, w.credited)(u, t) + DepositOf(d, u, t) {
      CreditedOneMore(w.deposits, w.credited, index, u, t);
    }
    BackedMonotone(cfg.base, cfg.quote, CreditedHoldings(w.deposits, w.credited),
                   CreditedHoldings(w'.deposits, w'.credited), w.log);
  }

  lemma DepositIsGood(w: World, cfg: Config, d: Deposit)
    requires Good(w, cfg)
    ensures Good(Next(w, cfg, DepositEvent(d)), cfg)
  {
    hide Healthy, Consistent, WellFormed, Net, BalanceOf, RowsTellLog, BatchTellsLog, TaskSound, SettledOnce,
      RestingSigned, HeldBy, OrderSubmitted, NewTrades, CancelRequested, DepositCredited, Restarted, SettledBatch,
      MarkStep, Drained;
    var w' := Next(w, cfg, DepositEvent(d));
    StepIsSafe(w, cfg, DepositEvent(d));
    assert InLog(w.settled, w.log) by { SettledInLog(w.settled, w.log, w.chain.usedNonces); }
    forall u, t ensures CreditedSum(w'.deposits, w'.credited, u, t) == CreditedSum(w.deposits, w.credited, u, t) {
      NewDepositUncredited(w.deposits, w.credited, d, u, t);
    }
    assert (w.deposits + [d])[..|w.deposits + [d]| - 1] == w.deposits;
    forall u, t ensures ChainBalance(w'.chain, u, t) == ChainBalance(w.chain, u, t) + DepositOf(d, u, t) {}
    BackedMonotone(cfg.base, cfg.quote, CreditedHoldings(w.deposits, w.credited),
                   CreditedHoldings(w'.deposits, w'.credited), w.log);
  }

  /** Steps of the contract that leave the gateway, the log and the deposits alone. */
  lemma ChainOnly(w: World, cfg: Config, w': World)
    requires Good(w, cfg) && Safe(w', cfg)
    requires w' == w.(chain := w'.chain, settled := w'.settled)
    requires InLog(w'.settled, w'.log) && ChainAccounts(cfg, w'.chain, w'.deposits, TradesAt(w'.settled, w'.log))
    ensures Good(w', cfg)
  {
    hide Healthy, Safe, RestingSigned, AllWellFormed, LedgerAccounts, ChainAccounts, Backed, CreditedHoldings, InLog;
    SafeParts(w, cfg);
    SafeParts(w', cfg);
  }

  lemma LandIsGood(w: World, cfg: Config, sent: nat, now: nat)
    requires Good(w, cfg)
    ensures Good(Next(w, cfg, LandEvent(sent, now)), cfg)
  {
    hide Healthy, AllWellFormed, Net, RestingSigned, HeldBy, Safe, Backed, SettledBatch, DepositSum, LedgerAccounts,
      CreditedHoldings;
    var w' := Next(w, cfg, LandEvent(sent, now));
    StepIsSafe(w, cfg, LandEvent(sent, now));
    SafeParts(w, cfg);
    SafeParts(w', cfg);
    if sent < |w.broadcast| && SettledBatch(w.chain, TradesIn(w.broadcast[sent]), now).Settled? {
      var batch, trades := w.broadcast[sent], TradesIn(w.broadcast[sent]);
      BatchOnTokens(batch, w.log, cfg.base, cfg.quote);
      BatchEffect(w.chain, trades, now, cfg.base, cfg.quote);
      SettledPlusBatch(w.settled, batch, w.log);
      forall u, t ensures ChainBalance(w'.chain, u, t)
                          == DepositSum(w.deposits, u, t)
                              + Net(cfg.base, cfg.quote, TradesAt(w'.settled, w.log), u, t) {
        NetAppend(cfg.base, cfg.quote, TradesAt(w.settled, w.log), trades, u, t);
      }
      ChainOnly(w, cfg, w');
    }
  }

  lemma SettledPlusBatch(settled: seq<nat>, batch: Batch, log: seq<Trade>)
    requires InLog(settled, log) && BatchTellsLog(batch, log)
    ensures InLog(settled + IdsIn(batch), log)
    ensures TradesAt(settled + IdsIn(batch), log) == TradesAt(settled, log) + TradesIn(batch)
  {
    assert InLog(IdsIn(batch), log);
  }

  lemma BatchOnTokens(batch: Batch, log: seq<Trade>, base: Address, quote: Address)
    requires BatchTellsLog(batch, log) && AllWellFormed(base, quote, log)
    ensures OnTokens(base, quote, TradesIn(batch))
  {
    forall trade | trade in TradesIn(batch)
        ensures trade.makerOrder.baseToken == base && trade.makerOrder.quoteToken == quote {
      var i :| 0 <= i < |batch| && TradesIn(batch)[i] == trade;
      assert trade in log;
      assert WellFormed(base, quote, trade);
    }
  }

  lemma RestartIsGood(w: World, cfg: Config, now: nat)
    requires Good(w, cfg) && Within(w, cfg, RestartEvent(now))
    ensures Good(Next(w, cfg, RestartEvent(now)), cfg)
  {
    hide Healthy, Safe, WellFormed, Net, BalanceOf, DepositSum, ChainBalance, Backed, Restarted, Consistent,
      RowsCovered;
    StepIsSafe(w, cfg, RestartEvent(now));
    RestartKeepsHealthy(w.g, cfg, now);
    HealthyParts(w.g, cfg);
    var h := Restarted(w.g.db, cfg, now);
    forall s, x | x in h.engine.On(s) && x.id in h.orderMap
        ensures Signed(h.orderMap[x.id]) && OnPair(cfg, h.orderMap[x.id]) {
      var o := RebuiltOrigin(w.g, cfg, now, s, x);
      RestartKeepsOwner(w.g, cfg, now, x.id);
      MakerMatches(w.g, cfg, s, o);
    }
    GatewayOnly(w, cfg, Next(w, cfg, RestartEvent(now)));
  }

  /** Steps that only touch trade rows and pending trades leave the gateway healthy. */
  lemma RowsDoNotMatter(g: Gateway, cfg: Config, h: Gateway)
    requires Healthy(g, cfg) && RestingSigned(g, cfg) && Consistent(h, cfg)
    requires h.engine == g.engine && h.ledger == g.ledger && h.orderMap == g.orderMap && h.db.orders == g.db.orders
    ensures Healthy(h, cfg) && RestingSigned(h, cfg)
  {
    hide Consistent, Locked, BalanceOf;
  }

  lemma TaskStepFrame(w: World, cfg: Config, e: Event)
    requires e.DrainEvent? || e.AckEvent? || e.FailEvent? || e.MarkEvent? || e.ConfirmCancelEvent?
    ensures var w' := Next(w, cfg, e);
            && w' == w.(g := w'.g, task := w'.task, broadcast := w'.broadcast)
            && w'.g.engine == w.g.engine && w'.g.ledger == w.g.ledger
            && w'.g.orderMap == w.g.orderMap && w'.g.db.orders == w.g.db.orders
  {
    hide TradesMarked, ConfirmedDeleted;
  }

  lemma TaskStepIsGood(w: World, cfg: Config, e: Event)
    requires Good(w, cfg)
    requires e.DrainEvent? || e.AckEvent? || e.FailEvent? || e.MarkEvent? || e.ConfirmCancelEvent?
    ensures Good(Next(w, cfg, e), cfg)
  {
    hide Safe, Healthy, AllWellFormed, LedgerAccounts, ChainAccounts, Backed, RestingSigned, Next, BalanceOf;
    StepIsSafe(w, cfg, e);
    TaskStepFrame(w, cfg, e);
    var w' := Next(w, cfg, e);
    SafeParts(w', cfg);
    RowsDoNotMatter(w.g, cfg, w'.g);
    GatewayOnly(w, cfg, w');
  }

  /** Every guarded step keeps gateway, contract and log in agreement. */
  lemma StepIsGood(w: World, cfg: Config, e: Event)
    requires Good(w, cfg) && Within(w, cfg, e)
    ensures MakersKnown(w.g.engine, w.g.orderMap) && Good(Next(w, cfg, e), cfg)
  {
    hide Consistent, Healthy, RestingSigned, AllWellFormed, LedgerAccounts, ChainAccounts, Backed, RowsTellLog,
      BatchTellsLog;
    StepIsSafe(w, cfg, e);
    match e
    case SubmitEvent(order, orderType, now) => SubmitIsGood(w, cfg, order, orderType, now);
    case CancelEvent(nonce, signer, found) => CancelIsGood(w, cfg, nonce, signer, found);
    case DepositEvent(d) => DepositIsGood(w, cfg, d);
    case CreditEvent(index) => if index < |w.deposits| { CreditIsGood(w, cfg, index); }
    case LandEvent(sent, now) => LandIsGood(w, cfg, sent, now);
    case RestartEvent(now) => RestartIsGood(w, cfg, now);
    case CancelNonceEvent(maker, nonce) => CancelNonceIsGood(w, cfg, maker, nonce);
    case _ => TaskStepIsGood(w, cfg, e);
  }

  lemma CancelNonceIsGood(w: World, cfg: Config, maker: Address, nonce: nat)
    requires Good(w, cfg)
    ensures Good(Next(w, cfg, CancelNonceEvent(maker, nonce)), cfg)
  {
    hide Healthy, Consistent, WellFormed, Net, BalanceOf, RowsTellLog, BatchTellsLog, TaskSound, SettledOnce,
      RestingSigned, HeldBy, DepositSum;
    var w' := Next(w, cfg, CancelNonceEvent(maker, nonce));
    StepIsSafe(w, cfg, CancelNonceEvent(maker, nonce));
    assert InLog(w.settled, w.log) by { SettledInLog(w.settled, w.log, w.chain.usedNonces); }
    BackedMonotone(cfg.base, cfg.quote, CreditedHoldings(w.deposits, w.credited),
                   CreditedHoldings(w'.deposits, w'.credited), w.log);
  }
}
