/** The main results over runs of the whole system. */
module GuardedRuns {
  import opened Types
  import opened PriorityBook
  import opened Ledgers
  import opened Persistence
  import opened Gateways
  import opened TradeLog
  import opened Solvency
  import opened GatewayInvariants
  import opened GatewaySolvency
  import opened Exchanges
  import opened Deposits
  import opened System
  import opened Agreement

  /** Every event of the run is within the guards of the state it meets. */
  ghost predicate AllWithin(cfg: Config, events: seq<Event>, states: seq<World>)
    requires |states| == |events| + 1
  {
    && cfg.base != cfg.quote
    && forall k {:trigger events[k]} :: 0 <= k < |events| ==> Within(states[k], cfg, events[k])
  }

  /** Some run within the guards ends here. */
  ghost predicate ReachedWithin(cfg: Config, w: World) {
    exists events, states :: IsRun(cfg, events, states) && AllWithin(cfg, events, states) && states[|events|] == w
  }

  /** Every event within its guards can follow a guarded run. */
  lemma ReachedWithinSteps(cfg: Config, w: World, e: Event)
    requires ReachedWithin(cfg, w) && Within(w, cfg, e)
    ensures ReachedWithin(cfg, Next(w, cfg, e))
  {
    hide Next, Within;
    var events, states :| IsRun(cfg, events, states) && AllWithin(cfg, events, states) && states[|events|] == w;
    var more, further := events + [e], states + [Next(w, cfg, e)];
    forall k | 0 <= k < |more|
        ensures further[k + 1] == Next(further[k], cfg, more[k]) && Within(further[k], cfg, more[k]) {
      assert k < |events| ==> more[k] == events[k];
    }
    assert IsRun(cfg, more, further) && AllWithin(cfg, more, further);
  }

  lemma StartIsWithin(cfg: Config)
    requires cfg.base != cfg.quote
    ensures ReachedWithin(cfg, START)
  {
    assert IsRun(cfg, [], [START]) && AllWithin(cfg, [], [START]);
  }

  lemma WithinIsReached(cfg: Config, w: World)
    requires ReachedWithin(cfg, w)
    ensures Reached(cfg, w)
  {
    hide Next, Within;
  }

  lemma StartIsGood(cfg: Config)
    requires cfg.base != cfg.quote
    ensures Good(START, cfg)
  {
    hide Safe, Consistent;
    StartIsSafe(cfg);
    SafeParts(START, cfg);
    assert TradesAt([], []) == [];
  }

  lemma {:induction false} RunIsGood(cfg: Config, events: seq<Event>, states: seq<World>, k: nat)
    requires IsRun(cfg, events, states) && AllWithin(cfg, events, states) && k < |states|
    ensures Good(states[k], cfg)
  {
    hide Good, Within, Next;
    if k == 0 {
      StartIsGood(cfg);
    } else {
      assert states[k] == Next(states[k - 1], cfg, events[k - 1]);
      RunIsGood(cfg, events, states, k - 1);
      StepIsGood(states[k - 1], cfg, events[k - 1]);
    }
  }

  /** Every state of a guarded run is good: solvent, on pair, with accounts that agree. */
  lemma GuardedRunsAreGood(cfg: Config, w: World)
    requires ReachedWithin(cfg, w)
    ensures Good(w, cfg)
  {
    hide Good, Within, Next;
    var events, states :| IsRun(cfg, events, states) && AllWithin(cfg, events, states) && states[|events|] == w;
    RunIsGood(cfg, events, states, |events|);
  }

  /** Solvency over runs: in every state of a guarded run, what a user has reserved in a token covers
      what that user's orders on the book still need. */
  lemma ReservesCoverTheBook(cfg: Config, w: World, u: Address, s: Side)
    requires ReachedWithin(cfg, w)
    ensures BalanceOf(w.g.ledger, u, cfg.Locks(s)).reserved >= Locked(s, w.g.engine.On(s), w.g.orderMap, u)
  {
    hide Safe, Consistent, ReachedWithin;
    GuardedRunsAreGood(cfg, w);
  }

  /** In every reachable state, guarded or not: the rows with status resting are the orders on the
      book, every resting order is in the order map, the book is not crossed, and the tables hold the
      ledger. */
  lemma DiskAndBookAgree(cfg: Config, w: World)
    requires Reached(cfg, w)
    ensures RestingIds(w.g.db.orders) == w.g.engine.AllIds()
    ensures MakersKnown(w.g.engine, w.g.orderMap)
    ensures w.g.engine.bids != [] && w.g.engine.asks != [] ==> w.g.engine.bids[0].price < w.g.engine.asks[0].price
    ensures forall u, t :: BalanceRow(w.g.db, u, t) == BalanceOf(w.g.ledger, u, t)
  {
    hide Reached, Sorted, Entered, BalanceOf, BalanceRow;
    ReachedIsSafe(cfg, w);
    if w.g.engine.bids != [] && w.g.engine.asks != [] {
      assert w.g.engine.bids[0] in w.g.engine.bids && w.g.engine.asks[0] in w.g.engine.asks;
    }
  }

  // ----- Settled and unsettled trades -----

  /** The trades of the log that the contract has not applied, in order. */
  ghost function Unsettled(log: seq<Trade>, settled: seq<nat>): seq<Trade> {
    if log == [] then []
    else Unsettled(log[..|log| - 1], settled) + (if |log| in settled then [] else [log[|log| - 1]])
  }

  lemma {:induction false} NothingSettled(log: seq<Trade>)
    ensures Unsettled(log, []) == log
  {
    if log != [] {
      NothingSettled(log[..|log| - 1]);
    }
  }

  lemma NetSnoc(base: Address, quote: Address, trades: seq<Trade>, last: seq<Trade>, u: Address, t: Address)
    requires |last| <= 1
    ensures Net(base, quote, trades + last, u, t)
            == Net(base, quote, trades, u, t) + (if last == [] then 0 else Delta(base, quote, last[0], u, t))
  {
    NetAppend(base, quote, trades, last, u, t);
  }

  lemma {:induction false} SettleOneMore(base: Address, quote: Address, log: seq<Trade>, settled: seq<nat>, id: nat,
                                         u: Address, t: Address)
    requires id !in settled
    ensures Net(base, quote, Unsettled(log, settled + [id]), u, t)
            == Net(base, quote, Unsettled(log, settled), u, t)
               - (if 0 < id <= |log| then Delta(base, quote, log[id - 1], u, t) else 0)
  {
    hide Net, Delta;
    if log != [] {
      var init, n := log[..|log| - 1], |log|;
      SettleOneMore(base, quote, init, settled, id, u, t);
      NetSnoc(base, quote, Unsettled(init, settled), if n in settled then [] else [log[n - 1]], u, t);
      NetSnoc(base, quote, Unsettled(init, settled + [id]), if n in settled + [id] then [] else [log[n - 1]], u, t);
      assert n in settled + [id] <==> n in settled || n == id;
    }
  }

  /** Settled and unsettled trades together are the log, whatever order the batches landed in. */
  lemma {:induction false} NetOfUnsettled(base: Address, quote: Address, log: seq<Trade>, settled: seq<nat>,
                                          u: Address, t: Address)
    requires InLog(settled, log)
    requires forall i, j :: 0 <= i < j < |settled| ==> settled[i] != settled[j]
    ensures Net(base, quote, Unsettled(log, settled), u, t) + Net(base, quote, TradesAt(settled, log), u, t)
            == Net(base, quote, log, u, t)
  {
    hide Net, Delta, Unsettled;
    if settled == [] {
      NothingSettled(log);
      assert TradesAt(settled, log) == [] && log + [] == log;
      NetSnoc(base, quote, log, [], u, t);
      NetAppend(base, quote, [], log, u, t);
      assert [] + log == log;
      NetAppend(base, quote, [], [], u, t);
      var none: seq<Trade> := [];
      assert none + none == none;
    } else {
      var init, id := settled[..|settled| - 1], settled[|settled| - 1];
      assert settled == init + [id];
      NetOfUnsettled(base, quote, log, init, u, t);
      SettleOneMore(base, quote, log, init, id, u, t);
      assert TradesAt(settled, log) == TradesAt(init, log) + [log[id - 1]];
      NetSnoc(base, quote, TradesAt(init, log), [log[id - 1]], u, t);
    }
  }

  /** Gateway and contract agree: in every state of a guarded run, for each user and token, the
      contract's balance with the unsettled trades applied equals what the ledger holds plus the
      deposits it has not credited, less what it credited again. */
  lemma GatewayAndContractAgree(cfg: Config, w: World, u: Address, t: Address)
    requires ReachedWithin(cfg, w)
    ensures ChainBalance(w.chain, u, t) + Net(cfg.base, cfg.quote, Unsettled(w.log, w.settled), u, t)
            == BalanceOf(w.g.ledger, u, t).Total()
                + DepositSum(w.deposits, u, t) - CreditedSum(w.deposits, w.credited, u, t)
  {
    hide Safe, Healthy, RestingSigned, AllWellFormed, Backed, ChainBalance, BalanceOf, DepositSum, Net, Unsettled,
      ReachedWithin;
    GuardedRunsAreGood(cfg, w);
    SafeParts(w, cfg);
    forall i, j | 0 <= i < j < |w.settled| ensures w.settled[i] != w.settled[j] {
      SettledApart(w.settled, w.log, w.chain.usedNonces, i, j);
    }
    NetOfUnsettled(cfg.base, cfg.quote, w.log, w.settled, u, t);
    assert TotalsOf(w.g.ledger)(u, t)
        == CreditedHoldings(w.deposits, w.credited)(u, t) + Net(cfg.base, cfg.quote, w.log, u, t);
  }

  // ----- The log can be settled in order -----

  /** The contract has applied exactly the first `k` trades, in order. */
  ghost predicate SettledPrefix(w: World, k: nat) {
    k <= |w.log| && w.settled == seq(k, i => i + 1)
  }

  lemma BackedPrefix(base: Address, quote: Address, h: Holdings, trades: seq<Trade>, n: nat)
    requires n <= |trades| && Backed(base, quote, h, trades)
    ensures Backed(base, quote, h, trades[..n])
  {
    forall k | 0 <= k < n ensures BackedAt(base, quote, h, trades[..n], k) {
      assert trades[..n][..k] == trades[..k];
      assert BackedAt(base, quote, h, trades, k);
    }
  }

  /** No account was credited more than was deposited for it. */
  ghost predicate NothingOvercredited(w: World) {
    forall u, t :: CreditedSum(w.deposits, w.credited, u, t) <= DepositSum(w.deposits, u, t)
  }

  lemma RestIsBacked(w: World, cfg: Config, k: nat)
    requires Good(w, cfg) && SettledPrefix(w, k) && NothingOvercredited(w)
    ensures Backed(cfg.base, cfg.quote, ChainHoldings(w.chain), w.log[k..])
  {
    hide Healthy, Safe, RestingSigned, AllWellFormed, Backed, Net, ChainBalance, DepositSum;
    SafeParts(w, cfg);
    assert TradesAt(w.settled, w.log) == w.log[..k];
    var all: Holdings := (u, t) => DepositSum(w.deposits, u, t);
    BackedMonotone(cfg.base, cfg.quote, CreditedHoldings(w.deposits, w.credited), all, w.log);
    BackedSuffix(cfg.base, cfg.quote, all, ChainHoldings(w.chain), w.log, k);
  }

  /** Settling the log in order never hits a missing balance, a price out of range or a bad
      signature: in every state of a guarded run whose settled trades are the first `k`, the next `n`
      trades settle as one batch if and only if none of their orders expired and no nonce key among
      them was used before or repeats. */
  lemma LogSettlesInOrder(cfg: Config, w: World, k: nat, n: nat, now: nat)
    requires ReachedWithin(cfg, w) && NothingOvercredited(w) && SettledPrefix(w, k) && k + n <= |w.log|
    ensures var batch, r := w.log[k..k + n], SettledBatch(w.chain, w.log[k..k + n], now);
            && (r.Settled? <==> FreshKeys(w.chain.usedNonces, batch) && Unexpired(batch, now))
            && (r.Reverted? ==> r.error in {Revert.OrderExpired, NonceAlreadyUsed})
  {
    hide Safe, Healthy, RestingSigned, WellFormed, LedgerAccounts, ChainAccounts, Backed, SettledBatch, FreshKeys,
      Unexpired, ReachedWithin;
    GuardedRunsAreGood(cfg, w);
    RestIsBacked(w, cfg, k);
    BackedPrefix(cfg.base, cfg.quote, ChainHoldings(w.chain), w.log[k..], n);
    assert w.log[k..][..n] == w.log[k..k + n];
    assert forall trade :: trade in w.log[k..k + n] ==> trade in w.log;
    BackedBatchSettlesIff(w.chain, w.log[k..k + n], now, cfg.base, cfg.quote);
  }

  // ----- Conservation -----

  lemma {:induction false} NetSumsToZero(users: set<Address>, base: Address, quote: Address, trades: seq<Trade>,
                                         t: Address)
    requires forall trade :: trade in trades ==> TradeSeller(trade) in users && TradeBuyer(trade) in users
    ensures SumOver(users, u => Net(base, quote, trades, u, t)) == 0
  {
    hide TradeDelta, TradeSeller, TradeBuyer, QuoteAmount;
    if trades == [] {
      SumOfZeros(users, u => Net(base, quote, trades, u, t));
    } else {
      var trade := trades[0];
      assert trade in trades && forall x :: x in trades[1..] ==> x in trades;
      NetSumsToZero(users, base, quote, trades[1..], t);
      TradeDeltaSumsToZero(users, TradeSeller(trade), TradeBuyer(trade), base, quote, trade.quantity,
                           QuoteAmount(trade), t);
      SameSum(users, u => TradeDelta(TradeSeller(trade), TradeBuyer(trade), base, quote, trade.quantity,
                                     QuoteAmount(trade), u, t),
              u => Delta(base, quote, trade, u, t));
      SumAdds(users, u => Delta(base, quote, trade, u, t), u => Net(base, quote, trades[1..], u, t),
              u => Net(base, quote, trades, u, t));
    }
  }

  lemma {:induction false} SumOfZeros(users: set<Address>, f: Address -> int)
    requires forall u :: u in users ==> f(u) == 0
    ensures SumOver(users, f) == 0
  {
    if users != {} {
      var u :| u in users;
      SumPick(users, f, u);
      SumOfZeros(users - {u}, f);
    }
  }

  /** Tokens are conserved in the ledger: over every guarded run, and any users that include all
      parties of the trades, available plus reserved adds up to what was credited. */
  lemma LedgerConservesTokens(cfg: Config, w: World, users: set<Address>, t: Address)
    requires ReachedWithin(cfg, w)
    requires forall trade :: trade in w.log ==> TradeSeller(trade) in users && TradeBuyer(trade) in users
    ensures SumOver(users, u => BalanceOf(w.g.ledger, u, t).Total())
            == SumOver(users, u => CreditedSum(w.deposits, w.credited, u, t))
  {
    hide Safe, Healthy, RestingSigned, AllWellFormed, Backed, ChainAccounts, BalanceOf, CreditedSum, Net, TradeSeller,
      TradeBuyer, ReachedWithin;
    GuardedRunsAreGood(cfg, w);
    SafeParts(w, cfg);
    AccountsAddUp(cfg, w.g.ledger, w.deposits, w.credited, w.log, users, t);
  }

  lemma AccountsAddUp(cfg: Config, ledger: Balances, deposits: seq<Deposit>, credited: multiset<nat>, log: seq<Trade>,
                      users: set<Address>, t: Address)
    requires forall u :: TotalsOf(ledger)(u, t)
               == CreditedSum(deposits, credited, u, t) + Net(cfg.base, cfg.quote, log, u, t)
    requires forall trade :: trade in log ==> TradeSeller(trade) in users && TradeBuyer(trade) in users
    ensures SumOver(users, u => BalanceOf(ledger, u, t).Total())
            == SumOver(users, u => CreditedSum(deposits, credited, u, t))
  {
    hide BalanceOf, CreditedSum, Net, TradeSeller, TradeBuyer;
    NetSumsToZero(users, cfg.base, cfg.quote, log, t);
    var total, held, net := (u: Address) => BalanceOf(ledger, u, t).Total(),
        (u: Address) => CreditedSum(deposits, credited, u, t),
                            (u: Address) => Net(cfg.base, cfg.quote, log, u, t);
    forall u ensures total(u) == held(u) + net(u) {
      assert TotalsOf(ledger)(u, t) == total(u);
    }
    SumAdds(users, held, net, total);
    SameSum(users, net, u => Net(cfg.base, cfg.quote, log, u, t));
    SameSum(users, total, u => BalanceOf(ledger, u, t).Total());
    SameSum(users, held, u => CreditedSum(deposits, credited, u, t));
  }
}
