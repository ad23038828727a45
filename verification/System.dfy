/** Gateway, database, settlement task and contract together, as one state machine over every
    interleaving of their steps, crashes included. */
module System {
  import opened Types
  import opened MatchingEngines
  import opened EngineRuns
  import opened Ledgers
  import opened Persistence
  import opened Gateways
  import opened GatewayInvariants
  import opened GatewaySolvency
  import opened Recovery
  import opened Exchanges

  type Batch = seq<(nat, Trade)>

  /** The batch loop: waiting, a batch submitted and not yet answered, or an acknowledged batch whose
      rows are being updated one statement at a time. */
  datatype BatchTask = Idle | InFlight(batch: Batch) | Marking(ids: seq<nat>, done: nat)

  datatype World = World(
    g: Gateway,
    chain: Chain,
    task: BatchTask,
    broadcast: seq<Batch>,     // every batch ever sent; any of them may still reach the contract
    log: seq<Trade>,           // every trade ever produced; the row of log[k] has id k + 1
    settled: seq<nat>,         // row ids of the trades the contract applied, in order
    deposits: seq<Deposit>,    // deposits the contract took, in order
    credited: multiset<nat>)   // how often the ledger credited each of them, by index

  datatype Event =
    | SubmitEvent(order: SignedOrder, orderType: OrderType, now: nat)
    | CancelEvent(nonce: nat, signer: Option<Address>, found: Option<OrderId>)
    | DepositEvent(deposit: Deposit)
    | CreditEvent(index: nat)
    | DrainEvent
    | LandEvent(sent: nat, now: nat)
    | AckEvent
    | FailEvent
    | MarkEvent
    | RestartEvent(now: nat)
    | CancelNonceEvent(maker: Address, nonce: nat)
    | ConfirmCancelEvent(maker: Address, nonce: nat)

  function TradesIn(batch: Batch): seq<Trade> {
    seq(|batch|, i requires 0 <= i < |batch| => batch[i].1)
  }

  function IdsIn(batch: Batch): seq<nat> {
    seq(|batch|, i requires 0 <= i < |batch| => batch[i].0)
  }

  /** One statement of `mark_trades_done`: every row submitted, then every row confirmed, then the
      confirmed rows deleted. */
  function MarkStep(w: World): World
    requires w.task.Marking?
  {
    var n, k := |w.task.ids|, w.task.done;
    if k < n then
      w.(g := WithTrades(w.g, TradesMarked(w.g.db.trades, [w.task.ids[k]], TradeStatus.Submitted)),
         task := Marking(w.task.ids, k + 1))
    else if k < 2 * n then
      w.(g := WithTrades(w.g, TradesMarked(w.g.db.trades, [w.task.ids[k - n]], TradeStatus.Confirmed)),
         task := Marking(w.task.ids, k + 1))
    else
      w.(g := WithTrades(w.g, ConfirmedDeleted(w.g.db.trades)), task := Idle)
  }

  function WithTrades(g: Gateway, trades: map<nat, TradeRow>): Gateway {
    g.(db := g.db.(trades := trades))
  }

  /** One step. A submission would get stuck on a maker that is not in the order map; no run gets
      there. */
  ghost function Next(w: World, cfg: Config, e: Event): World {
    match e
    case SubmitEvent(order, orderType, now) =>
      if MakersKnown(w.g.engine, w.g.orderMap) then
        w.(g := OrderSubmitted(w.g, cfg, order, orderType, now).0,
           log := w.log + NewTrades(w.g, cfg, order, orderType, now))
      else w
    case CancelEvent(nonce, signer, found) =>
      if signer.Some? ==> MayFind(w.g.orderNonceMap, nonce, found)
      then w.(g := CancelRequested(w.g, nonce, signer, found).0) else w
    case DepositEvent(d) =>
      w.(chain := Deposited(w.chain, d.user, d.token, d.amount), deposits := w.deposits + [d])
    case CreditEvent(index) =>
      if index < |w.deposits| then
        var d := w.deposits[index];
        w.(g := DepositCredited(w.g, d.user, d.token, d.amount), credited := w.credited + multiset{index})
      else w
    case DrainEvent =>
      if w.task.Idle? && w.g.pendingTrades != [] then
        w.(g := Drained(w.g), task := InFlight(w.g.pendingTrades), broadcast := w.broadcast + [w.g.pendingTrades])
      else w
    case LandEvent(sent, now) =>
      if sent < |w.broadcast| then
        var r := SettledBatch(w.chain, TradesIn(w.broadcast[sent]), now);
        if r.Settled? then w.(chain := r.chain, settled := w.settled + IdsIn(w.broadcast[sent])) else w
      else w
    case AckEvent =>
      if w.task.InFlight? && (forall id :: id in IdsIn(w.task.batch) ==> id in w.settled)
      then w.(task := Marking(IdsIn(w.task.batch), 0)) else w
    case FailEvent => if w.task.InFlight? then w.(task := Idle) else w
    case MarkEvent => if w.task.Marking? then MarkStep(w) else w
    case RestartEvent(now) => w.(g := Restarted(w.g.db, cfg, now), task := Idle)
    case CancelNonceEvent(maker, nonce) =>
      w.(chain := w.chain.(usedNonces := w.chain.usedNonces + {(maker, nonce)}))
    case ConfirmCancelEvent(maker, nonce) =>
      if (maker, nonce) in w.chain.usedNonces then
        w.(g := w.g.(db := w.g.db.(pendingCancels := w.g.db.pendingCancels - {(maker, nonce)})))
      else w
  }

  // ----- What every run keeps -----

  /** The trades table is the log: a row holds its trade, and a trade without a row waiting to be
      settled was settled. */
  ghost predicate RowsTellLog(trades: map<nat, TradeRow>, next: nat, log: seq<Trade>, settled: seq<nat>) {
    && next == |log| + 1
    && (forall id :: id in trades ==> 0 < id <= |log| && trades[id].trade == log[id - 1])
    && (forall id :: 0 < id <= |log| ==> id in settled || (id in trades && !trades[id].status.Confirmed?))
  }

  ghost predicate BatchTellsLog(batch: Batch, log: seq<Trade>) {
    forall i :: 0 <= i < |batch| ==> 0 < batch[i].0 <= |log| && batch[i].1 == log[batch[i].0 - 1]
  }

  ghost predicate InLog(ids: seq<nat>, log: seq<Trade>) {
    forall i :: 0 <= i < |ids| ==> 0 < ids[i] <= |log|
  }

  ghost function TradesAt(ids: seq<nat>, log: seq<Trade>): seq<Trade>
    requires InLog(ids, log)
  {
    seq(|ids|, i requires 0 <= i < |ids| => log[ids[i] - 1])
  }

  /** Settled trades are in the log, no two of them share a nonce key, and all their keys are used. */
  ghost predicate SettledOnce(settled: seq<nat>, log: seq<Trade>, used: set<NonceKey>) {
    && InLog(settled, log)
    && DisjointKeys(TradesAt(settled, log))
    && AllKeys(TradesAt(settled, log)) <= used
  }

  ghost predicate TaskSound(task: BatchTask, log: seq<Trade>, settled: seq<nat>) {
    match task
    case Idle => true
    case InFlight(batch) => BatchTellsLog(batch, log)
    case Marking(ids, done) => done <= 2 * |ids| && forall id :: id in ids ==> id in settled
  }

  ghost predicate Safe(w: World, cfg: Config) {
    && Consistent(w.g, cfg)
    && RowsTellLog(w.g.db.trades, w.g.db.nextTradeId, w.log, w.settled)
    && BatchTellsLog(w.g.pendingTrades, w.log)
    && (forall k :: 0 <= k < |w.broadcast| ==> BatchTellsLog(w.broadcast[k], w.log))
    && TaskSound(w.task, w.log, w.settled)
    && SettledOnce(w.settled, w.log, w.chain.usedNonces)
    && forall index :: index in w.credited ==> index < |w.deposits|
  }

  const START := World(
    Gateway(EngineState([], [], 1), map[], {}, map[], map[], [], EMPTY_TABLES),
    Chain(map[], {}), Idle, [], [], [], [], multiset{})

  lemma StartIsSafe(cfg: Config)
    ensures Safe(START, cfg)
  {
  }

  // ----- Pieces -----

  lemma BatchMoreLog(batch: Batch, log: seq<Trade>, more: seq<Trade>)
    requires BatchTellsLog(batch, log)
    ensures BatchTellsLog(batch, log + more)
  {
  }

  lemma TaskMoreLog(task: BatchTask, log: seq<Trade>, more: seq<Trade>, settled: seq<nat>)
    requires TaskSound(task, log, settled)
    ensures TaskSound(task, log + more, settled)
  {
    if task.InFlight? { BatchMoreLog(task.batch, log, more); }
  }

  lemma SettledMoreLog(settled: seq<nat>, log: seq<Trade>, more: seq<Trade>, used: set<NonceKey>, used': set<NonceKey>)
    requires SettledOnce(settled, log, used) && used <= used'
    ensures SettledOnce(settled, log + more, used')
  {
    assert InLog(settled, log + more);
    assert TradesAt(settled, log + more) == TradesAt(settled, log);
  }

  lemma TaggedTellsLog(log: seq<Trade>, more: seq<Trade>)
    ensures BatchTellsLog(Tagged(|log| + 1, more), log + more)
  {
  }

  lemma BatchAppend(a: Batch, b: Batch, log: seq<Trade>)
    requires BatchTellsLog(a, log) && BatchTellsLog(b, log)
    ensures BatchTellsLog(a + b, log)
  {
  }

  lemma RowsMoreLog(db: Tables, log: seq<Trade>, more: seq<Trade>, settled: seq<nat>)
    requires RowsTellLog(db.trades, db.nextTradeId, log, settled)
    ensures var db' := TradesInserted(db, more); RowsTellLog(db'.trades, db'.nextTradeId, log + more, settled)
  {
  }

  /** What a submission does to trade rows and pending trades. */
  lemma SubmitTrades(g: Gateway, cfg: Config, order: SignedOrder, orderType: OrderType, now: nat)
    requires MakersKnown(g.engine, g.orderMap)
    ensures var g', trades := OrderSubmitted(g, cfg, order, orderType, now).0, NewTrades(g, cfg, order, orderType, now);
            && g'.db.trades == TradesInserted(g.db, trades).trades
                && g'.db.nextTradeId == TradesInserted(g.db, trades).nextTradeId
            && g'.pendingTrades == g.pendingTrades + Tagged(g.db.nextTradeId, trades)
  {
    hide AfterSubmit, FillsApplied, TradesOf, AfterReserve, Released, Collateral, Refusal, ClientFills, FilledMakers,
      OrdersMarked, NewRows;
    if OrderSubmitted(g, cfg, order, orderType, now).1.Refused? {
      assert g.pendingTrades + Tagged(g.db.nextTradeId, []) == g.pendingTrades;
      NoNewRows(g.db.nextTradeId);
    }
  }

  lemma NoNewRows(next: nat)
    ensures NewRows(next, []) == map[]
  {
  }

  lemma SubmitIsSafe(w: World, cfg: Config, order: SignedOrder, orderType: OrderType, now: nat)
    requires Safe(w, cfg) && MakersKnown(w.g.engine, w.g.orderMap)
    ensures Safe(Next(w, cfg, SubmitEvent(order, orderType, now)), cfg)
  {
    hide Consistent, OrderSubmitted, NewTrades, RowsTellLog, BatchTellsLog, TaskSound, SettledOnce, TradesInserted,
      Tagged;
    SubmitKeepsConsistent(w.g, cfg, order, orderType, now);
    SubmitTrades(w.g, cfg, order, orderType, now);
    var more := NewTrades(w.g, cfg, order, orderType, now);
    RowsMoreLog(w.g.db, w.log, more, w.settled);
    assert w.g.db.nextTradeId == |w.log| + 1 by { NextIs(w, cfg); }
    TaggedTellsLog(w.log, more);
    BatchMoreLog(w.g.pendingTrades, w.log, more);
    BatchAppend(w.g.pendingTrades, Tagged(|w.log| + 1, more), w.log + more);
    forall k | 0 <= k < |w.broadcast|
        ensures BatchTellsLog(w.broadcast[k], w.log + more) { BatchMoreLog(w.broadcast[k], w.log, more); }
    TaskMoreLog(w.task, w.log, more, w.settled);
    SettledMoreLog(w.settled, w.log, more, w.chain.usedNonces, w.chain.usedNonces);
  }

  lemma NextIs(w: World, cfg: Config)
    requires Safe(w, cfg)
    ensures w.g.db.nextTradeId == |w.log| + 1
  {
  }

  // ----- Landing a batch -----

  /** A batch that lands settles trades that were not settled before, each once. */
  lemma LandedOnce(settled: seq<nat>, log: seq<Trade>, c: Chain, batch: Batch, now: nat)
    requires SettledOnce(settled, log, c.usedNonces) && BatchTellsLog(batch, log)
    requires SettledBatch(c, TradesIn(batch), now).Settled?
    ensures SettledOnce(settled + IdsIn(batch), log, SettledBatch(c, TradesIn(batch), now).chain.usedNonces)
  {
    hide SettledBatch, FreshKeys, DisjointKeys, AllKeys;
    var trades, ids := TradesIn(batch), IdsIn(batch);
    SettledKeysAreFresh(c, trades, now);
    assert InLog(ids, log) && TradesAt(ids, log) == trades;
    assert TradesAt(settled + ids, log) == TradesAt(settled, log) + trades;
    JoinOnce(TradesAt(settled, log), trades, c.usedNonces);
  }

  lemma JoinOnce(a: seq<Trade>, b: seq<Trade>, used: set<NonceKey>)
    requires DisjointKeys(a) && AllKeys(a) <= used && FreshKeys(used, b)
    ensures DisjointKeys(a + b) && AllKeys(a + b) <= used + AllKeys(b)
  {
    assert FreshKeys({}, a);
    FreshKeysFewer({} + AllKeys(a), used, b);
    FreshKeysConcat({}, a, b);
    forall key | key in AllKeys(a + b) ensures key in used + AllKeys(b) {
      var trade :| trade in a + b && key in KeysOf(trade);
      assert trade in a || trade in b;
    }
  }

  lemma LandIsSafe(w: World, cfg: Config, sent: nat, now: nat)
    requires Safe(w, cfg)
    ensures Safe(Next(w, cfg, LandEvent(sent, now)), cfg)
  {
    hide Consistent, SettledBatch, BatchTellsLog, SettledOnce;
    if sent < |w.broadcast| && SettledBatch(w.chain, TradesIn(w.broadcast[sent]), now).Settled? {
      LandedOnce(w.settled, w.log, w.chain, w.broadcast[sent], now);
      assert forall id :: id in w.settled ==> id in w.settled + IdsIn(w.broadcast[sent]);
    }
  }

  // ----- Marking rows -----

  /** Marking the row of a settled trade, or deleting rows that are confirmed, forgets nothing. */
  lemma MarkedRowsTellLog(trades: map<nat, TradeRow>, next: nat, log: seq<Trade>, settled: seq<nat>, id: nat,
                          status: TradeStatus)
    requires RowsTellLog(trades, next, log, settled) && id in settled
    ensures RowsTellLog(TradesMarked(trades, [id], status), next, log, settled)
  {
  }

  lemma DeletedRowsTellLog(trades: map<nat, TradeRow>, next: nat, log: seq<Trade>, settled: seq<nat>)
    requires RowsTellLog(trades, next, log, settled)
    ensures RowsTellLog(ConfirmedDeleted(trades), next, log, settled)
  {
  }

  lemma MarkIsSafe(w: World, cfg: Config)
    requires Safe(w, cfg)
    ensures Safe(Next(w, cfg, MarkEvent), cfg)
  {
    hide Consistent, BatchTellsLog, SettledOnce, RowsTellLog, TradesMarked, ConfirmedDeleted;
    if w.task.Marking? {
      TradesIrrelevant(w.g, cfg, MarkStep(w).g.db.trades);
      var n, k := |w.task.ids|, w.task.done;
      if k < n {
        MarkedRowsTellLog(w.g.db.trades, w.g.db.nextTradeId, w.log, w.settled, w.task.ids[k], TradeStatus.Submitted);
      } else if k < 2 * n {
        MarkedRowsTellLog(w.g.db.trades, w.g.db.nextTradeId, w.log, w.settled, w.task.ids[k - n],
                          TradeStatus.Confirmed);
      } else {
        DeletedRowsTellLog(w.g.db.trades, w.g.db.nextTradeId, w.log, w.settled);
      }
    }
  }

  lemma TradesIrrelevant(g: Gateway, cfg: Config, trades: map<nat, TradeRow>)
    requires Consistent(g, cfg)
    ensures Consistent(WithTrades(g, trades), cfg)
  {
    hide Sound, Entered;
    SameEntered(g, cfg, WithTrades(g, trades));
    MirroredSameRows(g.ledger, g.db, WithTrades(g, trades).db);
  }

  lemma DrainIsSafe(w: World, cfg: Config)
    requires Safe(w, cfg)
    ensures Safe(Next(w, cfg, DrainEvent), cfg)
  {
    hide Sound, Entered, Mirrored, RowsTellLog, SettledOnce;
    if w.task.Idle? && w.g.pendingTrades != [] {
      SameEntered(w.g, cfg, Drained(w.g));
    }
  }

  // ----- Restarting -----

  /** What a restart loads as pending are the trades that still have a row. */
  lemma RestartLoadsTrades(w: World, cfg: Config, now: nat)
    requires RowsTellLog(w.g.db.trades, w.g.db.nextTradeId, w.log, w.settled)
    ensures BatchTellsLog(Restarted(w.g.db, cfg, now).pendingTrades, w.log)
    ensures Restarted(w.g.db, cfg, now).db.trades == w.g.db.trades
    ensures Restarted(w.g.db, cfg, now).db.nextTradeId == w.g.db.nextTradeId
  {
    var ids, batch := Ascending(UnsettledIds(w.g.db.trades)), PendingTrades(w.g.db.trades);
    forall i | 0 <= i < |batch| ensures 0 < batch[i].0 <= |w.log| && batch[i].1 == w.log[batch[i].0 - 1] {
      assert ids[i] in ids;
    }
  }

  lemma RestartIsSafe(w: World, cfg: Config, now: nat)
    requires Safe(w, cfg)
    ensures Safe(Next(w, cfg, RestartEvent(now)), cfg)
  {
    hide Consistent, Restarted, RowsTellLog, BatchTellsLog, SettledOnce;
    RestartKeepsConsistent(w.g, cfg, now);
    RestartLoadsTrades(w, cfg, now);
  }

  lemma ConfirmIsSafe(w: World, cfg: Config, maker: Address, nonce: nat)
    requires Safe(w, cfg)
    ensures Safe(Next(w, cfg, ConfirmCancelEvent(maker, nonce)), cfg)
  {
    hide Sound, Entered, Mirrored, RowsTellLog, BatchTellsLog, SettledOnce, TaskSound, OrderSubmitted, NewTrades,
      CancelRequested, DepositCredited, Restarted, SettledBatch, MarkStep;
    var w' := Next(w, cfg, ConfirmCancelEvent(maker, nonce));
    SameEntered(w.g, cfg, w'.g);
    MirroredSameRows(w.g.ledger, w.g.db, w'.g.db);
  }

  lemma CreditIsSafe(w: World, cfg: Config, index: nat)
    requires Safe(w, cfg)
    ensures Safe(Next(w, cfg, CreditEvent(index)), cfg)
  {
    hide Consistent, RowsTellLog, BatchTellsLog, SettledOnce, TaskSound;
    if index < |w.deposits| {
      var d := w.deposits[index];
      CreditKeepsConsistent(w.g, cfg, d.user, d.token, d.amount);
    }
  }

  lemma CancelIsSafe(w: World, cfg: Config, nonce: nat, signer: Option<Address>, found: Option<OrderId>)
    requires Safe(w, cfg)
    ensures Safe(Next(w, cfg, CancelEvent(nonce, signer, found)), cfg)
  {
    hide Consistent, RowsTellLog, BatchTellsLog, SettledOnce, TaskSound;
    if signer.Some? ==> MayFind(w.g.orderNonceMap, nonce, found) {
      CancelKeepsConsistent(w.g, cfg, nonce, signer, found);
    }
  }

  /** Every step of every component keeps the whole safe, crashes and late batches included. */
  lemma StepIsSafe(w: World, cfg: Config, e: Event)
    requires Safe(w, cfg)
    ensures MakersKnown(w.g.engine, w.g.orderMap) && Safe(Next(w, cfg, e), cfg)
  {
    hide Consistent, RowsTellLog, BatchTellsLog;
    ConsistentKnowsMakers(w.g, cfg);
    match e
    case SubmitEvent(order, orderType, now) => SubmitIsSafe(w, cfg, order, orderType, now);
    case CancelEvent(nonce, signer, found) => CancelIsSafe(w, cfg, nonce, signer, found);
    case DepositEvent(d) =>
    case CreditEvent(index) => CreditIsSafe(w, cfg, index);
    case DrainEvent => DrainIsSafe(w, cfg);
    case LandEvent(sent, now) => LandIsSafe(w, cfg, sent, now);
    case AckEvent =>
    case FailEvent =>
    case MarkEvent => MarkIsSafe(w, cfg);
    case RestartEvent(now) => RestartIsSafe(w, cfg, now);
    case CancelNonceEvent(maker, nonce) =>
    case ConfirmCancelEvent(maker, nonce) => ConfirmIsSafe(w, cfg, maker, nonce);
  }

  // ----- Runs -----

  lemma SafeKnowsMakers(w: World, cfg: Config)
    requires Safe(w, cfg)
    ensures MakersKnown(w.g.engine, w.g.orderMap)
  {
    hide Consistent;
    ConsistentKnowsMakers(w.g, cfg);
  }

  /** The states that events lead through, from the empty start. */
  ghost predicate IsRun(cfg: Config, events: seq<Event>, states: seq<World>) {
    && |states| == |events| + 1 && states[0] == START
    && forall k {:trigger events[k]} :: 0 <= k < |events| ==> states[k + 1] == Next(states[k], cfg, events[k])
  }

  /** Some run, of any events in any order, ends here. */
  ghost predicate Reached(cfg: Config, w: World) {
    exists events, states :: IsRun(cfg, events, states) && states[|events|] == w
  }

  /** Every event can follow every run. */
  lemma ReachedSteps(cfg: Config, w: World, e: Event)
    requires Reached(cfg, w)
    ensures Reached(cfg, START) && Reached(cfg, Next(w, cfg, e))
  {
    hide Next;
    assert IsRun(cfg, [], [START]);
    var events, states :| IsRun(cfg, events, states) && states[|events|] == w;
    var more, further := events + [e], states + [Next(w, cfg, e)];
    forall k | 0 <= k < |more| ensures further[k + 1] == Next(further[k], cfg, more[k]) {
      assert k < |events| ==> more[k] == events[k];
    }
    assert IsRun(cfg, more, further);
  }

  lemma {:induction false} RunIsSafe(cfg: Config, events: seq<Event>, states: seq<World>, k: nat)
    requires IsRun(cfg, events, states) && k < |states|
    ensures Safe(states[k], cfg)
  {
    hide Safe, Next;
    if k == 0 {
      StartIsSafe(cfg);
    } else {
      assert states[k] == Next(states[k - 1], cfg, events[k - 1]);
      RunIsSafe(cfg, events, states, k - 1);
      StepIsSafe(states[k - 1], cfg, events[k - 1]);
    }
  }

  /** Every reachable state is safe, and no submission gets stuck in it. */
  lemma ReachedIsSafe(cfg: Config, w: World)
    requires Reached(cfg, w)
    ensures Safe(w, cfg) && MakersKnown(w.g.engine, w.g.orderMap)
  {
    hide Safe, Next;
    var events, states :| IsRun(cfg, events, states) && states[|events|] == w;
    RunIsSafe(cfg, events, states, |events|);
    SafeKnowsMakers(w, cfg);
  }

  /** Every state along a run is reachable. */
  lemma RunIsReached(cfg: Config, events: seq<Event>, states: seq<World>, k: nat)
    requires IsRun(cfg, events, states) && k < |states|
    ensures Reached(cfg, states[k])
  {
    assert IsRun(cfg, events[..k], states[..k + 1]);
  }

  /** No trade is forgotten: in every reachable state, every trade ever produced was applied by the
      contract or still has a row waiting to be submitted. A row is gone only after its trade was
      settled. */
  lemma NoTradeForgotten(cfg: Config, w: World, id: nat)
    requires Reached(cfg, w) && 0 < id <= |w.log|
    ensures id in w.settled
            || (id in w.g.db.trades && w.g.db.trades[id].trade == w.log[id - 1]
                && w.g.db.trades[id].status in {Pending, TradeStatus.Submitted})
  {
    hide Consistent, BatchTellsLog, TaskSound, SettledOnce, Reached;
    ReachedIsSafe(cfg, w);
  }

  /** None settles twice: in every reachable state, with batches landing late, repeatedly or after a
      restart sent the same trades again, no row id was applied twice and no nonce key is in two
      applied trades. */
  lemma NoTradeSettlesTwice(cfg: Config, w: World, i: nat, j: nat)
    requires Reached(cfg, w) && i < j < |w.settled|
    ensures w.settled[i] != w.settled[j]
    ensures 0 < w.settled[i] <= |w.log| && 0 < w.settled[j] <= |w.log|
    ensures KeysOf(w.log[w.settled[i] - 1]) !! KeysOf(w.log[w.settled[j] - 1])
  {
    hide Consistent, RowsTellLog, BatchTellsLog, TaskSound, SettledOnce, Reached;
    ReachedIsSafe(cfg, w);
    SettledApart(w.settled, w.log, w.chain.usedNonces, i, j);
  }

  lemma SettledApart(settled: seq<nat>, log: seq<Trade>, used: set<NonceKey>, i: nat, j: nat)
    requires SettledOnce(settled, log, used) && i < j < |settled|
    ensures settled[i] != settled[j]
    ensures 0 < settled[i] <= |log| && 0 < settled[j] <= |log|
    ensures KeysOf(log[settled[i] - 1]) !! KeysOf(log[settled[j] - 1])
  {
    var trades := TradesAt(settled, log);
    assert KeysOf(trades[i]) !! KeysOf(trades[j]);
    assert trades[i].makerOrder.NonceKey() in KeysOf(trades[i]);
  }
}
