/** The batch loop sends the log in order: exactly when the batch in flight is the next slice of it, and
    what becomes of a batch that is not. */
module BatchOrder {
  import opened Types
  import opened Persistence
  import opened Gateways
  import opened GatewayInvariants
  import opened GatewaySolvency
  import opened Recovery
  import opened Exchanges
  import opened System
  import opened Agreement
  import opened GuardedRuns

  function Joined(batches: seq<Batch>): Batch {
    if batches == [] then [] else Joined(batches[..|batches| - 1]) + batches[|batches| - 1]
  }

  /** Row ids and trades of the log after the first `first`. */
  function Slice(log: seq<Trade>, first: nat, n: nat): Batch
    requires first + n <= |log|
  {
    seq(n, i requires 0 <= i < n => (first + i + 1, log[first + i]))
  }

  function Numbers(first: nat, n: nat): seq<nat> {
    seq(n, i requires 0 <= i < n => first + i + 1)
  }

  /** What was sent since the first `b` batches, and what is pending, is the log after its first `k`
      trades, in order; the batch in flight was sent last. */
  ghost predicate Orderly(w: World, b: nat, k: nat) {
    && b <= |w.broadcast| && k <= |w.log|
    && Joined(w.broadcast[b..]) + w.g.pendingTrades == Slice(w.log, k, |w.log| - k)
    && (w.task.InFlight? ==>
          w.broadcast[b..] != [] && w.broadcast[|w.broadcast| - 1] == w.task.batch && w.task.batch != [])
  }

  /** No row of a settled trade waits to be sent again. */
  ghost predicate RowsRetired(w: World) {
    forall id :: id in w.settled && id in w.g.db.trades ==> w.g.db.trades[id].status.Confirmed?
  }

  /** The run has had no restart since its state `p`: its start, or a restart at which the contract had
      applied the first `k` trades and their rows were retired. */
  ghost predicate SteadySince(events: seq<Event>, states: seq<World>, p: nat, b: nat, k: nat)
    requires |states| == |events| + 1
  {
    && p < |states| && b == |states[p].broadcast|
    && (if p == 0 then k == 0 else events[p - 1].RestartEvent? && SettledPrefix(states[p], k) && RowsRetired(states[p]))
    && forall i :: p <= i < |events| ==> !events[i].RestartEvent?
  }

  ghost predicate ReachedSteadily(cfg: Config, w: World, b: nat, k: nat) {
    exists events, states, p ::
      IsRun(cfg, events, states) && SteadySince(events, states, p, b, k) && states[|events|] == w
  }

  lemma JoinedOneMore(batches: seq<Batch>, batch: Batch)
    ensures Joined(batches + [batch]) == Joined(batches) + batch
  {
    assert (batches + [batch])[..|batches|] == batches;
  }

  lemma SliceExtends(log: seq<Trade>, more: seq<Trade>, k: nat)
    requires k <= |log|
    ensures Slice(log + more, k, |log + more| - k) == Slice(log, k, |log| - k) + Tagged(|log| + 1, more)
  {
  }

  lemma StepIsOrderly(w: World, cfg: Config, e: Event, b: nat, k: nat)
    requires Safe(w, cfg) && Orderly(w, b, k) && !e.RestartEvent?
    ensures Orderly(Next(w, cfg, e), b, k)
  {
    hide Consistent, OrderSubmitted, NewTrades, CancelRequested, DepositCredited, SettledBatch, Slice, Tagged, Joined,
      MakersKnown;
    if e.SubmitEvent? && MakersKnown(w.g.engine, w.g.orderMap) {
      SubmitTrades(w.g, cfg, e.order, e.orderType, e.now);
      NextIs(w, cfg);
      SliceExtends(w.log, NewTrades(w.g, cfg, e.order, e.orderType, e.now), k);
    } else if e.CancelEvent? {
      CancelLeavesTrades(w.g, e.nonce, e.signer, e.found);
    } else if e.CreditEvent? {
      CreditLeavesTrades(w, cfg, e.index);
    } else if e.DrainEvent? {
      var sent := w.broadcast + [w.g.pendingTrades];
      assert sent[b..] == w.broadcast[b..] + [w.g.pendingTrades];
      JoinedOneMore(w.broadcast[b..], w.g.pendingTrades);
    }
  }

  lemma CancelLeavesTrades(g: Gateway, nonce: nat, signer: Option<Address>, found: Option<OrderId>)
    ensures (signer.Some? ==> MayFind(g.orderNonceMap, nonce, found))
            ==> CancelRequested(g, nonce, signer, found).0.pendingTrades == g.pendingTrades
  {
  }

  lemma CreditLeavesTrades(w: World, cfg: Config, index: nat)
    ensures Next(w, cfg, CreditEvent(index)).g.pendingTrades == w.g.pendingTrades
  {
  }

  // ----- Restarts -----

  ghost predicate Rising(ids: seq<nat>) {
    forall i, j :: 0 <= i < j < |ids| ==> ids[i] < ids[j]
  }

  lemma {:induction false} RisingIsUnique(a: seq<nat>, b: seq<nat>)
    requires Rising(a) && Rising(b) && forall id :: id in a <==> id in b
    ensures a == b
  {
    assert a != [] ==> a[0] in a;
    assert b != [] ==> b[0] in b;
    if a != [] {
      var i :| 0 <= i < |a| && a[i] == b[0];
      var j :| 0 <= j < |b| && b[j] == a[0];
      assert a[0] == b[0];
      RisingTail(a);
      RisingTail(b);
      RisingIsUnique(a[1..], b[1..]);
      assert a == [a[0]] + a[1..] && b == [b[0]] + b[1..];
    }
  }

  lemma RisingTail(a: seq<nat>)
    requires Rising(a) && a != []
    ensures Rising(a[1..]) && forall id :: id in a[1..] <==> id in a && id != a[0]
  {
    forall id | id in a && id != a[0] ensures id in a[1..] {
      var i :| 0 <= i < |a| && a[i] == id;
      assert a[1..][i - 1] == id;
    }
    forall id | id in a[1..] ensures id in a && id != a[0] {
      var i :| 0 <= i < |a[1..]| && a[1..][i] == id;
      assert a[i + 1] == id;
    }
  }

  lemma PendingIds(trades: map<nat, TradeRow>)
    ensures IdsIn(PendingTrades(trades)) == Ascending(UnsettledIds(trades))
  {
  }

  /** With the first `k` trades applied, a restart has exactly the rest of the log pending, in order, if
      and only if no row of an applied trade was still waiting. */
  lemma RestartIsSliceIff(cfg: Config, w: World, now: nat, k: nat)
    requires Reached(cfg, w) && SettledPrefix(w, k)
    ensures Restarted(w.g.db, cfg, now).pendingTrades == Slice(w.log, k, |w.log| - k) <==> RowsRetired(w)
  {
    hide Reached, Restarted, Ascending;
    ReachedIsSafe(cfg, w);
    RestartPending(w, cfg, now);
    var trades, batch := w.g.db.trades, PendingTrades(w.g.db.trades);
    var ids, rest := Ascending(UnsettledIds(trades)), Numbers(k, |w.log| - k);
    PendingIds(trades);
    RowsAre(cfg, w, k);
    if RowsRetired(w) {
      forall id ensures id in ids <==> id in rest {
        if k < id <= |w.log| { assert rest[id - k - 1] == id; }
      }
      RisingIsUnique(ids, rest);
      forall i | 0 <= i < |batch| ensures batch[i] == Slice(w.log, k, |w.log| - k)[i] {
        assert IdsIn(batch)[i] == rest[i];
      }
    } else {
      var id :| id in w.settled && id in trades && !trades[id].status.Confirmed?;
      assert id in ids;
      var i :| 0 <= i < |batch| && IdsIn(batch)[i] == id;
      assert batch[i].0 == id <= k;
      assert i < |w.log| - k ==> Slice(w.log, k, |w.log| - k)[i].0 == k + i + 1;
    }
  }

  lemma RestartPending(w: World, cfg: Config, now: nat)
    requires RowsTellLog(w.g.db.trades, w.g.db.nextTradeId, w.log, w.settled)
    ensures Restarted(w.g.db, cfg, now).pendingTrades == PendingTrades(w.g.db.trades)
    ensures BatchTellsLog(PendingTrades(w.g.db.trades), w.log)
  {
    hide PendingTrades, RestingOrders, BatchTellsLog;
    RestartLoadsTrades(w, cfg, now);
  }

  /** The rows that wait: all after the first `k`, and those of applied trades that were not retired. */
  lemma RowsAre(cfg: Config, w: World, k: nat)
    requires Safe(w, cfg) && SettledPrefix(w, k)
    ensures forall id :: k < id <= |w.log| ==> id in UnsettledIds(w.g.db.trades)
    ensures forall id :: id in UnsettledIds(w.g.db.trades) ==> 0 < id <= |w.log|
    ensures forall id :: id in w.settled <==> 0 < id <= k
  {
    hide Consistent;
    forall id ensures id in w.settled <==> 0 < id <= k {
      if 0 < id <= k { assert w.settled[id - 1] == id; }
    }
  }

  // ----- Runs -----

  lemma RestartIsOrderly(cfg: Config, w: World, now: nat, k: nat)
    requires Reached(cfg, w)
    requires var h := Next(w, cfg, RestartEvent(now)); SettledPrefix(h, k) && RowsRetired(h)
    ensures Orderly(Next(w, cfg, RestartEvent(now)), |w.broadcast|, k)
  {
    hide Reached, Restarted;
    ReachedIsSafe(cfg, w);
    RestartLoadsTrades(w, cfg, now);
    RestartIsSliceIff(cfg, w, now, k);
    assert w.broadcast[|w.broadcast|..] == [];
  }

  lemma {:induction false} RunIsOrderly(cfg: Config, events: seq<Event>, states: seq<World>, p: nat, b: nat, k: nat,
                                        i: nat)
    requires IsRun(cfg, events, states) && SteadySince(events, states, p, b, k) && p <= i < |states|
    ensures Orderly(states[i], b, k)
    decreases i - p
  {
    hide Next, Safe, Orderly, SettledPrefix, RowsRetired;
    if i > p {
      assert states[i] == Next(states[i - 1], cfg, events[i - 1]);
      RunIsSafe(cfg, events, states, i - 1);
      RunIsOrderly(cfg, events, states, p, b, k, i - 1);
      StepIsOrderly(states[i - 1], cfg, events[i - 1], b, k);
    } else if p == 0 {
      StartIsOrderly();
    } else {
      assert states[p] == Next(states[p - 1], cfg, events[p - 1]);
      RunIsReached(cfg, events, states, p - 1);
      RestartSends(states[p - 1], cfg, events[p - 1].now);
      RestartIsOrderly(cfg, states[p - 1], events[p - 1].now, k);
    }
  }

  lemma RestartSends(w: World, cfg: Config, now: nat)
    ensures Next(w, cfg, RestartEvent(now)).broadcast == w.broadcast
  {
  }

  lemma StartIsOrderly()
    ensures Orderly(START, 0, 0)
  {
  }

  // ----- The batch in flight -----

  /** Everything sent since then, but the last batch, was applied in order. */
  ghost predicate EarlierApplied(w: World, b: nat, k: nat) {
    b < |w.broadcast| && w.settled == Numbers(0, k) + IdsIn(Joined(w.broadcast[b..|w.broadcast| - 1]))
  }

  /** The batch in flight is the next slice of the log after what the contract applied. */
  ghost predicate IsNextSlice(w: World, batch: Batch) {
    var k, n := |w.settled|, |batch|;
    SettledPrefix(w, k) && k + n <= |w.log| && batch == Slice(w.log, k, n)
  }

  /** From the start, and again from every restart that finds its rows retired: the batch in flight is the
      next slice of the log if and only if everything sent before it was applied in order. */
  lemma InFlightIsNextSliceIff(cfg: Config, w: World, b: nat, k: nat)
    requires ReachedSteadily(cfg, w, b, k) && w.task.InFlight?
    ensures IsNextSlice(w, w.task.batch) <==> EarlierApplied(w, b, k)
  {
    hide Next, Joined, SteadySince, SettledPrefix;
    var events: seq<Event>, states: seq<World>, p: nat :|
      IsRun(cfg, events, states) && SteadySince(events, states, p, b, k) && states[|events|] == w;
    SteadyBefore(events, states, p, b, k);
    RunIsOrderly(cfg, events, states, p, b, k, |events|);
    OrderlyIff(w, b, k);
  }

  lemma SteadyBefore(events: seq<Event>, states: seq<World>, p: nat, b: nat, k: nat)
    requires |states| == |events| + 1 && SteadySince(events, states, p, b, k)
    ensures p <= |events|
  {
  }

  lemma OrderlyIff(w: World, b: nat, k: nat)
    requires Orderly(w, b, k) && w.task.InFlight?
    ensures IsNextSlice(w, w.task.batch) <==> EarlierApplied(w, b, k)
  {
    hide Joined;
    var sent, batch, last := w.broadcast[b..], w.task.batch, |w.broadcast| - 1;
    var earlier := Joined(w.broadcast[b..last]);
    assert sent == w.broadcast[b..last] + [batch];
    JoinedOneMore(w.broadcast[b..last], batch);
    var all, c := Slice(w.log, k, |w.log| - k), |earlier|;
    assert all == earlier + batch + w.g.pendingTrades;
    forall i | 0 <= i < c ensures earlier[i] == (k + i + 1, w.log[k + i]) { assert all[i] == earlier[i]; }
    forall i | 0 <= i < |batch| ensures batch[i] == (k + c + i + 1, w.log[k + c + i]) { assert all[c + i] == batch[i]; }
    var applied := Numbers(0, k) + IdsIn(earlier);
    assert applied == Numbers(0, k + c);
    if IsNextSlice(w, batch) {
      assert batch[0] == (|w.settled| + 1, w.log[|w.settled|]);
      assert |w.settled| == k + c;
      assert w.settled == applied;
    }
    if EarlierApplied(w, b, k) {
      assert |w.settled| == k + c;
      assert w.settled == seq(k + c, i => i + 1);
      assert batch == Slice(w.log, k + c, |batch|);
    }
  }

  /** So it settles if and only if none of its orders expired and no nonce key of it was used or
      repeats; it never fails on a balance or a price. */
  lemma InFlightSettlesIff(cfg: Config, w: World, b: nat, k: nat, now: nat)
    requires ReachedSteadily(cfg, w, b, k) && ReachedWithin(cfg, w) && NothingOvercredited(w)
    ensures w.task.InFlight? && EarlierApplied(w, b, k) ==>
            var batch, r := TradesIn(w.task.batch), SettledBatch(w.chain, TradesIn(w.task.batch), now);
            && (r.Settled? <==> FreshKeys(w.chain.usedNonces, batch) && Unexpired(batch, now))
            && (r.Reverted? ==> r.error in {Revert.OrderExpired, NonceAlreadyUsed})
  {
    hide ReachedSteadily, ReachedWithin, SettledBatch, FreshKeys, Unexpired, EarlierApplied, SettledPrefix;
    if !w.task.InFlight? || !EarlierApplied(w, b, k) { return; }
    InFlightIsNextSliceIff(cfg, w, b, k);
    var settled, n := |w.settled|, |w.task.batch|;
    assert TradesIn(w.task.batch) == w.log[settled..settled + n];
    LogSettlesInOrder(cfg, w, settled, n, now);
  }

  // ----- Batches that hold a settled trade -----

  /** A batch that holds a row already applied, as one drained after a restart before the rows were
      retired, reverts now and ever after: the trades sent with it stay blocked. */
  lemma BatchWithSettledRowReverts(cfg: Config, w: World, sent: nat, id: nat, now: nat)
    requires Reached(cfg, w) && sent < |w.broadcast|
    requires id in IdsIn(w.broadcast[sent]) && id in w.settled
    ensures SettledBatch(w.chain, TradesIn(w.broadcast[sent]), now).Reverted?
    ensures Next(w, cfg, LandEvent(sent, now)) == w
  {
    hide Reached, SettledBatch, Consistent, RowsTellLog, TaskSound, OrderSubmitted, NewTrades, CancelRequested,
      Restarted, DepositCredited, MarkStep, Safe, SettledOnce;
    ReachedIsSafe(cfg, w);
    SafeParts(w, cfg);
    var batch := w.broadcast[sent];
    var i :| 0 <= i < |batch| && IdsIn(batch)[i] == id;
    var j :| 0 <= j < |w.settled| && w.settled[j] == id;
    assert TradesIn(batch)[i] == w.log[id - 1];
    SettledKeyIsUsed(w.settled, w.log, w.chain.usedNonces, j);
    if SettledBatch(w.chain, TradesIn(batch), now).Settled? {
      SettledKeysAreFresh(w.chain, TradesIn(batch), now);
    }
  }

  lemma SettledKeyIsUsed(settled: seq<nat>, log: seq<Trade>, used: set<NonceKey>, j: nat)
    requires SettledOnce(settled, log, used) && j < |settled|
    ensures 0 < settled[j] <= |log| && log[settled[j] - 1].makerOrder.NonceKey() in used
  {
    var trades := TradesAt(settled, log);
    assert trades[j] in trades && trades[j].makerOrder.NonceKey() in KeysOf(trades[j]);
    assert trades[j].makerOrder.NonceKey() in AllKeys(trades);
  }

  /** What was applied stays applied, so a blocked batch stays blocked. */
  lemma SettledStays(w: World, cfg: Config, e: Event, id: nat)
    requires id in w.settled
    ensures id in Next(w, cfg, e).settled
    ensures w.broadcast <= Next(w, cfg, e).broadcast
  {
  }
}
