/** The batch loop over the real objects, and its row updates as the steps of the state machine. */
module BatchLoop {
  import opened Types
  import opened Persistence
  import opened Gateways
  import opened AppStates
  import opened Exchanges
  import opened System

  function MarkedDone(trades: map<nat, TradeRow>, ids: seq<nat>): map<nat, TradeRow> {
    ConfirmedDeleted(TradesMarked(TradesMarked(trades, ids, TradeStatus.Submitted), ids, TradeStatus.Confirmed))
  }

  /** Of the old rows, those stay that were neither listed nor confirmed, each as it was. */
  lemma MarkedDoneIs(trades: map<nat, TradeRow>, ids: seq<nat>)
    ensures forall id :: id in MarkedDone(trades, ids)
              <==> id in trades && id !in ids && trades[id].status != TradeStatus.Confirmed
    ensures forall id :: id in MarkedDone(trades, ids) ==> MarkedDone(trades, ids)[id] == trades[id]
  {
  }

  /** The listed rows are gone, and of the others exactly those that were confirmed. */
  method MarkTradesDone(db: Db, ids: seq<nat>)
    modifies db
    ensures db.State() == old(db.State()).(trades := MarkedDone(old(db.trades), ids))
    ensures forall id :: id in db.trades
              <==> id in old(db.trades) && id !in ids && old(db.trades)[id].status != TradeStatus.Confirmed
    ensures forall id :: id in db.trades ==> db.trades[id] == old(db.trades)[id]
  {
    hide TradesMarked, ConfirmedDeleted, MarkedDone;
    MarkedDoneIs(db.trades, ids);
    assert MarkedDone(db.trades, ids)
           == ConfirmedDeleted(TradesMarked(TradesMarked(db.trades, ids, TradeStatus.Submitted), ids,
                                            TradeStatus.Confirmed)) by {
      Statements(db.trades, ids);
    }
    db.MarkTrades(ids, TradeStatus.Submitted);
    db.MarkTrades(ids, TradeStatus.Confirmed);
    db.DeleteConfirmedTrades();
  }

  lemma Statements(trades: map<nat, TradeRow>, ids: seq<nat>)
    ensures MarkedDone(trades, ids)
            == ConfirmedDeleted(TradesMarked(TradesMarked(trades, ids, TradeStatus.Submitted), ids,
                                             TradeStatus.Confirmed))
  {
  }

  /** Gateway and contract after a round, and the error it ends with. */
  function RoundEnd(g: Gateway, c: Chain, now: nat): (Gateway, Chain, Option<Revert>) {
    var batch := g.pendingTrades;
    if batch == [] then (g, c, None) else
      match SettledBatch(c, TradesIn(batch), now)
      case Settled(d) => (WithTrades(Drained(g), MarkedDone(g.db.trades, IdsIn(batch))), d, None)
      case Reverted(error) => (Drained(g), c, Some(error))
  }

  /** One round of the loop: drain, submit, and on success retire the rows; on failure the drained
      trades keep their rows and nothing else changes. */
  method BatchRound(s: AppState, exchange: Exchange, operator: Address, now: nat) returns (error: Option<Revert>)
    requires s.Valid() && exchange.operator == operator
    modifies s, s.db, exchange
    ensures s.Valid()
    ensures (s.State(), exchange.State(), error) == RoundEnd(old(s.State()), old(exchange.State()), now)
    ensures s.pendingTrades == []
    ensures error.None? && old(s.pendingTrades) != [] ==>
              && (forall id :: id in s.db.trades
                    <==> id in old(s.db.trades) && id !in IdsIn(old(s.pendingTrades))
                         && old(s.db.trades)[id].status != TradeStatus.Confirmed)
              && forall id :: id in s.db.trades ==> s.db.trades[id] == old(s.db.trades)[id]
    ensures error.Some? ==> exchange.State() == old(exchange.State()) && s.db.State() == old(s.db.State())
  {
    hide SettledBatch, MarkedDone;
    if s.pendingTrades == [] {
      return None;
    }
    var batch := s.DrainBatch();
    error := exchange.SettleBatch(operator, TradesIn(batch), now);
    if error.None? {
      MarkTradesDone(s.db, IdsIn(batch));
    }
  }

  // ----- The statements one by one -----

  ghost function MarkSteps(w: World, n: nat): World
    requires n > 0 ==> w.task.Marking? && w.task.done + n <= 2 * |w.task.ids| + 1
    decreases n
  {
    if n == 0 then w else
      var next := MarkStep(w);
      if n == 1 then next else MarkSteps(next, n - 1)
  }

  lemma MarkOneMore(trades: map<nat, TradeRow>, ids: seq<nat>, k: nat, status: TradeStatus)
    requires k < |ids|
    ensures TradesMarked(TradesMarked(trades, [ids[k]], status), ids[k + 1..], status)
            == TradesMarked(trades, ids[k..], status)
  {
    assert ids[k..] == [ids[k]] + ids[k + 1..];
  }

  lemma MarkNone(trades: map<nat, TradeRow>, status: TradeStatus)
    ensures TradesMarked(trades, [], status) == trades
  {
  }

  /** From any statement on, the remaining statements of `mark_trades_done` end with the rows that the
      whole of it computes. */
  lemma {:induction false} StatementsAddUp(w: World)
    requires w.task.Marking? && w.task.done <= 2 * |w.task.ids|
    ensures var ids, k, n, rows := w.task.ids, w.task.done, |w.task.ids|, w.g.db.trades;
            var end := MarkSteps(w, 2 * n + 1 - k);
            && end.task.Idle?
            && end == w.(g := end.g, task := Idle) && end.g == WithTrades(w.g, end.g.db.trades)
            && end.g.db.trades == ConfirmedDeleted(
                 if k < n then TradesMarked(TradesMarked(rows, ids[k..], TradeStatus.Submitted), ids,
                                            TradeStatus.Confirmed)
                 else TradesMarked(rows, ids[k - n..], TradeStatus.Confirmed))
    decreases 2 * |w.task.ids| - w.task.done
  {
    hide TradesMarked, ConfirmedDeleted;
    var ids, k, n, rows := w.task.ids, w.task.done, |w.task.ids|, w.g.db.trades;
    if k < 2 * n {
      StatementsAddUp(MarkStep(w));
      if k < n {
        MarkOneMore(rows, ids, k, TradeStatus.Submitted);
        if k + 1 == n {
          MarkNone(TradesMarked(rows, [ids[k]], TradeStatus.Submitted), TradeStatus.Submitted);
          assert ids[k + 1..] == [] && ids[0..] == ids;
        }
      } else {
        MarkOneMore(rows, ids, k - n, TradeStatus.Confirmed);
      }
    } else {
      MarkNone(rows, TradeStatus.Confirmed);
      assert ids[k - n..] == [];
    }
  }

  // ----- A round as a run -----

  lemma {:induction false} MarksAreReached(cfg: Config, w: World, n: nat)
    requires Reached(cfg, w) && (n > 0 ==> w.task.Marking? && w.task.done + n <= 2 * |w.task.ids| + 1)
    ensures Reached(cfg, MarkSteps(w, n))
    decreases n
  {
    hide Reached, Next, MarkStep;
    if n > 0 {
      ReachedSteps(cfg, w, MarkEvent);
      MarkIsEvent(cfg, w);
      if n > 1 {
        MarkGoesOn(w);
        MarksAreReached(cfg, MarkStep(w), n - 1);
      }
    }
  }

  lemma MarkIsEvent(cfg: Config, w: World)
    requires w.task.Marking?
    ensures Next(w, cfg, MarkEvent) == MarkStep(w)
  {
  }

  lemma MarkGoesOn(w: World)
    requires w.task.Marking? && w.task.done < 2 * |w.task.ids|
    ensures MarkStep(w).task == Marking(w.task.ids, w.task.done + 1)
  {
  }

  /** A round with pending trades, from the drain to the answer. */
  ghost function Answered(w: World, cfg: Config, now: nat): World {
    var landed := Next(Next(w, cfg, DrainEvent), cfg, LandEvent(|w.broadcast|, now));
    if SettledBatch(w.chain, TradesIn(w.g.pendingTrades), now).Settled? then Next(landed, cfg, AckEvent)
    else Next(landed, cfg, FailEvent)
  }

  lemma AnsweredIs(w: World, cfg: Config, now: nat)
    requires w.task.Idle? && w.g.pendingTrades != []
    ensures var batch, r := w.g.pendingTrades, SettledBatch(w.chain, TradesIn(w.g.pendingTrades), now);
            Answered(w, cfg, now)
            == w.(g := Drained(w.g), chain := if r.Settled? then r.chain else w.chain,
                  task := if r.Settled? then Marking(IdsIn(batch), 0) else Idle, broadcast := w.broadcast + [batch],
                  settled := w.settled + if r.Settled? then IdsIn(batch) else [])
  {
    hide SettledBatch, Drained;
  }

  /** What one round of the real loop does is a run of the state machine: the drain, the batch reaching the
      contract, the answer, and every row update. So whatever holds in all reachable states holds after
      any number of rounds. */
  lemma RoundIsRun(cfg: Config, w: World, now: nat) returns (after: World)
    requires Reached(cfg, w) && w.task.Idle?
    ensures Reached(cfg, after) && after.task.Idle?
    ensures var (g, chain, error) := RoundEnd(w.g, w.chain, now);
            && after.g == g && after.chain == chain && after.log == w.log && after.deposits == w.deposits
            && after.settled == w.settled + (if error.None? then IdsIn(w.g.pendingTrades) else [])
  {
    hide Reached, Next, SettledBatch, TradesMarked, ConfirmedDeleted, MarkSteps, Answered;
    after := w;
    if w.g.pendingTrades != [] {
      AnsweredIs(w, cfg, now);
      AnsweredIsReached(cfg, w, now);
      after := Answered(w, cfg, now);
      if after.task.Marking? {
        StatementsAddUp(after);
        MarksAreReached(cfg, after, 2 * |after.task.ids| + 1);
        assert after.task.ids[0..] == after.task.ids;
        after := MarkSteps(after, 2 * |after.task.ids| + 1);
      }
    }
  }

  lemma AnsweredIsReached(cfg: Config, w: World, now: nat)
    requires Reached(cfg, w)
    ensures Reached(cfg, Answered(w, cfg, now))
  {
    hide Reached, Next, SettledBatch;
    ReachedSteps(cfg, w, DrainEvent);
    var drained := Next(w, cfg, DrainEvent);
    ReachedSteps(cfg, drained, LandEvent(|w.broadcast|, now));
    ReachedSteps(cfg, Next(drained, cfg, LandEvent(|w.broadcast|, now)), AckEvent);
    ReachedSteps(cfg, Next(drained, cfg, LandEvent(|w.broadcast|, now)), FailEvent);
  }
}
