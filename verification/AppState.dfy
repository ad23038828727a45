/** The gateway itself: the locked state that `submit_order`, `cancel_order` and `drain_batch` change
    in place, each proved against its specification. */
module AppStates {
  import opened Types
  import opened PriorityBook
  import opened OrderBooks
  import opened MatchingEngines
  import opened Ledgers
  import opened Persistence
  import opened Gateways
  import opened Arithmetic

  class AppState {
    const cfg: Config
    const engine: MatchingEngine
    const ledger: Ledger
    const db: Db
    var acceptedNonces: set<SignedOrder>
    var orderMap: map<OrderId, SignedOrder>
    var orderNonceMap: map<OrderId, NonceEntry>
    var pendingTrades: seq<(nat, Trade)>

    ghost function Repr(): set<object>
      reads this
    {
      {this, engine, engine.book, ledger, db}
    }

    /** The book is indexed, ids are below the next one, and every resting order is on record. */
    ghost predicate Valid()
      reads Repr()
    {
      && engine.Valid()
      && IdsBelowNext(engine.State())
      && MakersKnown(engine.State(), orderMap)
    }

    ghost function State(): Gateway
      reads Repr()
    {
      Gateway(engine.State(), ledger.balances, acceptedNonces, orderMap, orderNonceMap, pendingTrades, db.State())
    }

    constructor (cfg: Config)
      ensures Valid() && fresh(Repr()) && this.cfg == cfg
      ensures State() == Gateway(EngineState([], [], 1), map[], {}, map[], map[], [], EMPTY_TABLES)
    {
      this.cfg := cfg;
      engine := new MatchingEngine();
      ledger := new Ledger();
      db := new Db();
      acceptedNonces, orderMap, orderNonceMap, pendingTrades := {}, map[], map[], [];
    }

    /** An empty book over a ledger and a database that already exist. */
    constructor Over(cfg: Config, ledger: Ledger, db: Db)
      ensures Valid() && fresh({this, engine, engine.book}) && this.cfg == cfg && this.ledger == ledger && this.db == db
      ensures State() == Gateway(EngineState([], [], 1), ledger.balances, {}, map[], map[], [], db.State())
    {
      this.cfg, this.ledger, this.db := cfg, ledger, db;
      engine := new MatchingEngine();
      acceptedNonces, orderMap, orderNonceMap, pendingTrades := {}, map[], map[], [];
    }

    /** The loop over the engine's fills: settle each, release the taker's surplus, build the trades
        and the taker's report. */
    method ApplyFills(order: SignedOrder, orderId: OrderId, fills: seq<EngineFill>, now: nat)
      returns (trades: seq<Trade>, clientFills: seq<Fill>)
      requires MakersOnRecord(orderMap, fills) && FillQty(fills) <= order.quantity
      modifies ledger
      ensures ledger.balances == FillsApplied(old(ledger.balances), cfg, order, orderMap, fills)
      ensures trades == TradesOf(order, orderMap, fills, now)
      ensures clientFills == ClientFills(orderId, order.quantity, fills)
    {
      hide FillsApplied, TradesOf, ClientFills, FillApplied, MakersOnRecord, FillQty, TradeOf;
      ghost var b := ledger.balances;
      trades, clientFills := [], [];
      var remaining: nat := order.quantity;
      assert fills[0..] == fills;
      for k := 0 to |fills|
        invariant MakersOnRecord(orderMap, fills[k..]) && FillQty(fills[k..]) <= remaining
        invariant FillsApplied(b, cfg, order, orderMap, fills)
                  == FillsApplied(ledger.balances, cfg, order, orderMap, fills[k..])
        invariant TradesOf(order, orderMap, fills, now) == trades + TradesOf(order, orderMap, fills[k..], now)
        invariant ClientFills(orderId, order.quantity, fills)
            == clientFills + ClientFills(orderId, remaining, fills[k..])
      {
        var fill := fills[k];
        assert fills[k..][0] == fill && fills[k..][1..] == fills[k + 1..];
        UnfoldFills(ledger.balances, cfg, order, orderMap, fills[k..], orderId, remaining, now);
        remaining := remaining - fill.quantity;
        var makerSigned := orderMap[fill.makerId];
        trades := trades + [TradeOf(order, makerSigned, fill, now)];
        SettleOne(order, makerSigned.maker, fill);
        clientFills := clientFills + [Fill(orderId, fill.price, fill.quantity, remaining, false)];
      }
      UnfoldNoFills(ledger.balances, cfg, order, orderMap, fills[|fills|..], orderId, remaining, now);
    }

    method SettleOne(order: SignedOrder, maker: Address, fill: EngineFill)
      modifies ledger
      ensures ledger.balances == FillApplied(old(ledger.balances), cfg, order, maker, fill)
    {
      hide FillSettled, Released;
      var quoteAmount := Quote(fill.quantity, fill.price);
      var seller := if order.side.Buy? then maker else order.maker;
      var buyer := if order.side.Buy? then order.maker else maker;
      ledger.SettleFill(seller, buyer, cfg.base, cfg.quote, fill.quantity, quoteAmount);
      if order.side.Buy? && fill.price < order.price {
        var surplus := Quote(fill.quantity, order.price - fill.price);
        if surplus > 0 {
          ledger.Release(order.maker, cfg.quote, surplus);
        }
      }
    }

    method FilledMakerIds(fills: seq<EngineFill>) returns (ids: seq<OrderId>)
      requires engine.Valid()
      ensures ids == FilledMakers(fills, engine.State())
    {
      hide OrderBook.Valid, OrderBook.Resting, EngineState.AllIds, FilledMakers;
      ghost var e := engine.State();
      ids := [];
      assert fills[0..] == fills;
      for k := 0 to |fills|
        invariant FilledMakers(fills, e) == ids + FilledMakers(fills[k..], e)
      {
        assert fills[k..][1..] == fills[k + 1..];
        UnfoldFilledMakers(fills[k..], e);
        if !engine.HasOrder(fills[k].makerId) {
          ids := ids + [fills[k].makerId];
        }
      }
      UnfoldNoFilledMakers(fills[|fills|..], e);
    }

    method SubmitOrder(order: SignedOrder, orderType: OrderType, now: nat) returns (r: SubmitResult)
      requires Valid()
      modifies Repr()
      ensures Valid()
      ensures (State(), r) == OrderSubmitted(old(State()), cfg, order, orderType, now)
    {
      hide AfterSubmit, FillsApplied, TradesOf, ClientFills, AfterReserve, Released, Collateral, OrderBook.Valid,
        OrderBook.Resting, Recorded, EngineState.AllIds, Rejects, CanReserve;
      ghost var g := State();
      var refusal := Refusal(acceptedNonces, order, orderType, now);
      if refusal.Some? {
        return Refused(refusal.value);
      }
      var hash := order.Hash();
      var required := Collateral(order.side, order.quantity, order.price);
      var collateralToken := OwnCollateralToken(order);
      var ok := ledger.Reserve(order.maker, collateralToken, required);
      if !ok {
        return Refused(InsufficientBalance);
      }
      acceptedNonces := acceptedNonces + {hash};
      var result := engine.Submit(order.side, order.price, order.quantity, orderType);
      SubmitAddsOwnId(g.engine, order.side, order.price, order.quantity, orderType);
      if orderType.Market? && result.fills == [] {
        acceptedNonces := acceptedNonces - {hash};
        ledger.Release(order.maker, collateralToken, required);
        return Refused(NotFillable);
      }
      FillsFromBook(g.engine, order.side, order.price, order.quantity, orderType, orderMap);
      ghost var h := State();
      RecordedFrom(g, h, cfg, order, g.engine.nextId, h.engine, result,
                   FillsApplied(h.ledger, cfg, order, orderMap, result.fills),
                       TradesOf(order, orderMap, result.fills, now), now);
      r := Execute(order, result, now);
    }

    /** Apply the fills, then note the resting remainder and persist everything in one transaction. */
    method Execute(order: SignedOrder, result: MatchResult, now: nat) returns (r: SubmitResult)
      requires engine.Valid() && order.Hash() in acceptedNonces && engine.nextId > 0
      requires MakersOnRecord(orderMap, result.fills) && FillQty(result.fills) <= order.quantity
      modifies this, ledger, db
      ensures var g := old(State());
              var id := g.engine.nextId - 1;
              && State() == Recorded(g, cfg, order, id, g.engine, result,
                                     FillsApplied(g.ledger, cfg, order, g.orderMap, result.fills),
                                     TradesOf(order, g.orderMap, result.fills, now), now)
              && r == Accepted(id, ClientFills(id, order.quantity, result.fills))
              && orderMap == if result.resting then g.orderMap[id := order] else g.orderMap
    {
      hide FillsApplied, TradesOf, ClientFills, Collateral, FilledMakers, OrderFillSaved, OrderBook.Valid,
        OrderBook.Resting;
      var orderId := engine.LastOrderId();
      var trades, clientFills := ApplyFills(order, orderId, result.fills, now);
      if result.resting {
        orderMap := orderMap[orderId := order];
        var restingCollateral := Collateral(order.side, result.restingQty, order.price);
        orderNonceMap := orderNonceMap[orderId := NonceEntry(order.maker, order.nonce, cfg.Locks(order.side),
                                                             restingCollateral)];
      }
      Persist(order, orderId, result, trades, now);
      r := Accepted(orderId, clientFills);
    }

    method Persist(order: SignedOrder, orderId: OrderId, result: MatchResult, trades: seq<Trade>, now: nat)
      requires engine.Valid()
      modifies this`pendingTrades, db
      ensures pendingTrades == old(pendingTrades) + Tagged(old(db.nextTradeId), trades)
      ensures db.State() == OrderFillSaved(
                old(db.State()), order.Hash(), now + cfg.nonceExpirySecs, trades, RowsOf(ledger.balances),
                FilledMakers(result.fills, engine.State()),
                if result.resting then Some(RestingOrder(orderId, order, result.restingQty)) else None)
    {
      hide FilledMakers, OrderFillSaved, OrderBook.Valid, OrderBook.Resting;
      var filled := FilledMakerIds(result.fills);
      var resting := if result.resting then Some(RestingOrder(orderId, order, result.restingQty)) else None;
      ghost var first := db.nextTradeId;
      var ids := db.SaveOrderFill(order.Hash(), now + cfg.nonceExpirySecs, trades, ledger.Snapshot(), filled, resting);
      var tagged := seq(|trades|, i requires 0 <= i < |trades| && |ids| == |trades| => (ids[i], trades[i]));
      assert tagged == Tagged(first, trades);
      pendingTrades := pendingTrades + tagged;
    }

    method CancelOrder(nonce: nat, signer: Option<Address>) returns (r: CancelResult, ghost found: Option<OrderId>)
      requires Valid()
      modifies Repr()
      ensures Valid()
      ensures signer.Some? ==> MayFind(old(orderNonceMap), nonce, found)
      ensures (State(), r) == CancelRequested(old(State()), nonce, signer, found)
    {
      if signer.None? {
        return CancelRefused(CancelBadSignature), None;
      }
      if id :| id in orderNonceMap && orderNonceMap[id].nonce == nonce {
        found := Some(id);
        r := CancelFound(nonce, signer, id);
      } else {
        found := None;
        r := CancelRefused(NoSuchNonce);
      }
    }

    method CancelFound(nonce: nat, signer: Option<Address>, id: OrderId) returns (r: CancelResult)
      requires Valid()
      requires signer.Some? && id in orderNonceMap && orderNonceMap[id].nonce == nonce
      modifies Repr()
      ensures Valid()
      ensures (State(), r) == CancelRequested(old(State()), nonce, signer, Some(id))
    {
      hide AfterCancel, Released, OrderBook.Valid, OrderBook.Resting, OrderCancelled;
      ghost var g := State();
      engine.book.RestingFacts();
      var entry := orderNonceMap[id];
      if signer.value != entry.maker {
        return CancelRefused(SignerIsNotOrderMaker);
      }
      var removed := engine.Cancel(id);
      CancelRemovesIds(g.engine, id);
      if !removed {
        return CancelRefused(NotOnBook);
      }
      ledger.Release(entry.maker, entry.token, entry.collateral);
      db.CancelOrder(id, ledger.Snapshot(), entry.maker, nonce);
      orderMap := orderMap - {id};
      orderNonceMap := orderNonceMap - {id};
      r := CancelAccepted(id, entry.maker);
    }

    method DrainBatch() returns (batch: seq<(nat, Trade)>)
      modifies this
      ensures batch == old(pendingTrades)
      ensures State() == Drained(old(State()))
    {
      batch := pendingTrades;
      pendingTrades := [];
    }
  }
}
