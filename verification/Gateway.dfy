/** Submitting and cancelling signed orders: engine, ledger, order maps, trade log and database
    together, as functions on the gateway's state. */
module Gateways {
  import opened Types
  import opened Arithmetic
  import opened PriorityBook
  import opened MatchingEngines
  import opened Ledgers
  import opened Persistence

  /** The one configured pair. */
  datatype Config = Config(base: Address, quote: Address, nonceExpirySecs: nat) {
    /** The token a resting order on this side locks. */
    function Locks(s: Side): Address {
      if s.Buy? then quote else base
    }
  }

  /** What a cancel will release, fixed when the order comes to rest. */
  datatype NonceEntry = NonceEntry(maker: Address, nonce: nat, token: Address, collateral: nat)

  datatype Gateway = Gateway(
    engine: EngineState,
    ledger: Balances,
    acceptedNonces: set<SignedOrder>,
    orderMap: map<OrderId, SignedOrder>,
    orderNonceMap: map<OrderId, NonceEntry>,
    pendingTrades: seq<(nat, Trade)>,
    db: Tables)

  datatype SubmitError =
    | MarketWithoutPrice | BadSignature | SignerIsNotMaker | OrderExpired | DuplicateNonce
    | InsufficientBalance | NotFillable

  datatype SubmitResult = Refused(error: SubmitError) | Accepted(orderId: OrderId, fills: seq<Fill>)

  function Collateral(s: Side, quantity: nat, price: nat): nat {
    if s.Buy? then Quote(quantity, price) else quantity
  }

  /** The token named in the order itself. */
  function OwnCollateralToken(order: SignedOrder): Address {
    if order.side.Buy? then order.quoteToken else order.baseToken
  }

  /** The checks made before anything changes, in order. */
  function Refusal(accepted: set<SignedOrder>, order: SignedOrder, orderType: OrderType,
                   now: nat): Option<SubmitError> {
    if orderType.Market? && order.price == 0 then Some(MarketWithoutPrice)
    else if order.signature.None? then Some(BadSignature)
    else if order.signature.value != order.maker then Some(SignerIsNotMaker)
    else if order.expiry < now then Some(OrderExpired)
    else if order.Hash() in accepted then Some(DuplicateNonce)
    else None
  }

  // ----- One fill -----

  function Seller(order: SignedOrder, maker: Address): Address {
    if order.side.Buy? then maker else order.maker
  }

  function Buyer(order: SignedOrder, maker: Address): Address {
    if order.side.Buy? then order.maker else maker
  }

  /** A buying taker reserved at its own price; what the better price saves is released. */
  function Surplus(order: SignedOrder, fill: EngineFill): nat {
    if order.side.Buy? && fill.price < order.price then Quote(fill.quantity, order.price - fill.price) else 0
  }

  function FillApplied(b: Balances, cfg: Config, order: SignedOrder, maker: Address, fill: EngineFill): Balances {
    var settled := FillSettled(b, Seller(order, maker), Buyer(order, maker), cfg.base, cfg.quote,
                               fill.quantity, Quote(fill.quantity, fill.price));
    var surplus := Surplus(order, fill);
    if surplus > 0 then Released(settled, order.maker, cfg.quote, surplus) else settled
  }

  /** Every maker of these fills is on record. */
  ghost predicate MakersOnRecord(orderMap: map<OrderId, SignedOrder>, fills: seq<EngineFill>) {
    forall fill :: fill in fills ==> fill.makerId in orderMap
  }

  lemma TailOnRecord(orderMap: map<OrderId, SignedOrder>, fills: seq<EngineFill>)
    requires MakersOnRecord(orderMap, fills) && fills != []
    ensures fills[0].makerId in orderMap && MakersOnRecord(orderMap, fills[1..])
  {
    assert forall fill :: fill in fills[1..] ==> fill in fills;
  }

  ghost function FillsApplied(b: Balances, cfg: Config, order: SignedOrder, orderMap: map<OrderId, SignedOrder>,
                              fills: seq<EngineFill>): Balances
    requires MakersOnRecord(orderMap, fills)
    decreases |fills|
  {
    if fills == [] then b else
      TailOnRecord(orderMap, fills);
      FillsApplied(FillApplied(b, cfg, order, orderMap[fills[0].makerId].maker, fills[0]),
                   cfg, order, orderMap, fills[1..])
  }

  function TradeOf(order: SignedOrder, makerOrder: SignedOrder, fill: EngineFill, now: nat): Trade {
    Trade(makerOrder, order, fill.price, fill.quantity, now)
  }

  ghost function TradesOf(order: SignedOrder, orderMap: map<OrderId, SignedOrder>, fills: seq<EngineFill>,
                          now: nat): (trades: seq<Trade>)
    requires MakersOnRecord(orderMap, fills)
    ensures |trades| == |fills|
  {
    if fills == [] then [] else
      TailOnRecord(orderMap, fills);
      [TradeOf(order, orderMap[fills[0].makerId], fills[0], now)] + TradesOf(order, orderMap, fills[1..], now)
  }

  /** The taker's fills as reported to it, with what remains after each. */
  ghost function ClientFills(orderId: OrderId, remaining: nat, fills: seq<EngineFill>): (r: seq<Fill>)
    requires FillQty(fills) <= remaining
    ensures |r| == |fills|
  {
    if fills == [] then [] else
      var left := remaining - fills[0].quantity;
      [Fill(orderId, fills[0].price, fills[0].quantity, left, false)] + ClientFills(orderId, left, fills[1..])
  }

  // ----- Submitting -----

  ghost function FilledMakers(fills: seq<EngineFill>, engine: EngineState): seq<OrderId> {
    if fills == [] then []
    else (if fills[0].makerId in engine.AllIds() then [] else [fills[0].makerId]) + FilledMakers(fills[1..], engine)
  }

  lemma UnfoldFilledMakers(fills: seq<EngineFill>, e: EngineState)
    requires fills != []
    ensures fills[0].makerId in e.AllIds() ==> FilledMakers(fills, e) == FilledMakers(fills[1..], e)
    ensures fills[0].makerId !in e.AllIds()
            ==> FilledMakers(fills, e) == [fills[0].makerId] + FilledMakers(fills[1..], e)
  {
    assert [] + FilledMakers(fills[1..], e) == FilledMakers(fills[1..], e);
  }

  lemma UnfoldNoFilledMakers(fills: seq<EngineFill>, e: EngineState)
    requires fills == []
    ensures FilledMakers(fills, e) == []
  {
  }

  function Tagged(first: nat, trades: seq<Trade>): seq<(nat, Trade)> {
    seq(|trades|, i requires 0 <= i < |trades| => (first + i, trades[i]))
  }

  /** Everything that is recorded once the fills are applied. */
  ghost function Recorded(g: Gateway, cfg: Config, order: SignedOrder, orderId: OrderId, engine: EngineState,
                          r: MatchResult, ledger: Balances, trades: seq<Trade>, now: nat): Gateway
  {
    var resting := if r.resting then Some(RestingOrder(orderId, order, r.restingQty)) else None;
    Gateway(
      engine, ledger,
      g.acceptedNonces + {order.Hash()},
      if r.resting then g.orderMap[orderId := order] else g.orderMap,
      if r.resting then
        g.orderNonceMap[orderId := NonceEntry(order.maker, order.nonce, cfg.Locks(order.side),
                                              Collateral(order.side, r.restingQty, order.price))]
      else g.orderNonceMap,
      g.pendingTrades + Tagged(g.db.nextTradeId, trades),
      OrderFillSaved(g.db, order.Hash(), now + cfg.nonceExpirySecs, trades, RowsOf(ledger),
                     FilledMakers(r.fills, engine), resting))
  }

  /** The record does not depend on the engine and ledger it replaces, nor on whether the order's
      hash was noted early. */
  lemma RecordedFrom(g: Gateway, h: Gateway, cfg: Config, order: SignedOrder, orderId: OrderId, engine: EngineState,
                     r: MatchResult, ledger: Balances, trades: seq<Trade>, now: nat)
    requires h == g.(engine := h.engine, ledger := h.ledger, acceptedNonces := g.acceptedNonces + {order.Hash()})
    ensures Recorded(h, cfg, order, orderId, engine, r, ledger, trades, now)
            == Recorded(g, cfg, order, orderId, engine, r, ledger, trades, now)
  {
  }

  /** What the loop over the fills relies on: every resting order's signed order is on record. */
  ghost predicate MakersKnown(engine: EngineState, orderMap: map<OrderId, SignedOrder>) {
    engine.AllIds() <= orderMap.Keys
  }

  lemma FillsFromBook(e: EngineState, side: Side, price: nat, quantity: nat, orderType: OrderType,
                      orderMap: map<OrderId, SignedOrder>)
    requires MakersKnown(e, orderMap)
    ensures var r := AfterSubmit(e, side, price, quantity, orderType).1;
            MakersOnRecord(orderMap, r.fills) && FillQty(r.fills) <= quantity
            && (!Rejects(e, side, quantity, orderType) ==> r.restingQty == quantity - FillQty(r.fills))
  {
    if !Rejects(e, side, quantity, orderType) {
      var opp := side.Opposite();
      MatchConsumesPrefix(opp, e.On(opp), LimitOf(orderType, price), e.nextId, quantity);
      MatchAccounts(opp, e.On(opp), LimitOf(orderType, price), e.nextId, quantity);
      var fills := Match(opp, e.On(opp), LimitOf(orderType, price), e.nextId, quantity).fills;
      forall fill | fill in fills ensures fill.makerId in orderMap {
        var i :| 0 <= i < |fills| && fills[i] == fill;
        assert e.On(opp)[i] in e.On(opp);
        assert e.On(opp)[i].id in e.AllIds();
      }
    }
  }

  ghost function OrderSubmitted(g: Gateway, cfg: Config, order: SignedOrder, orderType: OrderType, now: nat):
    (Gateway, SubmitResult)
    requires MakersKnown(g.engine, g.orderMap)
  {
    var refusal := Refusal(g.acceptedNonces, order, orderType, now);
    if refusal.Some? then (g, Refused(refusal.value)) else
    var token := OwnCollateralToken(order);
    var required := Collateral(order.side, order.quantity, order.price);
    var reserved := AfterReserve(g.ledger, order.maker, token, required);
    if !CanReserve(g.ledger, order.maker, token, required) then
      (g.(ledger := reserved), Refused(InsufficientBalance))
    else
      var (engine, r) := AfterSubmit(g.engine, order.side, order.price, order.quantity, orderType);
      if orderType.Market? && r.fills == [] then
        (g.(engine := engine, ledger := Released(reserved, order.maker, token, required)), Refused(NotFillable))
      else
        FillsFromBook(g.engine, order.side, order.price, order.quantity, orderType, g.orderMap);
        var ledger := FillsApplied(reserved, cfg, order, g.orderMap, r.fills);
        var trades := TradesOf(order, g.orderMap, r.fills, now);
        (Recorded(g, cfg, order, g.engine.nextId, engine, r, ledger, trades, now),
         Accepted(g.engine.nextId, ClientFills(g.engine.nextId, order.quantity, r.fills)))
  }

  // ----- Steps of the loops over the fills -----

  lemma UnfoldFills(b: Balances, cfg: Config, order: SignedOrder, orderMap: map<OrderId, SignedOrder>,
                    fills: seq<EngineFill>, orderId: OrderId, remaining: nat, now: nat)
    requires MakersOnRecord(orderMap, fills) && fills != [] && FillQty(fills) <= remaining
    ensures fills[0].makerId in orderMap && MakersOnRecord(orderMap, fills[1..])
    ensures fills[0].quantity <= remaining && FillQty(fills[1..]) <= remaining - fills[0].quantity
    ensures FillsApplied(b, cfg, order, orderMap, fills)
            == FillsApplied(FillApplied(b, cfg, order, orderMap[fills[0].makerId].maker, fills[0]), cfg, order,
                            orderMap, fills[1..])
    ensures TradesOf(order, orderMap, fills, now)
            == [TradeOf(order, orderMap[fills[0].makerId], fills[0], now)] + TradesOf(order, orderMap, fills[1..], now)
    ensures ClientFills(orderId, remaining, fills)
            == [Fill(orderId, fills[0].price, fills[0].quantity, remaining - fills[0].quantity, false)]
               + ClientFills(orderId, remaining - fills[0].quantity, fills[1..])
  {
    TailOnRecord(orderMap, fills);
  }

  lemma UnfoldNoFills(b: Balances, cfg: Config, order: SignedOrder, orderMap: map<OrderId, SignedOrder>,
                      fills: seq<EngineFill>, orderId: OrderId, remaining: nat, now: nat)
    requires fills == []
    ensures FillsApplied(b, cfg, order, orderMap, fills) == b
    ensures TradesOf(order, orderMap, fills, now) == [] && ClientFills(orderId, remaining, fills) == []
  {
  }

  /** The remainder reported with each fill is the quantity minus all fills so far. */
  lemma {:induction false} ReportedRemainders(orderId: OrderId, quantity: nat, fills: seq<EngineFill>, i: nat)
    requires FillQty(fills) <= quantity && i < |fills|
    ensures FillQty(fills[..i + 1]) <= quantity
    ensures ClientFills(orderId, quantity, fills)[i]
            == Fill(orderId, fills[i].price, fills[i].quantity, quantity - FillQty(fills[..i + 1]), false)
    decreases |fills|
  {
    assert fills[..i + 1][1..] == fills[1..][..i];
    if i > 0 {
      ReportedRemainders(orderId, quantity - fills[0].quantity, fills[1..], i - 1);
    } else {
      assert fills[..1][1..] == [];
    }
  }

  ghost predicate IdsBelowNext(e: EngineState) {
    forall id :: id in e.AllIds() ==> id < e.nextId
  }

  /** A submission brings at most its own id onto the book, and only as a resting remainder. */
  lemma SubmitAddsOwnId(e: EngineState, side: Side, price: nat, quantity: nat, orderType: OrderType)
    requires IdsBelowNext(e)
    ensures var (e', r) := AfterSubmit(e, side, price, quantity, orderType);
            && IdsBelowNext(e')
            && e'.AllIds() <= e.AllIds() + (if r.resting then {e.nextId} else {})
            && e'.nextId == (if Rejects(e, side, quantity, orderType) then e.nextId else e.nextId + 1)
            && (orderType.Market? ==> !r.resting)
            && (r.fills != [] || orderType.Limit? ==> !Rejects(e, side, quantity, orderType))
  {
    hide Match, Insert, Total, Ids;
    if !Rejects(e, side, quantity, orderType) {
      var opp := side.Opposite();
      var m := Match(opp, e.On(opp), LimitOf(orderType, price), e.nextId, quantity);
      MatchKeeps(opp, e.On(opp), LimitOf(orderType, price), e.nextId, quantity);
      InsertContent(side, e.On(side), EngineOrder(e.nextId, side, price, m.remaining));
      assert AfterSubmit(e, side, price, quantity, orderType).0.AllIds() <= e.AllIds() + {e.nextId};
    }
  }

  lemma CancelRemovesIds(e: EngineState, id: OrderId)
    requires DistinctIds(e.bids) && DistinctIds(e.asks)
    ensures AfterCancel(e, id).AllIds() == e.AllIds() - {id}
    ensures id !in e.AllIds() ==> AfterCancel(e, id) == e
  {
    if id !in e.AllIds() {
      RemoveAbsent(e.bids, id);
      RemoveAbsent(e.asks, id);
    }
    RemoveIds(e.bids, id);
    RemoveIds(e.asks, id);
  }

  // ----- Cancelling -----

  datatype CancelError = CancelBadSignature | NoSuchNonce | SignerIsNotOrderMaker | NotOnBook

  datatype CancelResult = CancelRefused(error: CancelError) | CancelAccepted(orderId: OrderId, maker: Address)

  /** The entry the search may return: any one whose nonce matches, whoever owns it. */
  ghost predicate MayFind(nonces: map<OrderId, NonceEntry>, nonce: nat, found: Option<OrderId>) {
    match found
    case Some(id) => id in nonces && nonces[id].nonce == nonce
    case None => forall id :: id in nonces ==> nonces[id].nonce != nonce
  }

  ghost function CancelRequested(g: Gateway, nonce: nat, signer: Option<Address>, found: Option<OrderId>):
    (Gateway, CancelResult)
    requires signer.Some? ==> MayFind(g.orderNonceMap, nonce, found)
  {
    if signer.None? then (g, CancelRefused(CancelBadSignature))
    else if found.None? then (g, CancelRefused(NoSuchNonce))
    else
      var id := found.value;
      var entry := g.orderNonceMap[id];
      if signer.value != entry.maker then (g, CancelRefused(SignerIsNotOrderMaker))
      else if id !in g.engine.AllIds() then (g, CancelRefused(NotOnBook))
      else
        var ledger := Released(g.ledger, entry.maker, entry.token, entry.collateral);
        (g.(engine := AfterCancel(g.engine, id),
            ledger := ledger,
            orderMap := g.orderMap - {id},
            orderNonceMap := g.orderNonceMap - {id},
            db := OrderCancelled(g.db, id, RowsOf(ledger), entry.maker, nonce)),
         CancelAccepted(id, entry.maker))
  }

  /** A cancel is sure to succeed, whichever entry the search returns, if and only if there is an entry
      with this nonce and every such entry is the signer's and still rests. Another maker's entry, or
      one left behind by a filled order, may shadow it. */
  lemma CancelSureIff(g: Gateway, nonce: nat, signer: Address)
    ensures (forall found :: MayFind(g.orderNonceMap, nonce, found)
                             ==> CancelRequested(g, nonce, Some(signer), found).1.CancelAccepted?)
            <==> (exists id :: id in g.orderNonceMap && g.orderNonceMap[id].nonce == nonce)
                 && forall id :: id in g.orderNonceMap && g.orderNonceMap[id].nonce == nonce
                      ==> g.orderNonceMap[id].maker == signer && id in g.engine.AllIds()
  {
    hide AfterCancel, Released, OrderCancelled, RowsOf, EngineState.AllIds;
    if MayFind(g.orderNonceMap, nonce, None) {
      assert !CancelRequested(g, nonce, Some(signer), None).1.CancelAccepted?;
    }
    if forall found :: MayFind(g.orderNonceMap, nonce, found)
        ==> CancelRequested(g, nonce, Some(signer), found).1.CancelAccepted? {
      forall id | id in g.orderNonceMap && g.orderNonceMap[id].nonce == nonce
        ensures g.orderNonceMap[id].maker == signer && id in g.engine.AllIds()
      {
        assert MayFind(g.orderNonceMap, nonce, Some(id));
      }
    }
  }

  function Drained(g: Gateway): Gateway {
    g.(pendingTrades := [])
  }

  function DepositCredited(g: Gateway, user: Address, token: Address, amount: nat): Gateway {
    var ledger := Credited(g.ledger, user, token, amount);
    g.(ledger := ledger,
       db := g.db.(balances := g.db.balances[(user, token) := BalanceOf(ledger, user, token)]))
  }
}
