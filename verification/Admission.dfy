/** Which submissions the gateway takes, told by the order's fields: the conditions, the error that
    answers the first one that fails, and what an accepted order is answered and recorded with. */
module Admission {
  import opened Types
  import opened Arithmetic
  import opened PriorityBook
  import opened MatchingEngines
  import opened Ledgers
  import opened Persistence
  import opened Gateways
  import opened GatewayInvariants
  import opened GatewaySolvency
  import opened Agreement

  /** The amount an order must have available, in base units for a sell and, rounded down, in quote units
      for a buy; products are taken on 256-bit words. */
  function Required(order: SignedOrder): nat {
    if order.side.Buy? then (order.quantity * order.price) % TWO_256 / 1_000_000_000_000_000_000 else order.quantity
  }

  function Available(b: Balances, user: Address, token: Address): nat {
    if user in b && token in b[user] then b[user][token].available else 0
  }

  lemma RequiredIs(order: SignedOrder)
    ensures Required(order) == Collateral(order.side, order.quantity, order.price)
  {
  }

  predicate WellSigned(order: SignedOrder, now: nat) {
    order.signature == Some(order.maker) && now <= order.expiry
  }

  /** The order, compared without its signature, was not taken before. */
  predicate Unseen(accepted: set<SignedOrder>, order: SignedOrder) {
    order.(signature := None) !in accepted
  }

  predicate Affordable(b: Balances, order: SignedOrder) {
    Required(order) <= Available(b, order.maker, if order.side.Buy? then order.quoteToken else order.baseToken)
  }

  /** A market order has a quantity, and the other side of the book can fill all of it. */
  predicate Fillable(e: EngineState, order: SignedOrder) {
    0 < order.quantity <= Total(if order.side.Buy? then e.asks else e.bids)
  }

  lemma MarketFills(e: EngineState, order: SignedOrder)
    ensures AfterSubmit(e, order.side, order.price, order.quantity, Market).1.fills != [] <==> Fillable(e, order)
  {
    var opp := order.side.Opposite();
    MatchIdle(opp, e.On(opp), None, e.nextId, order.quantity);
  }

  /** A submission is accepted if and only if it is signed by its maker, not expired, not taken before,
      paid for in the token it names, and, when it is a market order, has a price and can be filled
      completely. */
  lemma AcceptedIff(g: Gateway, cfg: Config, order: SignedOrder, orderType: OrderType, now: nat)
    requires MakersKnown(g.engine, g.orderMap)
    ensures OrderSubmitted(g, cfg, order, orderType, now).1.Accepted?
            <==> && WellSigned(order, now) && Unseen(g.acceptedNonces, order) && Affordable(g.ledger, order)
                 && (orderType.Market? ==> order.price > 0 && Fillable(g.engine, order))
  {
    hide AfterSubmit, FillsApplied, TradesOf, ClientFills, AfterReserve, Released, Recorded, Collateral, Required,
      Fillable;
    RequiredIs(order);
    MarketFills(g.engine, order);
  }

  /** A refusal names the first condition that fails. */
  lemma RefusedFor(g: Gateway, cfg: Config, order: SignedOrder, orderType: OrderType, now: nat)
    requires MakersKnown(g.engine, g.orderMap)
    ensures var r := OrderSubmitted(g, cfg, order, orderType, now).1;
            var priced, signed := orderType.Market? ==> order.price > 0, order.signature == Some(order.maker);
            r.Refused? ==>
              match r.error
              case MarketWithoutPrice => !priced
              case BadSignature => priced && order.signature == None
              case SignerIsNotMaker => priced && order.signature != None && !signed
              case OrderExpired => priced && signed && order.expiry < now
              case DuplicateNonce => priced && WellSigned(order, now) && !Unseen(g.acceptedNonces, order)
              case InsufficientBalance =>
                priced && WellSigned(order, now) && Unseen(g.acceptedNonces, order) && !Affordable(g.ledger, order)
              case NotFillable =>
                && priced && WellSigned(order, now) && Unseen(g.acceptedNonces, order) && Affordable(g.ledger, order)
                && orderType.Market? && !Fillable(g.engine, order)
  {
    hide AfterSubmit, FillsApplied, TradesOf, ClientFills, AfterReserve, Released, Recorded, Collateral, Required,
      Fillable;
    RequiredIs(order);
    MarketFills(g.engine, order);
  }

  // ----- What an accepted order leaves -----

  /** The orders it trades with come off the front of the other side, and each trade and each report
      names the two orders, the resting order's price, and the quantity. */
  lemma TradesAndAnswer(g: Gateway, cfg: Config, order: SignedOrder, orderType: OrderType, now: nat, i: nat)
    requires MakersKnown(g.engine, g.orderMap)
    ensures i < |NewTrades(g, cfg, order, orderType, now)| ==>
            var r, trades := OrderSubmitted(g, cfg, order, orderType, now).1, NewTrades(g, cfg, order, orderType, now);
            var other := if order.side.Buy? then g.engine.asks else g.engine.bids;
            && r.Accepted? && |r.fills| == |trades| <= |other| && other[i].id in g.orderMap
            && trades[i].makerOrder == g.orderMap[other[i].id] && trades[i].takerOrder == order
            && trades[i].price == other[i].price && trades[i].timestamp == now
            && trades[i].quantity <= other[i].quantity && (i + 1 < |trades| ==> trades[i].quantity == other[i].quantity)
            && r.fills[i].orderId == r.orderId && !r.fills[i].isMaker
            && r.fills[i].price == trades[i].price && r.fills[i].filledQty == trades[i].quantity
  {
    hide Match, FillsApplied, TradesOf, ClientFills, AfterReserve, Released, Recorded, Collateral, Refusal, CanReserve,
      Total,
      Insert, FillQty;
    if i >= |NewTrades(g, cfg, order, orderType, now)| { return; }
    var opp := order.side.Opposite();
    var fills := AfterSubmit(g.engine, order.side, order.price, order.quantity, orderType).1.fills;
    FillsFromBook(g.engine, order.side, order.price, order.quantity, orderType, g.orderMap);
    MatchConsumesPrefix(opp, g.engine.On(opp), LimitOf(orderType, order.price), g.engine.nextId, order.quantity);
    TradesOfAt(order, g.orderMap, fills, now, i);
    ReportedRemainders(g.engine.nextId, order.quantity, fills, i);
  }

  /** The answer carries the order's new id, under which its remainder rests and is on record. */
  lemma AnswerNamesOrder(g: Gateway, cfg: Config, order: SignedOrder, orderType: OrderType, now: nat)
    requires MakersKnown(g.engine, g.orderMap)
    ensures OrderSubmitted(g, cfg, order, orderType, now).1.Accepted? ==>
            var (h, r) := OrderSubmitted(g, cfg, order, orderType, now);
            var left := order.quantity - FillQty(AfterSubmit(g.engine, order.side, order.price, order.quantity,
                                                             orderType).1.fills);
            && r.orderId == g.engine.nextId && h.engine.nextId == g.engine.nextId + 1
            && (orderType.Limit? && left > 0 ==>
                  && EngineOrder(r.orderId, order.side, order.price, left) in h.engine.On(order.side)
                  && r.orderId in h.orderMap && h.orderMap[r.orderId] == order
                  && r.orderId in h.db.orders && h.db.orders[r.orderId] == OrderRow(order, left, Resting))
  {
    hide Match, FillsApplied, TradesOf, ClientFills, AfterReserve, Released, Collateral, Refusal, CanReserve, Total,
      Insert,
      FilledMakers, OrdersMarked, RowsOf, NewRows, FillQty;
    if OrderSubmitted(g, cfg, order, orderType, now).1.Refused? { return; }
    var opp := order.side.Opposite();
    var m := Match(opp, g.engine.On(opp), LimitOf(orderType, order.price), g.engine.nextId, order.quantity);
    FillsFromBook(g.engine, order.side, order.price, order.quantity, orderType, g.orderMap);
    InsertContent(order.side, g.engine.On(order.side),
                  EngineOrder(g.engine.nextId, order.side, order.price, m.remaining));
  }

  /** Makers that the order takes off the book are recorded as filled. */
  lemma GoneAreFilled(g: Gateway, cfg: Config, order: SignedOrder, orderType: OrderType, now: nat, id: OrderId)
    requires Consistent(g, cfg) && MakersKnown(g.engine, g.orderMap) && id in g.engine.AllIds() && id in g.db.orders
    ensures var h := OrderSubmitted(g, cfg, order, orderType, now).0;
            && id in h.db.orders
            && h.db.orders[id] == g.db.orders[id].(status := if id in h.engine.AllIds() then Resting else Filled)
  {
    hide FillsApplied, TradesOf, ClientFills, AfterReserve, Released, Collateral, Refusal, CanReserve, AfterSubmit,
      FilledMakers,
      RowsOf, NewRows, Mirrored, AllEntered, Rejects;
    var h := OrderSubmitted(g, cfg, order, orderType, now).0;
    RowRests(g, cfg, id);
    if OrderSubmitted(g, cfg, order, orderType, now).1.Refused? {
      RefusedChangesNothing(g, cfg, order, orderType, now);
    } else {
      ConsistentSound(g, cfg);
      FilledExactlyGone(g.engine, order.side, order.price, order.quantity, orderType, id);
    }
  }

  lemma RowRests(g: Gateway, cfg: Config, id: OrderId)
    requires Consistent(g, cfg) && id in g.engine.AllIds()
    ensures id in g.db.orders && g.db.orders[id].status == Resting && id < g.engine.nextId
  {
    assert id in RestingIds(g.db.orders);
  }
}
