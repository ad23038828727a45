/** Submitting and cancelling orders: the specification on flat lists and the engine that refines
    it. */
module MatchingEngines {
  import opened Types
  import opened PriorityBook
  import opened OrderBooks

  datatype MatchResult = MatchResult(fills: seq<EngineFill>, restingQty: nat, resting: bool)

  /** The engine's state as a reader of the market sees it. */
  datatype EngineState = EngineState(bids: seq<EngineOrder>, asks: seq<EngineOrder>, nextId: OrderId) {
    function On(s: Side): seq<EngineOrder> {
      if s.Buy? then bids else asks
    }

    function With(s: Side, f: seq<EngineOrder>): EngineState {
      if s.Buy? then this.(bids := f) else this.(asks := f)
    }

    ghost function AllIds(): set<OrderId> {
      Ids(bids) + Ids(asks)
    }
  }

  function LimitOf(orderType: OrderType, price: nat): Option<nat> {
    if orderType.Limit? then Some(price) else None
  }

  /** A market order that the opposite side cannot fill completely is turned away. */
  predicate Rejects(e: EngineState, side: Side, quantity: nat, orderType: OrderType) {
    orderType.Market? && Total(e.On(side.Opposite())) < quantity
  }

  function AfterSubmit(e: EngineState, side: Side, price: nat, quantity: nat, orderType: OrderType):
    (EngineState, MatchResult)
  {
    if Rejects(e, side, quantity, orderType) then
      (e, MatchResult([], 0, false))
    else
      var opp := side.Opposite();
      var m := Match(opp, e.On(opp), LimitOf(orderType, price), e.nextId, quantity);
      var matched := e.With(opp, m.book).(nextId := e.nextId + 1);
      var resting := m.remaining > 0 && orderType.Limit?;
      (if resting
       then matched.With(side, Insert(side, e.On(side), EngineOrder(e.nextId, side, price, m.remaining)))
       else matched,
       MatchResult(m.fills, m.remaining, resting))
  }

  function AfterCancel(e: EngineState, id: OrderId): EngineState {
    e.(bids := Remove(e.bids, id), asks := Remove(e.asks, id))
  }

  // ----- The engine -----

  class MatchingEngine {
    const book: OrderBook
    var nextId: OrderId

    ghost predicate Valid()
      reads this, book
    {
      book.Valid()
    }

    ghost function State(): EngineState
      reads this, book
    {
      EngineState(book.Resting(Buy), book.Resting(Sell), nextId)
    }

    constructor ()
      ensures Valid() && fresh(book)
      ensures State() == EngineState([], [], 1)
    {
      book := new OrderBook();
      nextId := 1;
    }

    /** The buy arm of `submit`: take from the best ask while the limit allows. */
    method WalkAsks(id: OrderId, price: nat, quantity: nat, orderType: OrderType)
        returns (fills: seq<EngineFill>, remaining: nat)
      requires Valid()
      modifies book
      ensures Valid()
      ensures book.Resting(Buy) == old(book.Resting(Buy))
      ensures Matched(fills, book.Resting(Sell), remaining)
              == Match(Sell, old(book.Resting(Sell)), LimitOf(orderType, price), id, quantity)
    {
      hide OrderBook.Valid, OrderBook.Resting, PriorityBook.Match;
      ghost var limit := LimitOf(orderType, price);
      ghost var target := Match(Sell, book.Resting(Sell), limit, id, quantity);
      fills, remaining := [], quantity;
      while remaining > 0
        invariant Valid()
        invariant book.Resting(Buy) == old(book.Resting(Buy))
        invariant target == Prepend(fills, Match(Sell, book.Resting(Sell), limit, id, remaining))
        decreases |book.Resting(Sell)|, remaining
      {
        book.BestIsFirst(Sell);
        var bestAsk := book.BestAsk();
        if bestAsk.None? {
          break;
        }
        if orderType.Limit? && bestAsk.value > price {
          break;
        }
        ghost var front := book.Resting(Sell);
        var take := book.TakeBestAsk(remaining);
        MatchStep(Sell, front, limit, id, remaining, fills);
        fills := fills + [EngineFill(take.value.makerId, id, bestAsk.value, take.value.fillQty)];
        remaining := remaining - take.value.fillQty;
      }
      book.BestIsFirst(Sell);
      MatchStop(Sell, book.Resting(Sell), limit, id, remaining, fills);
    }

    /** The sell arm of `submit`: take from the best bid while the limit allows. */
    method WalkBids(id: OrderId, price: nat, quantity: nat, orderType: OrderType)
        returns (fills: seq<EngineFill>, remaining: nat)
      requires Valid()
      modifies book
      ensures Valid()
      ensures book.Resting(Sell) == old(book.Resting(Sell))
      ensures Matched(fills, book.Resting(Buy), remaining)
              == Match(Buy, old(book.Resting(Buy)), LimitOf(orderType, price), id, quantity)
    {
      hide OrderBook.Valid, OrderBook.Resting, PriorityBook.Match;
      ghost var limit := LimitOf(orderType, price);
      ghost var target := Match(Buy, book.Resting(Buy), limit, id, quantity);
      fills, remaining := [], quantity;
      while remaining > 0
        invariant Valid()
        invariant book.Resting(Sell) == old(book.Resting(Sell))
        invariant target == Prepend(fills, Match(Buy, book.Resting(Buy), limit, id, remaining))
        decreases |book.Resting(Buy)|, remaining
      {
        book.BestIsFirst(Buy);
        var bestBid := book.BestBid();
        if bestBid.None? {
          break;
        }
        if orderType.Limit? && bestBid.value < price {
          break;
        }
        ghost var front := book.Resting(Buy);
        var take := book.TakeBestBid(remaining);
        MatchStep(Buy, front, limit, id, remaining, fills);
        fills := fills + [EngineFill(take.value.makerId, id, bestBid.value, take.value.fillQty)];
        remaining := remaining - take.value.fillQty;
      }
      book.BestIsFirst(Buy);
      MatchStop(Buy, book.Resting(Buy), limit, id, remaining, fills);
    }

    method Submit(side: Side, price: nat, quantity: nat, orderType: OrderType) returns (r: MatchResult)
      requires Valid()
      modifies this, book
      ensures old(nextId !in State().AllIds()) ==> Valid()
      ensures (State(), r) == AfterSubmit(old(State()), side, price, quantity, orderType)
    {
      hide OrderBook.Valid, OrderBook.Resting, PriorityBook.Match, PriorityBook.Insert, Total, Ids;
      ghost var start, opp, limit := State(), side.Opposite(), LimitOf(orderType, price);
      if orderType.Market? {
        var available := if side.Buy? then book.TotalAskQty() else book.TotalBidQty();
        if available < quantity {
          return MatchResult([], 0, false);
        }
      }
      var id := nextId;
      nextId := nextId + 1;
      var fills, remaining;
      match side {
        case Buy => fills, remaining := WalkAsks(id, price, quantity, orderType);
        case Sell => fills, remaining := WalkBids(id, price, quantity, orderType);
      }
      ghost var m := Match(opp, start.On(opp), limit, id, quantity);
      assert State() == start.With(opp, m.book).(nextId := id + 1) && m.fills == fills && m.remaining == remaining;
      var resting := remaining > 0 && orderType.Limit?;
      if resting {
        if id !in start.AllIds() {
          StillFresh(start, side, limit, id, quantity);
        }
        book.RestingFacts();
        book.Insert(EngineOrder(id, side, price, remaining));
      }
      r := MatchResult(fills, remaining, resting);
    }

    method Cancel(orderId: OrderId) returns (removed: bool)
      requires Valid()
      modifies book
      ensures Valid()
      ensures removed <==> orderId in old(State()).AllIds()
      ensures State() == AfterCancel(old(State()), orderId)
    {
      book.RestingFacts();
      var order := book.Cancel(orderId);
      removed := order.Some?;
    }

    /** Puts an order back under its old id; `nextId` stays where it is. */
    method RestoreOrder(id: OrderId, side: Side, price: nat, quantity: nat)
      requires Valid()
      modifies book
      ensures old(id !in State().AllIds()) ==> Valid()
      ensures State() == old(State()).With(side,
                                           Insert(side, old(State()).On(side), EngineOrder(id, side, price, quantity)))
    {
      book.RestingFacts();
      book.Insert(EngineOrder(id, side, price, quantity));
    }

    method SetNextId(id: OrderId)
      modifies this
      ensures nextId == id
    {
      nextId := id;
    }

    function LastOrderId(): OrderId
      requires nextId > 0
      reads this
    {
      nextId - 1
    }

    /** Answers whether the id rests on either side. */
    predicate HasOrder(id: OrderId)
      requires Valid()
      reads this, book
      ensures HasOrder(id) <==> id in State().AllIds()
    {
      book.RestingFacts();
      book.HasOrder(id)
    }
  }

  /** An id that was fresh before the loop is fresh after it. */
  lemma StillFresh(e: EngineState, side: Side, limit: Option<nat>, id: OrderId, quantity: nat)
    requires id !in e.AllIds()
    ensures var opp := side.Opposite();
            id !in e.With(opp, Match(opp, e.On(opp), limit, id, quantity).book).AllIds()
  {
    MatchKeeps(side.Opposite(), e.On(side.Opposite()), limit, id, quantity);
  }

  /** One turn of the loop takes from the front and leaves the rest to the next turn. */
  lemma MatchStep(s: Side, f: seq<EngineOrder>, limit: Option<nat>, taker: OrderId, q: nat, fills: seq<EngineFill>)
    requires q > 0 && f != [] && Acceptable(s, limit, f[0].price)
    ensures var t := Min(q, f[0].quantity);
            Prepend(fills, Match(s, f, limit, taker, q))
            == Prepend(fills + [EngineFill(f[0].id, taker, f[0].price, t)],
                       Match(s, AfterTake(f, t), limit, taker, q - t))
  {
  }

  lemma MatchStop(s: Side, f: seq<EngineOrder>, limit: Option<nat>, taker: OrderId, q: nat, fills: seq<EngineFill>)
    requires q == 0 || f == [] || !Acceptable(s, limit, f[0].price)
    ensures Prepend(fills, Match(s, f, limit, taker, q)) == Matched(fills, f, q)
  {
  }

  /** The fills already made, in front of what the rest of the loop will do. */
  ghost function Prepend(fills: seq<EngineFill>, m: Matched): Matched {
    m.(fills := fills + m.fills)
  }
}
