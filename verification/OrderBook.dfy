/** The price-time book: two maps of FIFO queues and an index from order id to location. */
module OrderBooks {
  import opened Types
  import opened PriorityBook
  import opened Levels

  datatype OrderLocation = OrderLocation(side: Side, price: nat)

  datatype TakeResult = TakeResult(makerId: OrderId, fillQty: nat)

  // ----- The index -----

  /** The index entries of side `s` are exactly the orders of `f`, each of which occurs once. */
  ghost predicate Indexes(s: Side, f: seq<EngineOrder>, loc: map<OrderId, OrderLocation>) {
    && DistinctIds(f)
    && (forall o :: o in f ==> o.id in loc && loc[o.id] == OrderLocation(s, o.price))
    && (forall id :: id in loc && loc[id].side == s ==> id in Ids(f))
  }

  lemma IndexesAfterInsert(s: Side, f: seq<EngineOrder>, loc: map<OrderId, OrderLocation>, o: EngineOrder)
    requires Indexes(s, f, loc) && o.id !in loc
    ensures Indexes(s, Insert(s, f, o), loc[o.id := OrderLocation(s, o.price)])
  {
    InsertContent(s, f, o);
    InsertDistinct(s, f, o);
  }

  lemma IndexesAfterRemove(s: Side, f: seq<EngineOrder>, loc: map<OrderId, OrderLocation>, k: nat)
    requires Indexes(s, f, loc) && k < |f|
    ensures Indexes(s, Remove(f, f[k].id), loc - {f[k].id})
  {
    RemovePlace(f, k);
    RemoveKeeps(s, f, f[k].id);
  }

  lemma IndexesAfterReduce(s: Side, f: seq<EngineOrder>, loc: map<OrderId, OrderLocation>, t: nat)
    requires Indexes(s, f, loc) && f != [] && t < f[0].quantity
    ensures Indexes(s, AfterTake(f, t), loc)
  {
    AfterTakeSorted(s, f, t);
    var g := AfterTake(f, t);
    assert f == [f[0]] + f[1..] && g == [g[0]] + f[1..];
    assert f[0] in f;
    forall id | id in loc && loc[id].side == s ensures id in Ids(g) {
      var o :| o in f && o.id == id;
      assert o == f[0] || o in f[1..];
      assert g[0] in g;
    }
  }

  function Position(queue: seq<EngineOrder>, id: OrderId): (r: Option<nat>)
    ensures r.Some? ==> r.value < |queue| && queue[r.value].id == id
    ensures r.None? ==> id !in Ids(queue)
  {
    if queue == [] then None
    else if queue[0].id == id then Some(0)
    else
      assert queue == [queue[0]] + queue[1..];
      var rest := Position(queue[1..], id);
      if rest.Some? then Some(rest.value + 1) else None
  }

  // ----- The book -----

  class OrderBook {
    var bids: Levels
    var asks: Levels
    var locations: map<OrderId, OrderLocation>

    ghost predicate Valid()
      reads this
    {
      && WellQueued(Buy, bids) && WellQueued(Sell, asks)
      && Indexes(Buy, Flatten(Buy, bids), locations) && Indexes(Sell, Flatten(Sell, asks), locations)
    }

    /** One side as a flat list, best order first. */
    ghost function Resting(s: Side): seq<EngineOrder>
      reads this
    {
      Flatten(s, if s.Buy? then bids else asks)
    }

    constructor ()
      ensures Valid() && locations == map[]
      ensures Resting(Buy) == [] && Resting(Sell) == []
    {
      bids, asks, locations := map[], map[], map[];
    }

    /** The flat lists are in price order, and an id is indexed exactly when it rests. */
    lemma RestingFacts()
      requires Valid()
      ensures forall s :: PriceSorted(s, Resting(s)) && DistinctIds(Resting(s))
      ensures forall s, o :: o in Resting(s) ==> o.side == s
      ensures locations.Keys == Ids(Resting(Buy)) + Ids(Resting(Sell))
      ensures Ids(Resting(Buy)) !! Ids(Resting(Sell))
    {
      FlattenPriceSorted(Buy, bids);
      FlattenPriceSorted(Sell, asks);
      forall o | o in Resting(Buy) ensures o.side == Buy { QueueOf(Buy, bids, o); }
      forall o | o in Resting(Sell) ensures o.side == Sell { QueueOf(Sell, asks, o); }
    }

    /** An indexed order is found in the queue of the recorded side and price. */
    lemma IndexedPlace(id: OrderId)
      requires Valid() && id in locations
      ensures var m := if locations[id].side.Buy? then bids else asks;
              locations[id].price in m && Position(m[locations[id].price], id).Some?
    {
      var s := locations[id].side;
      assert id in Ids(Resting(s)) by { assert s.Buy? || s.Sell?; }
      var o: EngineOrder :| o in Resting(s) && o.id == id;
      if s.Buy? { QueueOf(Buy, bids, o); } else { QueueOf(Sell, asks, o); }
    }

    /** ... and nowhere else. */
    lemma OnlyIndexedPlace(s: Side, p: nat, id: OrderId)
      requires Valid()
      requires var m := if s.Buy? then bids else asks; p in m && Position(m[p], id).Some?
      ensures id in locations && locations[id] == OrderLocation(s, p)
    {
      var m := if s.Buy? then bids else asks;
      FlattenContent(s, m);
      var o: EngineOrder := m[p][Position(m[p], id).value];
      assert o in m[p] && o in Resting(s);
      assert QueueAt(s, p, m[p]);
    }

    /** Joins the back of the queue of its price. The index stays right when the id is a fresh one. */
    method Insert(order: EngineOrder)
      requires Valid()
      modifies this
      ensures order.id !in old(locations) ==> Valid()
      ensures Resting(order.side) == PriorityBook.Insert(order.side, old(Resting(order.side)), order)
      ensures Resting(order.side.Opposite()) == old(Resting(order.side.Opposite()))
      ensures locations == old(locations)[order.id := OrderLocation(order.side, order.price)]
    {
      InsertFacts(order);
      if order.id !in locations {
        InsertKeepsIndex(order);
      }
      var location := OrderLocation(order.side, order.price);
      if order.side.Buy? {
        bids := bids[order.price := (if order.price in bids then bids[order.price] else []) + [order]];
      } else {
        asks := asks[order.price := (if order.price in asks then asks[order.price] else []) + [order]];
      }
      locations := locations[order.id := location];
    }

    lemma InsertFacts(o: EngineOrder)
      requires Valid()
      ensures var m := if o.side.Buy? then bids else asks;
              && WellQueued(o.side, Pushed(m, o))
              && Flatten(o.side, Pushed(m, o)) == PriorityBook.Insert(o.side, Resting(o.side), o)
    {
      var m := if o.side.Buy? then bids else asks;
      WellQueuedPushed(o.side, m, o);
      FlattenPushed(o.side, m, o);
    }

    lemma InsertKeepsIndex(o: EngineOrder)
      requires Valid() && o.id !in locations
      ensures var loc := locations[o.id := OrderLocation(o.side, o.price)];
              && Indexes(o.side, PriorityBook.Insert(o.side, Resting(o.side), o), loc)
              && Indexes(o.side.Opposite(), Resting(o.side.Opposite()), loc)
    {
      RestingFacts();
      IndexesAfterInsert(o.side, Resting(o.side), locations, o);
    }

    /** Succeeds exactly for the orders that rest, and deletes exactly that order. */
    method Cancel(orderId: OrderId) returns (r: Option<EngineOrder>)
      requires Valid()
      modifies this
      ensures Valid()
      ensures r.Some? <==> orderId in old(locations)
      ensures locations == old(locations) - {orderId}
      ensures Resting(Buy) == Remove(old(Resting(Buy)), orderId)
      ensures Resting(Sell) == Remove(old(Resting(Sell)), orderId)
      ensures r.Some? ==> r.value.id == orderId && r.value in old(Resting(r.value.side))
      ensures r.None? ==> bids == old(bids) && asks == old(asks)
    {
      hide Remove, Ids, Flatten;
      if orderId !in locations {
        RestingFacts();
        RemoveAbsent(Resting(Buy), orderId);
        RemoveAbsent(Resting(Sell), orderId);
        return None;
      }
      var location := locations[orderId];
      IndexedPlace(orderId);
      var queue := if location.side.Buy? then bids[location.price] else asks[location.price];
      var pos := Position(queue, orderId).value;
      r := Some(queue[pos]);
      ghost var m := if location.side.Buy? then bids else asks;
      CancelFacts(location.side, location.price, pos);
      locations := locations - {orderId};
      queue := queue[..pos] + queue[pos + 1..];
      if location.side.Buy? {
        bids := if queue == [] then bids - {location.price} else bids[location.price := queue];
        assert bids == Dropped(m, location.price, pos);
      } else {
        asks := if queue == [] then asks - {location.price} else asks[location.price := queue];
        assert asks == Dropped(m, location.price, pos);
      }
    }

    lemma CancelFacts(s: Side, p: nat, pos: nat)
      requires Valid()
      requires var m := if s.Buy? then bids else asks; p in m && pos < |m[p]|
      ensures var m := if s.Buy? then bids else asks; var o: EngineOrder := m[p][pos];
              && WellQueued(s, Dropped(m, p, pos))
              && Flatten(s, Dropped(m, p, pos)) == Remove(Resting(s), o.id)
              && Remove(Resting(s.Opposite()), o.id) == Resting(s.Opposite())
              && Indexes(s, Remove(Resting(s), o.id), locations - {o.id})
              && Indexes(s.Opposite(), Resting(s.Opposite()), locations - {o.id})
              && o.side == s && o in Resting(s)
    {
      var m := if s.Buy? then bids else asks;
      var o: EngineOrder := m[p][pos];
      assert QueueAt(s, p, m[p]) && o in m[p];
      WellQueuedDropped(s, m, p, pos);
      var k := FlattenDropped(s, m, p, pos);
      RemovePlace(Resting(s), k);
      IndexesAfterRemove(s, Resting(s), locations, k);
      RestingFacts();
      RemoveAbsent(Resting(s.Opposite()), o.id);
    }

    function BestBid(): (r: Option<nat>)
      reads this
    {
      if bids == map[] then None else Some(BestPrice(Buy, bids.Keys))
    }

    function BestAsk(): (r: Option<nat>)
      reads this
    {
      if asks == map[] then None else Some(BestPrice(Sell, asks.Keys))
    }

    /** The best price is the price of the first order of the flat list. */
    lemma BestIsFirst(s: Side)
      requires Valid()
      ensures var best := if s.Buy? then BestBid() else BestAsk();
              if Resting(s) == [] then best.None? else best == Some(Resting(s)[0].price)
    {
      var m := if s.Buy? then bids else asks;
      if m != map[] {
        var b := BestPrice(s, m.Keys);
        assert QueueAt(s, b, m[b]);
        assert Resting(s)[0] == m[b][0] && m[b][0] in m[b];
      }
    }

    /** Take up to `maxQty` from the first order at the best ask. */
    method TakeBestAsk(maxQty: nat) returns (r: Option<TakeResult>)
      requires Valid()
      modifies this
      ensures Valid()
      ensures r.Some? <==> old(Resting(Sell)) != []
      ensures r.Some? ==> TakenFront(old(Resting(Sell)), maxQty, r.value, Resting(Sell))
      ensures r.None? ==> Resting(Sell) == old(Resting(Sell))
      ensures Resting(Buy) == old(Resting(Buy))
    {
      hide Flatten, Indexes, WellQueued;
      if asks == map[] {
        FlattenEmpty(Sell, asks);
        return None;
      }
      var bestPrice := BestPrice(Sell, asks.Keys);
      BestQueue(Sell);
      ghost var m := asks;
      var queue := asks[bestPrice];
      var maker := queue[0];
      var fillQty := Min(maxQty, maker.quantity);
      TakeFacts(Sell, fillQty);
      maker := maker.(quantity := maker.quantity - fillQty);
      queue := [maker] + queue[1..];
      if maker.quantity == 0 {
        queue := queue[1..];
        locations := locations - {maker.id};
        asks := if queue == [] then asks - {bestPrice} else asks[bestPrice := queue];
      } else {
        asks := asks[bestPrice := queue];
      }
      assert asks == Reduced(m, bestPrice, fillQty);
      r := Some(TakeResult(maker.id, fillQty));
    }

    /** Take up to `maxQty` from the first order at the best bid. */
    method TakeBestBid(maxQty: nat) returns (r: Option<TakeResult>)
      requires Valid()
      modifies this
      ensures Valid()
      ensures r.Some? <==> old(Resting(Buy)) != []
      ensures r.Some? ==> TakenFront(old(Resting(Buy)), maxQty, r.value, Resting(Buy))
      ensures r.None? ==> Resting(Buy) == old(Resting(Buy))
      ensures Resting(Sell) == old(Resting(Sell))
    {
      hide Flatten, Indexes, WellQueued;
      if bids == map[] {
        FlattenEmpty(Buy, bids);
        return None;
      }
      var bestPrice := BestPrice(Buy, bids.Keys);
      BestQueue(Buy);
      ghost var m := bids;
      var queue := bids[bestPrice];
      var maker := queue[0];
      var fillQty := Min(maxQty, maker.quantity);
      TakeFacts(Buy, fillQty);
      maker := maker.(quantity := maker.quantity - fillQty);
      queue := [maker] + queue[1..];
      if maker.quantity == 0 {
        queue := queue[1..];
        locations := locations - {maker.id};
        bids := if queue == [] then bids - {bestPrice} else bids[bestPrice := queue];
      } else {
        bids := bids[bestPrice := queue];
      }
      assert bids == Reduced(m, bestPrice, fillQty);
      r := Some(TakeResult(maker.id, fillQty));
    }

    /** The best level has an order in it. */
    lemma BestQueue(s: Side)
      requires Valid() && (if s.Buy? then bids else asks) != map[]
      ensures var m := if s.Buy? then bids else asks; m[BestPrice(s, m.Keys)] != []
    {
      var m := if s.Buy? then bids else asks;
      assert QueueAt(s, BestPrice(s, m.Keys), m[BestPrice(s, m.Keys)]);
    }

    lemma TakeFacts(s: Side, t: nat)
      requires Valid()
      requires var m := if s.Buy? then bids else asks;
               m != map[] && m[BestPrice(s, m.Keys)] != [] && t <= m[BestPrice(s, m.Keys)][0].quantity
      ensures var m := if s.Buy? then bids else asks;
              var b := BestPrice(s, m.Keys);
              var loc := if t == m[b][0].quantity then locations - {m[b][0].id} else locations;
              && WellQueued(s, Reduced(m, b, t))
              && Resting(s) != [] && Resting(s)[0] == m[b][0]
              && Flatten(s, Reduced(m, b, t)) == AfterTake(Resting(s), t)
              && Indexes(s, AfterTake(Resting(s), t), loc)
              && Indexes(s.Opposite(), Resting(s.Opposite()), loc)
    {
      var m := if s.Buy? then bids else asks;
      var b := BestPrice(s, m.Keys);
      WellQueuedReduced(s, m, b, t);
      FlattenReduced(s, m, t);
      RestingFacts();
      assert Resting(s)[0] in Resting(s);
      if t == m[b][0].quantity {
        RemovePlace(Resting(s), 0);
        IndexesAfterRemove(s, Resting(s), locations, 0);
        assert Remove(Resting(s), m[b][0].id) == AfterTake(Resting(s), t);
      } else {
        IndexesAfterReduce(s, Resting(s), locations, t);
      }
    }

    function TotalAskQty(): (total: nat)
      reads this
      ensures total == Total(Resting(Sell))
    {
      TotalOfFlatten(Sell, asks);
      TotalOfLevels(asks)
    }

    function TotalBidQty(): (total: nat)
      reads this
      ensures total == Total(Resting(Buy))
    {
      TotalOfFlatten(Buy, bids);
      TotalOfLevels(bids)
    }

    predicate HasOrder(id: OrderId)
      reads this
    {
      id in locations
    }
  }

  /** What one take does to the flat list. */
  ghost predicate TakenFront(before: seq<EngineOrder>, maxQty: nat, r: TakeResult, after: seq<EngineOrder>) {
    && before != []
    && r == TakeResult(before[0].id, Min(maxQty, before[0].quantity))
    && after == AfterTake(before, r.fillQty)
  }

  /** Inserting a fresh order and cancelling it again restores the very same queues and index. */
  method InsertThenCancel(book: OrderBook, order: EngineOrder) returns (r: Option<EngineOrder>)
    requires book.Valid() && order.id !in book.locations
    modifies book
    ensures r.Some? && r.value.id == order.id
    ensures book.bids == old(book.bids) && book.asks == old(book.asks) && book.locations == old(book.locations)
  {
    hide PriorityBook.Insert, Remove, Ids, Flatten, WellQueued, Indexes;
    book.RestingFacts();
    RemoveAbsent(book.Resting(order.side.Opposite()), order.id);
    InsertThenRemove(order.side, book.Resting(order.side), order);
    book.Insert(order);
    r := book.Cancel(order.id);
    FlattenInjective(Buy, book.bids, old(book.bids));
    FlattenInjective(Sell, book.asks, old(book.asks));
  }
}
