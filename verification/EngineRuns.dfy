/** What every run of the matching engine keeps. */
module EngineRuns {
  import opened Types
  import opened PriorityBook
  import opened MatchingEngines

  ghost predicate Uncrossed(e: EngineState) {
    forall b, a :: b in e.bids && a in e.asks ==> b.price < a.price
  }

  /** Both sides in price-time order with live, distinct orders, ids below the next one, and no
      bid that meets an ask. */
  ghost predicate Sound(e: EngineState) {
    && Sorted(Buy, e.bids) && Sorted(Sell, e.asks)
    && Live(Buy, e.bids) && Live(Sell, e.asks)
    && DistinctIds(e.bids) && DistinctIds(e.asks) && Ids(e.bids) !! Ids(e.asks)
    && (forall id :: id in e.AllIds() ==> id < e.nextId)
    && Uncrossed(e)
  }

  lemma SortedByPrice(s: Side, f: seq<EngineOrder>)
    requires Sorted(s, f)
    ensures PriceSorted(s, f)
  {
  }

  lemma MatchedSideSound(s: Side, f: seq<EngineOrder>, limit: Option<nat>, taker: OrderId, q: nat)
    requires Sorted(s, f) && Live(s, f) && DistinctIds(f)
    ensures var g := Match(s, f, limit, taker, q).book;
            && Sorted(s, g) && Live(s, g) && DistinctIds(g) && Ids(g) <= Ids(f)
            && forall x :: x in g ==> exists o :: o in f && o.price == x.price
  {
    MatchKeeps(s, f, limit, taker, q);
    forall x | x in Match(s, f, limit, taker, q).book ensures exists o :: o in f && o.price == x.price {
      var o := MatchOrigin(s, f, limit, taker, q, x);
    }
  }

  /** A limit remainder rests behind a book side that no longer meets its price. */
  lemma RemainderDoesNotCross(e: EngineState, side: Side, price: nat, quantity: nat, x: EngineOrder)
    requires Sound(e)
    requires var opp := side.Opposite();
             var m := Match(opp, e.On(opp), Some(price), e.nextId, quantity);
             m.remaining > 0 && x in m.book
    ensures if side.Buy? then price < x.price else x.price < price
  {
    var opp := side.Opposite();
    SortedByPrice(opp, e.On(opp));
    MatchExhausts(opp, e.On(opp), Some(price), e.nextId, quantity);
  }

  lemma InsertedSideSound(s: Side, f: seq<EngineOrder>, o: EngineOrder)
    requires Sorted(s, f) && Live(s, f) && DistinctIds(f)
    requires o.side == s && o.quantity > 0 && forall x :: x in f ==> x.id < o.id
    ensures var g := Insert(s, f, o);
            && Sorted(s, g) && Live(s, g) && DistinctIds(g) && Ids(g) == Ids(f) + {o.id}
            && forall x :: x in g <==> x == o || x in f
  {
    InsertSorted(s, f, o);
    InsertContent(s, f, o);
    InsertDistinct(s, f, o);
  }

  /** Every submission keeps a sound book sound, whatever its side, price, size and type. */
  lemma SubmitKeepsSound(e: EngineState, side: Side, price: nat, quantity: nat, orderType: OrderType)
    requires Sound(e)
    ensures Sound(AfterSubmit(e, side, price, quantity, orderType).0)
  {
    hide Match, Insert, Sorted, DistinctIds, Total;
    if !Rejects(e, side, quantity, orderType) {
      var opp := side.Opposite();
      var m := Match(opp, e.On(opp), LimitOf(orderType, price), e.nextId, quantity);
      MatchedSideSound(opp, e.On(opp), LimitOf(orderType, price), e.nextId, quantity);
      if m.remaining > 0 && orderType.Limit? {
        var o := EngineOrder(e.nextId, side, price, m.remaining);
        forall x | x in e.On(side) ensures x.id < o.id {
          assert x.id in Ids(e.On(side)) && x.id in e.AllIds();
        }
        InsertedSideSound(side, e.On(side), o);
        forall x | x in m.book ensures if side.Buy? then price < x.price else x.price < price {
          RemainderDoesNotCross(e, side, price, quantity, x);
        }
      }
      assert AfterSubmit(e, side, price, quantity, orderType).0.AllIds() <= e.AllIds() + {e.nextId};
    }
  }

  lemma CancelKeepsSound(e: EngineState, id: OrderId)
    requires Sound(e)
    ensures Sound(AfterCancel(e, id))
  {
    hide Sorted, DistinctIds, Remove;
    RemoveKeeps(Buy, e.bids, id);
    RemoveKeeps(Sell, e.asks, id);
    assert AfterCancel(e, id).AllIds() <= e.AllIds();
  }

  // ----- Runs -----

  datatype Op =
    | SubmitOp(side: Side, price: nat, quantity: nat, orderType: OrderType)
    | CancelOp(id: OrderId)

  function Step(e: EngineState, op: Op): EngineState {
    match op
    case SubmitOp(side, price, quantity, orderType) => AfterSubmit(e, side, price, quantity, orderType).0
    case CancelOp(id) => AfterCancel(e, id)
  }

  function Run(ops: seq<Op>): EngineState {
    if ops == [] then EngineState([], [], 1) else Step(Run(ops[..|ops| - 1]), ops[|ops| - 1])
  }

  /** Every state reached from the empty book is sound. */
  lemma {:induction false} RunsAreSound(ops: seq<Op>)
    ensures Sound(Run(ops))
  {
    if ops != [] {
      RunsAreSound(ops[..|ops| - 1]);
      var e := Run(ops[..|ops| - 1]);
      match ops[|ops| - 1]
      case SubmitOp(side, price, quantity, orderType) => SubmitKeepsSound(e, side, price, quantity, orderType);
      case CancelOp(id) => CancelKeepsSound(e, id);
    }
  }

  /** In every reachable state the best bid is below the best ask. */
  lemma NeverCrossed(ops: seq<Op>)
    ensures var e := Run(ops); e.bids != [] && e.asks != [] ==> e.bids[0].price < e.asks[0].price
  {
    RunsAreSound(ops);
    var e := Run(ops);
    if e.bids != [] && e.asks != [] {
      assert e.bids[0] in e.bids && e.asks[0] in e.asks;
    }
  }

  /** Price-time priority over whole runs: whatever came before, the makers of one submission are
      in strict (price, id) order, and all but the last are consumed whole. */
  lemma PriorityInEveryRun(ops: seq<Op>, side: Side, price: nat, quantity: nat, orderType: OrderType, i: nat, j: nat)
    requires var fills := AfterSubmit(Run(ops), side, price, quantity, orderType).1.fills; i < j < |fills|
    ensures var fills := AfterSubmit(Run(ops), side, price, quantity, orderType).1.fills;
            var opp := Run(ops).On(side.Opposite());
            && (Better(side.Opposite(), fills[i].price, fills[j].price)
                || (fills[i].price == fills[j].price && fills[i].makerId < fills[j].makerId))
            && j < |opp| && fills[i].quantity == opp[i].quantity
  {
    RunsAreSound(ops);
    var e, opp := Run(ops), side.Opposite();
    MakersInPriority(opp, e.On(opp), LimitOf(orderType, price), e.nextId, quantity, i, j);
    MatchConsumesPrefix(opp, e.On(opp), LimitOf(orderType, price), e.nextId, quantity);
  }

  /** A limit order is filled to exactly the smaller of its quantity and what rests within its limit;
      the rest of it rests. */
  lemma LimitFilledExactly(e: EngineState, side: Side, price: nat, quantity: nat)
    requires Sound(e)
    ensures var (e', r) := AfterSubmit(e, side, price, quantity, Limit);
            var opp := side.Opposite();
            && FillQty(r.fills) == Min(quantity, Depth(opp, e.On(opp), Some(price)))
            && r.restingQty == quantity - FillQty(r.fills)
            && Total(e'.On(opp)) == Total(e.On(opp)) - FillQty(r.fills)
            && Total(e'.On(side)) == Total(e.On(side)) + r.restingQty
  {
    var opp := side.Opposite();
    var m := Match(opp, e.On(opp), Some(price), e.nextId, quantity);
    SortedByPrice(opp, e.On(opp));
    MatchFillsAll(opp, e.On(opp), Some(price), e.nextId, quantity);
    InsertContent(side, e.On(side), EngineOrder(e.nextId, side, price, m.remaining));
  }

  /** Market orders are all or nothing. */
  lemma MarketAllOrNothing(e: EngineState, side: Side, price: nat, quantity: nat)
    requires Sound(e)
    ensures var (e', r) := AfterSubmit(e, side, price, quantity, Market);
            var opp := side.Opposite();
            if Total(e.On(opp)) < quantity then e' == e && r.fills == []
            else
              && FillQty(r.fills) == quantity && r.restingQty == 0 && !r.resting
              && e'.On(side) == e.On(side)
              && Total(e'.On(opp)) == Total(e.On(opp)) - quantity
  {
    var opp := side.Opposite();
    SortedByPrice(opp, e.On(opp));
    MatchFillsAll(opp, e.On(opp), None, e.nextId, quantity);
    DepthWithoutLimit(opp, e.On(opp));
  }

  // ----- Conservation of quantity -----

  function FilledBy(e: EngineState, op: Op): nat {
    if op.SubmitOp? then FillQty(AfterSubmit(e, op.side, op.price, op.quantity, op.orderType).1.fills) else 0
  }

  function AcceptedBy(e: EngineState, op: Op, s: Side): nat {
    if op.SubmitOp? && op.side == s && !Rejects(e, op.side, op.quantity, op.orderType) then op.quantity else 0
  }

  function CancelledBy(e: EngineState, op: Op, s: Side): nat {
    if op.CancelOp? then QuantityOf(e.On(s), op.id) else 0
  }

  function QuantityOf(f: seq<EngineOrder>, id: OrderId): nat {
    if f == [] then 0 else if f[0].id == id then f[0].quantity else QuantityOf(f[1..], id)
  }

  function Filled(ops: seq<Op>): nat {
    if ops == [] then 0
    else Filled(ops[..|ops| - 1]) + FilledBy(Run(ops[..|ops| - 1]), ops[|ops| - 1])
  }

  function Accepted(ops: seq<Op>, s: Side): nat {
    if ops == [] then 0
    else Accepted(ops[..|ops| - 1], s) + AcceptedBy(Run(ops[..|ops| - 1]), ops[|ops| - 1], s)
  }

  function CancelledQty(ops: seq<Op>, s: Side): nat {
    if ops == [] then 0
    else CancelledQty(ops[..|ops| - 1], s) + CancelledBy(Run(ops[..|ops| - 1]), ops[|ops| - 1], s)
  }

  lemma {:induction false} RemoveTakesQuantity(f: seq<EngineOrder>, id: OrderId)
    ensures Total(Remove(f, id)) == Total(f) - QuantityOf(f, id)
  {
    if f != [] && f[0].id != id {
      RemoveTakesQuantity(f[1..], id);
      assert ([f[0]] + Remove(f[1..], id))[1..] == Remove(f[1..], id);
    }
  }

  /** Nothing is lost on either side: what was accepted was filled, rests or was cancelled. */
  lemma {:induction false} QuantityConserved(ops: seq<Op>, s: Side)
    ensures Accepted(ops, s) == Filled(ops) + Total(Run(ops).On(s)) + CancelledQty(ops, s)
  {
    if ops != [] {
      var init, op := ops[..|ops| - 1], ops[|ops| - 1];
      var e := Run(init);
      QuantityConserved(init, s);
      RunsAreSound(init);
      match op
      case SubmitOp(side, price, quantity, orderType) =>
        if orderType.Limit? {
          LimitFilledExactly(e, side, price, quantity);
        } else {
          MarketAllOrNothing(e, side, price, quantity);
        }
        assert s == side || s == side.Opposite();
      case CancelOp(id) =>
        RemoveTakesQuantity(e.On(s), id);
    }
  }
}
