/** One side of the book as the engine stores it: a sorted map from price to a FIFO queue. */
module Levels {
  import opened Types
  import opened PriorityBook

  type Levels = map<nat, seq<EngineOrder>>

  lemma {:induction false} BestExists(s: Side, keys: set<nat>) returns (best: nat)
    requires keys != {}
    ensures best in keys && forall x :: x in keys ==> x == best || Better(s, best, x)
  {
    var k :| k in keys;
    best := k;
    if keys != {k} {
      var b := BestExists(s, keys - {k});
      best := if Better(s, k, b) then k else b;
      assert forall x :: x in keys <==> x == k || x in keys - {k};
    }
  }

  /** The first key of the asks and the last key of the bids. */
  function BestPrice(s: Side, keys: set<nat>): (k: nat)
    requires keys != {}
    ensures k in keys && forall x :: x in keys ==> x == k || Better(s, k, x)
  {
    assert exists k :: k in keys && forall x :: x in keys ==> x == k || Better(s, k, x) by {
      var k := BestExists(s, keys);
    }
    var k :| k in keys && forall x :: x in keys ==> x == k || Better(s, k, x);
    k
  }

  lemma BestIs(s: Side, keys: set<nat>, k: nat)
    requires k in keys && forall x :: x in keys ==> x == k || Better(s, k, x)
    ensures BestPrice(s, keys) == k
  {
  }

  /** The queues one behind the other, best price first. */
  function Flatten(s: Side, m: Levels): seq<EngineOrder>
    decreases m.Keys
  {
    if m == map[] then [] else
      var b := BestPrice(s, m.Keys);
      m[b] + Flatten(s, m - {b})
  }

  /** No queue is empty, and a queue holds orders of its own price and side. */
  ghost predicate WellQueued(s: Side, m: Levels) {
    forall p :: p in m ==> QueueAt(s, p, m[p])
  }

  ghost predicate QueueAt(s: Side, p: nat, queue: seq<EngineOrder>) {
    queue != [] && forall o :: o in queue ==> o.price == p && o.side == s
  }

  function Pushed(m: Levels, o: EngineOrder): Levels {
    m[o.price := (if o.price in m then m[o.price] else []) + [o]]
  }

  /** The queue of one price, read off the flat list. */
  ghost function AtPrice(f: seq<EngineOrder>, p: nat): seq<EngineOrder> {
    if f == [] then [] else (if f[0].price == p then [f[0]] else []) + AtPrice(f[1..], p)
  }

  // ----- What the flat list says about the queues -----

  lemma {:induction false} FlattenContent(s: Side, m: Levels)
    ensures forall o :: o in Flatten(s, m) <==> exists p :: p in m && o in m[p]
    decreases m.Keys
  {
    if m != map[] {
      var b := BestPrice(s, m.Keys);
      FlattenContent(s, m - {b});
      forall o ensures o in Flatten(s, m) <==> exists p :: p in m && o in m[p] {
        if p :| p in m && o in m[p] {
          assert p == b || p in m - {b};
        }
      }
    }
  }

  lemma QueueOf(s: Side, m: Levels, o: EngineOrder)
    requires WellQueued(s, m) && o in Flatten(s, m)
    ensures o.price in m && o in m[o.price] && o.side == s
  {
    FlattenContent(s, m);
    var p :| p in m && o in m[p];
    assert QueueAt(s, p, m[p]);
  }

  lemma {:induction false} FlattenPriceSorted(s: Side, m: Levels)
    requires WellQueued(s, m)
    ensures PriceSorted(s, Flatten(s, m))
    decreases m.Keys
  {
    if m != map[] {
      var b := BestPrice(s, m.Keys);
      var rest := m - {b};
      FlattenPriceSorted(s, rest);
      FlattenContent(s, rest);
      var f, q := Flatten(s, m), m[b];
      assert QueueAt(s, b, q);
      forall i, j | 0 <= i < j < |f| ensures !Better(s, f[j].price, f[i].price) {
        if i < |q| {
          assert f[i] in q;
          if j < |q| {
            assert f[j] in q;
          } else {
            var o := Flatten(s, rest)[j - |q|];
            assert o in Flatten(s, rest);
            var p :| p in rest && o in rest[p];
            assert QueueAt(s, p, m[p]);
          }
        } else {
          assert f[i] == Flatten(s, rest)[i - |q|] && f[j] == Flatten(s, rest)[j - |q|];
        }
      }
    }
  }

  // ----- Each operation on the map of queues is one on the flat list -----

  lemma {:induction false} InsertBehind(s: Side, q: seq<EngineOrder>, f: seq<EngineOrder>, o: EngineOrder)
    requires forall x :: x in q ==> !Better(s, o.price, x.price)
    ensures Insert(s, q + f, o) == q + Insert(s, f, o)
  {
    if q == [] {
      assert q + f == f;
    } else {
      assert q[0] in q;
      assert (q + f)[1..] == q[1..] + f;
      InsertBehind(s, q[1..], f, o);
    }
  }

  /** `b` is the best price of the map. */
  ghost predicate IsBest(s: Side, m: Levels, b: nat) {
    b in m && forall x :: x in m ==> x == b || Better(s, b, x)
  }

  lemma FlattenEmpty(s: Side, m: Levels)
    requires m == map[]
    ensures Flatten(s, m) == []
  {
  }

  lemma FlattenFrom(s: Side, m: Levels, b: nat)
    requires IsBest(s, m, b)
    ensures Flatten(s, m) == m[b] + Flatten(s, m - {b})
  {
    BestIs(s, m.Keys, b);
  }

  lemma InsertInFront(s: Side, m: Levels, o: EngineOrder)
    requires WellQueued(s, m) && forall p :: p in m ==> Better(s, o.price, p)
    ensures Insert(s, Flatten(s, m), o) == [o] + Flatten(s, m)
  {
    if m != map[] {
      var b := BestPrice(s, m.Keys);
      assert QueueAt(s, b, m[b]);
      assert Flatten(s, m)[0] == m[b][0] && m[b][0] in m[b];
    }
  }

  lemma PushedNewBest(s: Side, m: Levels, o: EngineOrder)
    requires WellQueued(s, m) && forall p :: p in m ==> Better(s, o.price, p)
    ensures Flatten(s, Pushed(m, o)) == Insert(s, Flatten(s, m), o)
  {
    FlattenFrom(s, Pushed(m, o), o.price);
    assert Pushed(m, o) - {o.price} == m;
    InsertInFront(s, m, o);
  }

  lemma PushedAtBest(s: Side, m: Levels, o: EngineOrder)
    requires WellQueued(s, m) && IsBest(s, m, o.price)
    ensures Flatten(s, Pushed(m, o)) == Insert(s, Flatten(s, m), o)
  {
    var rest := m - {o.price};
    FlattenFrom(s, m, o.price);
    assert QueueAt(s, o.price, m[o.price]);
    InsertBetween(s, m[o.price], rest, o);
    assert Flatten(s, Pushed(m, o)) == (m[o.price] + [o]) + Flatten(s, rest) by {
      FlattenFrom(s, Pushed(m, o), o.price);
      assert Pushed(m, o) - {o.price} == rest;
    }
  }

  lemma InsertBetween(s: Side, q: seq<EngineOrder>, rest: Levels, o: EngineOrder)
    requires forall x :: x in q ==> !Better(s, o.price, x.price)
    requires WellQueued(s, rest) && forall p :: p in rest ==> Better(s, o.price, p)
    ensures Insert(s, q + Flatten(s, rest), o) == (q + [o]) + Flatten(s, rest)
  {
    InsertBehind(s, q, Flatten(s, rest), o);
    InsertInFront(s, rest, o);
  }

  lemma WellQueuedPushed(s: Side, m: Levels, o: EngineOrder)
    requires WellQueued(s, m) && o.side == s
    ensures WellQueued(s, Pushed(m, o))
  {
    assert o.price in m ==> QueueAt(s, o.price, m[o.price]);
  }

  lemma {:induction false} FlattenPushed(s: Side, m: Levels, o: EngineOrder)
    requires WellQueued(s, m)
    ensures Flatten(s, Pushed(m, o)) == Insert(s, Flatten(s, m), o)
    decreases m.Keys
  {
    if m == map[] {
      PushedNewBest(s, m, o);
    } else {
      var b := BestPrice(s, m.Keys);
      if Better(s, o.price, b) {
        PushedNewBest(s, m, o);
      } else if o.price == b {
        PushedAtBest(s, m, o);
      } else {
        FlattenPushed(s, m - {b}, o);
        PushedDeeper(s, m, b, o);
      }
    }
  }

  lemma PushedDeeper(s: Side, m: Levels, b: nat, o: EngineOrder)
    requires WellQueued(s, m) && IsBest(s, m, b) && Better(s, b, o.price)
    requires Flatten(s, Pushed(m - {b}, o)) == Insert(s, Flatten(s, m - {b}), o)
    ensures Flatten(s, Pushed(m, o)) == Insert(s, Flatten(s, m), o)
  {
    hide PriorityBook.Insert, Flatten;
    FlattenFrom(s, m, b);
    assert Flatten(s, Pushed(m, o)) == m[b] + Flatten(s, Pushed(m - {b}, o)) by {
      FlattenFrom(s, Pushed(m, o), b);
      assert Pushed(m, o) - {b} == Pushed(m - {b}, o);
    }
    assert QueueAt(s, b, m[b]);
    InsertBehind(s, m[b], Flatten(s, m - {b}), o);
  }

  /** The level `p` after its order at `pos` was taken out; an empty level disappears. */
  function Dropped(m: Levels, p: nat, pos: nat): Levels
    requires p in m && pos < |m[p]|
  {
    var queue := m[p][..pos] + m[p][pos + 1..];
    if queue == [] then m - {p} else m[p := queue]
  }

  lemma WellQueuedDropped(s: Side, m: Levels, p: nat, pos: nat)
    requires WellQueued(s, m) && p in m && pos < |m[p]|
    ensures WellQueued(s, Dropped(m, p, pos))
  {
    assert QueueAt(s, p, m[p]);
  }

  lemma WithoutAppend(q: seq<EngineOrder>, f: seq<EngineOrder>, k: nat)
    requires k < |q + f|
    ensures (q + f)[..k] + (q + f)[k + 1..]
            == if k < |q| then (q[..k] + q[k + 1..]) + f else q + (f[..k - |q|] + f[k - |q| + 1..])
  {
  }

  /** Dropping from a queue deletes one element of the flat list, at some place `k`. */
  lemma {:induction false} FlattenDropped(s: Side, m: Levels, p: nat, pos: nat) returns (k: nat)
    requires p in m && pos < |m[p]|
    ensures k < |Flatten(s, m)| && Flatten(s, m)[k] == m[p][pos]
    ensures Flatten(s, Dropped(m, p, pos)) == Flatten(s, m)[..k] + Flatten(s, m)[k + 1..]
    decreases m.Keys
  {
    hide Flatten, Dropped;
    var b := BestPrice(s, m.Keys);
    FlattenFrom(s, m, b);
    if p == b {
      k := pos;
      DroppedAtBest(s, m, pos);
    } else {
      var k' := FlattenDropped(s, m - {b}, p, pos);
      k := |m[b]| + k';
      DroppedDeeper(s, m, p, pos);
      WithoutAppend(m[b], Flatten(s, m - {b}), k);
    }
  }

  lemma DroppedDeeper(s: Side, m: Levels, p: nat, pos: nat)
    requires p in m && pos < |m[p]| && p != BestPrice(s, m.Keys)
    ensures var b := BestPrice(s, m.Keys);
            Flatten(s, Dropped(m, p, pos)) == m[b] + Flatten(s, Dropped(m - {b}, p, pos))
  {
    var b := BestPrice(s, m.Keys);
    FlattenFrom(s, Dropped(m, p, pos), b);
    assert Dropped(m, p, pos) - {b} == Dropped(m - {b}, p, pos);
  }

  lemma DroppedAtBest(s: Side, m: Levels, pos: nat)
    requires m != map[] && pos < |m[BestPrice(s, m.Keys)]|
    ensures var b := BestPrice(s, m.Keys);
            Flatten(s, Dropped(m, b, pos)) == (m[b][..pos] + m[b][pos + 1..]) + Flatten(s, m - {b})
            == Flatten(s, m)[..pos] + Flatten(s, m)[pos + 1..]
  {
    var b := BestPrice(s, m.Keys);
    WithoutAppend(m[b], Flatten(s, m - {b}), pos);
    if m[b][..pos] + m[b][pos + 1..] == [] {
      assert Dropped(m, b, pos) == m - {b};
    } else {
      FlattenFrom(s, Dropped(m, b, pos), b);
      assert Dropped(m, b, pos) - {b} == m - {b};
    }
  }

  /** The front level after `t` units were taken from its first order. */
  function Reduced(m: Levels, p: nat, t: nat): Levels
    requires p in m && m[p] != [] && t <= m[p][0].quantity
  {
    var queue := AfterTake(m[p], t);
    if queue == [] then m - {p} else m[p := queue]
  }

  lemma WellQueuedReduced(s: Side, m: Levels, p: nat, t: nat)
    requires WellQueued(s, m) && p in m && t <= m[p][0].quantity
    ensures WellQueued(s, Reduced(m, p, t))
  {
    assert QueueAt(s, p, m[p]) && m[p][0] in m[p];
    assert forall o :: o in m[p][1..] ==> o in m[p];
  }

  lemma FlattenReduced(s: Side, m: Levels, t: nat)
    requires m != map[] && WellQueued(s, m)
    requires t <= m[BestPrice(s, m.Keys)][0].quantity
    ensures Flatten(s, m) != [] && Flatten(s, m)[0] == m[BestPrice(s, m.Keys)][0]
    ensures Flatten(s, Reduced(m, BestPrice(s, m.Keys), t)) == AfterTake(Flatten(s, m), t)
  {
    var b := BestPrice(s, m.Keys);
    var rest, m' := m - {b}, Reduced(m, b, t);
    assert QueueAt(s, b, m[b]);
    AfterTakeAppend(m[b], Flatten(s, rest), t);
    if AfterTake(m[b], t) == [] {
      assert m' == rest;
    } else {
      assert m'.Keys == m.Keys && m' - {b} == rest;
    }
  }

  lemma AfterTakeAppend(q: seq<EngineOrder>, f: seq<EngineOrder>, t: nat)
    requires q != [] && t <= q[0].quantity
    ensures AfterTake(q + f, t) == AfterTake(q, t) + f
  {
    assert (q + f)[1..] == q[1..] + f;
  }

  // ----- The map of queues is determined by the flat list -----

  lemma {:induction false} AtPriceAppend(q: seq<EngineOrder>, f: seq<EngineOrder>, p: nat)
    ensures AtPrice(q + f, p) == AtPrice(q, p) + AtPrice(f, p)
  {
    if q == [] {
      assert q + f == f;
    } else {
      assert (q + f)[1..] == q[1..] + f;
      AtPriceAppend(q[1..], f, p);
      var first := if q[0].price == p then [q[0]] else [];
      assert first + (AtPrice(q[1..], p) + AtPrice(f, p)) == (first + AtPrice(q[1..], p)) + AtPrice(f, p);
    }
  }

  lemma {:induction false} AtPriceUniform(q: seq<EngineOrder>, b: nat, p: nat)
    requires forall o :: o in q ==> o.price == b
    ensures AtPrice(q, p) == if p == b then q else []
  {
    if q != [] {
      assert q == [q[0]] + q[1..];
      AtPriceUniform(q[1..], b, p);
    }
  }

  lemma {:induction false} QueueFromFlat(s: Side, m: Levels, p: nat)
    requires WellQueued(s, m)
    ensures AtPrice(Flatten(s, m), p) == if p in m then m[p] else []
    decreases m.Keys
  {
    if m != map[] {
      var b := BestPrice(s, m.Keys);
      assert QueueAt(s, b, m[b]);
      QueueFromFlat(s, m - {b}, p);
      AtPriceAppend(m[b], Flatten(s, m - {b}), p);
      AtPriceUniform(m[b], b, p);
    }
  }

  /** Refinement loses nothing: two maps of queues with the same flat list are the same map. */
  lemma FlattenInjective(s: Side, m: Levels, m': Levels)
    requires WellQueued(s, m) && WellQueued(s, m')
    requires Flatten(s, m) == Flatten(s, m')
    ensures m == m'
  {
    forall p ensures (p in m <==> p in m') && (p in m ==> m[p] == m'[p]) {
      QueueFromFlat(s, m, p);
      QueueFromFlat(s, m', p);
      assert p in m ==> QueueAt(s, p, m[p]);
      assert p in m' ==> QueueAt(s, p, m'[p]);
    }
  }

  // ----- Totals -----

  /** The quantities of all queues, lowest price first. */
  function TotalOfLevels(m: Levels): nat
    decreases m.Keys
  {
    if m == map[] then 0 else
      var p := BestPrice(Sell, m.Keys);
      Total(m[p]) + TotalOfLevels(m - {p})
  }

  lemma {:induction false} TotalPick(m: Levels, p: nat)
    requires p in m
    ensures TotalOfLevels(m) == Total(m[p]) + TotalOfLevels(m - {p})
    decreases m.Keys
  {
    var q := BestPrice(Sell, m.Keys);
    if p != q {
      TotalPick(m - {q}, p);
      assert m - {q} - {p} == m - {p} - {q};
      TotalPick(m - {p}, q);
    }
  }

  lemma {:induction false} TotalAppend(f: seq<EngineOrder>, g: seq<EngineOrder>)
    ensures Total(f + g) == Total(f) + Total(g)
  {
    if f == [] {
      assert f + g == g;
    } else {
      assert (f + g)[1..] == f[1..] + g;
      TotalAppend(f[1..], g);
    }
  }

  /** In whatever order the levels are visited, they add up to the flat list. */
  lemma {:induction false} TotalOfFlatten(s: Side, m: Levels)
    ensures TotalOfLevels(m) == Total(Flatten(s, m))
    decreases m.Keys
  {
    if m != map[] {
      var b := BestPrice(s, m.Keys);
      TotalPick(m, b);
      TotalOfFlatten(s, m - {b});
      TotalAppend(m[b], Flatten(s, m - {b}));
    }
  }
}
