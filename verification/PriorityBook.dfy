/** One side of the book as a flat list, best order first. This is the specification that the
    sorted maps of queues refine, and the place where the matching loop is proved right. */
module PriorityBook {
  import opened Types

  datatype EngineFill = EngineFill(makerId: OrderId, takerId: OrderId, price: nat, quantity: nat)

  /** On side `s`, price `p` has strict priority over price `q`. */
  predicate Better(s: Side, p: nat, q: nat) {
    if s.Sell? then p < q else q < p
  }

  /** Price first, then time: ids are handed out in order of arrival. */
  predicate Before(s: Side, a: EngineOrder, b: EngineOrder) {
    Better(s, a.price, b.price) || (a.price == b.price && a.id < b.id)
  }

  ghost predicate Sorted(s: Side, f: seq<EngineOrder>) {
    forall i, j :: 0 <= i < j < |f| ==> Before(s, f[i], f[j])
  }

  ghost predicate PriceSorted(s: Side, f: seq<EngineOrder>) {
    forall i, j :: 0 <= i < j < |f| ==> !Better(s, f[j].price, f[i].price)
  }

  lemma HeadIsBest(s: Side, f: seq<EngineOrder>)
    requires PriceSorted(s, f) && f != []
    ensures forall o :: o in f ==> !Better(s, o.price, f[0].price)
    ensures PriceSorted(s, f[1..])
  {
    forall o | o in f ensures !Better(s, o.price, f[0].price) {
      var i :| 0 <= i < |f| && f[i] == o;
    }
  }

  /** Every order is on its own side and has something left to trade. */
  ghost predicate Live(s: Side, f: seq<EngineOrder>) {
    forall o :: o in f ==> o.side == s && o.quantity > 0
  }

  ghost function Ids(f: seq<EngineOrder>): set<OrderId> {
    set o | o in f :: o.id
  }

  ghost predicate DistinctIds(f: seq<EngineOrder>) {
    forall i, j :: 0 <= i < j < |f| ==> f[i].id != f[j].id
  }

  function Total(f: seq<EngineOrder>): nat {
    if f == [] then 0 else f[0].quantity + Total(f[1..])
  }

  // ----- Inserting and removing -----

  /** A new order goes behind every order whose price is as good. */
  function Insert(s: Side, f: seq<EngineOrder>, o: EngineOrder): seq<EngineOrder> {
    if f == [] || Better(s, o.price, f[0].price) then [o] + f else [f[0]] + Insert(s, f[1..], o)
  }

  function Remove(f: seq<EngineOrder>, id: OrderId): seq<EngineOrder> {
    if f == [] then [] else if f[0].id == id then f[1..] else [f[0]] + Remove(f[1..], id)
  }

  /** The place of an insertion: behind the last order that is as good, with the rest intact. */
  lemma {:induction false} InsertPlace(s: Side, f: seq<EngineOrder>, o: EngineOrder) returns (k: nat)
    requires PriceSorted(s, f)
    ensures k <= |f| && Insert(s, f, o) == f[..k] + [o] + f[k..]
    ensures forall i :: 0 <= i < k ==> !Better(s, o.price, f[i].price)
    ensures forall i :: k <= i < |f| ==> Better(s, o.price, f[i].price)
  {
    if f == [] || Better(s, o.price, f[0].price) {
      k := 0;
    } else {
      var k' := InsertPlace(s, f[1..], o);
      k := k' + 1;
      assert forall i :: 0 < i < |f| ==> f[i] == f[1..][i - 1];
      assert f == [f[0]] + f[1..];
    }
  }

  /** An insertion keeps price-time order exactly when the newcomer is younger than its level. */
  lemma {:induction false} InsertSorted(s: Side, f: seq<EngineOrder>, o: EngineOrder)
    requires Sorted(s, f)
    ensures Sorted(s, Insert(s, f, o)) <==> forall x :: x in f && x.price == o.price ==> x.id < o.id
  {
    var k := InsertPlace(s, f, o);
    var g := Insert(s, f, o);
    forall i | 0 <= i < |f| ensures f[i] == if i < k then g[i] else g[i + 1] {}
    if forall x :: x in f && x.price == o.price ==> x.id < o.id {
      forall i, j | 0 <= i < j < |g| ensures Before(s, g[i], g[j]) {
        if i == k {
          assert g[j] == f[j - 1];
        } else if j == k {
          assert g[i] == f[i];
        }
      }
    } else {
      var x :| x in f && x.price == o.price && x.id >= o.id;
      var i :| 0 <= i < |f| && f[i] == x;
      assert i < k;
      assert g[i] == x && g[k] == o;
    }
  }

  lemma {:induction false} InsertContent(s: Side, f: seq<EngineOrder>, o: EngineOrder)
    ensures forall x :: x in Insert(s, f, o) <==> x == o || x in f
    ensures Total(Insert(s, f, o)) == Total(f) + o.quantity
    ensures Ids(Insert(s, f, o)) == Ids(f) + {o.id}
  {
    if f == [] || Better(s, o.price, f[0].price) {
      assert ([o] + f)[1..] == f;
    } else {
      InsertContent(s, f[1..], o);
      assert f == [f[0]] + f[1..];
      assert ([f[0]] + Insert(s, f[1..], o))[1..] == Insert(s, f[1..], o);
    }
  }

  lemma {:induction false} InsertDistinct(s: Side, f: seq<EngineOrder>, o: EngineOrder)
    requires DistinctIds(f) && o.id !in Ids(f)
    ensures DistinctIds(Insert(s, f, o))
  {
    hide DistinctIds;
    if f == [] || Better(s, o.price, f[0].price) {
      HeadDiffersBack(o, f);
    } else {
      assert f == [f[0]] + f[1..] && f[0] in f;
      HeadDiffers(f[0], f[1..]);
      InsertDistinct(s, f[1..], o);
      InsertContent(s, f[1..], o);
      HeadDiffersBack(f[0], Insert(s, f[1..], o));
    }
  }

  lemma {:induction false} RemoveCuts(f: seq<EngineOrder>, k: nat)
    requires k < |f| && forall i :: 0 <= i < k ==> f[i].id != f[k].id
    ensures Remove(f, f[k].id) == f[..k] + f[k + 1..]
  {
    if k > 0 {
      var rest := f[1..];
      assert rest[k - 1] == f[k];
      RemoveCuts(rest, k - 1);
      assert f[..k] == [f[0]] + rest[..k - 1] && f[k + 1..] == rest[k..];
    }
  }

  lemma {:induction false} CutTotal(f: seq<EngineOrder>, k: nat)
    requires k < |f|
    ensures Total(f[..k] + f[k + 1..]) == Total(f) - f[k].quantity
  {
    if k > 0 {
      var rest := f[1..];
      CutTotal(rest, k - 1);
      assert (f[..k] + f[k + 1..])[1..] == rest[..k - 1] + rest[k..];
    } else {
      assert f[..0] + f[1..] == f[1..];
    }
  }

  lemma CutContent(f: seq<EngineOrder>, k: nat)
    requires k < |f| && DistinctIds(f)
    ensures forall x :: x in f[..k] + f[k + 1..] <==> x in f && x.id != f[k].id
  {
    var g := f[..k] + f[k + 1..];
    forall x ensures x in g <==> x in f && x.id != f[k].id {
      if x in f && x.id != f[k].id {
        var i :| 0 <= i < |f| && f[i] == x;
        assert g[if i < k then i else i - 1] == x;
      }
      if x in g {
        var i :| 0 <= i < |g| && g[i] == x;
        var j := if i < k then i else i + 1;
        assert f[j] == x && j != k;
      }
    }
  }

  /** Removing an order deletes one element and keeps the order of the rest. */
  lemma RemovePlace(f: seq<EngineOrder>, k: nat)
    requires k < |f| && DistinctIds(f)
    ensures Remove(f, f[k].id) == f[..k] + f[k + 1..]
    ensures Total(Remove(f, f[k].id)) == Total(f) - f[k].quantity
    ensures forall x :: x in Remove(f, f[k].id) <==> x in f && x.id != f[k].id
    ensures Ids(Remove(f, f[k].id)) == Ids(f) - {f[k].id}
  {
    hide Remove, Total;
    RemoveCuts(f, k);
    CutTotal(f, k);
    CutContent(f, k);
  }

  lemma {:induction false} RemoveKeeps(s: Side, f: seq<EngineOrder>, id: OrderId)
    ensures forall x :: x in Remove(f, id) ==> x in f
    ensures Ids(Remove(f, id)) <= Ids(f)
    ensures DistinctIds(f) ==> DistinctIds(Remove(f, id))
    ensures Sorted(s, f) ==> Sorted(s, Remove(f, id))
  {
    if f != [] {
      assert f == [f[0]] + f[1..];
      if f[0].id != id {
        RemoveKeeps(s, f[1..], id);
        PrependKeeps(s, f[0], f[1..], Remove(f[1..], id));
      }
    }
  }

  lemma RemoveIds(f: seq<EngineOrder>, id: OrderId)
    requires DistinctIds(f)
    ensures Ids(Remove(f, id)) == Ids(f) - {id}
  {
    if id in Ids(f) {
      var o :| o in f && o.id == id;
      var k :| 0 <= k < |f| && f[k] == o;
      RemovePlace(f, k);
    } else {
      RemoveAbsent(f, id);
    }
  }

  lemma PrependKeeps(s: Side, o: EngineOrder, f: seq<EngineOrder>, g: seq<EngineOrder>)
    requires forall x :: x in g ==> x in f
    ensures DistinctIds([o] + f) && DistinctIds(g) ==> DistinctIds([o] + g)
    ensures Sorted(s, [o] + f) && Sorted(s, g) ==> Sorted(s, [o] + g)
  {
    if DistinctIds([o] + f) && DistinctIds(g) {
      HeadDiffers(o, f);
      HeadDiffersBack(o, g);
    }
    if Sorted(s, [o] + f) && Sorted(s, g) {
      HeadFirst(s, o, f);
      HeadFirstBack(s, o, g);
    }
  }

  lemma HeadDiffers(o: EngineOrder, f: seq<EngineOrder>)
    requires DistinctIds([o] + f)
    ensures DistinctIds(f) && forall x :: x in f ==> x.id != o.id
  {
    var g := [o] + f;
    forall i, j | 0 <= i < j < |f| ensures f[i].id != f[j].id {
      assert g[i + 1].id != g[j + 1].id;
    }
    forall x | x in f ensures x.id != o.id {
      var i :| 0 <= i < |f| && f[i] == x;
      assert g[0].id != g[i + 1].id;
    }
  }

  lemma HeadDiffersBack(o: EngineOrder, f: seq<EngineOrder>)
    requires DistinctIds(f) && forall x :: x in f ==> x.id != o.id
    ensures DistinctIds([o] + f)
  {
    assert forall i :: 0 < i < |[o] + f| ==> ([o] + f)[i] == f[i - 1];
  }

  lemma HeadFirst(s: Side, o: EngineOrder, f: seq<EngineOrder>)
    requires Sorted(s, [o] + f)
    ensures Sorted(s, f) && forall x :: x in f ==> Before(s, o, x)
  {
    var g := [o] + f;
    forall i, j | 0 <= i < j < |f| ensures Before(s, f[i], f[j]) {
      assert Before(s, g[i + 1], g[j + 1]);
    }
    forall x | x in f ensures Before(s, o, x) {
      var i :| 0 <= i < |f| && f[i] == x;
      assert Before(s, g[0], g[i + 1]);
    }
  }

  lemma HeadFirstBack(s: Side, o: EngineOrder, f: seq<EngineOrder>)
    requires Sorted(s, f) && forall x :: x in f ==> Before(s, o, x)
    ensures Sorted(s, [o] + f)
  {
    assert forall i :: 0 < i < |[o] + f| ==> ([o] + f)[i] == f[i - 1];
  }

  lemma {:induction false} RemoveAbsent(f: seq<EngineOrder>, id: OrderId)
    requires id !in Ids(f)
    ensures Remove(f, id) == f
  {
    if f != [] {
      assert f == [f[0]] + f[1..];
      RemoveAbsent(f[1..], id);
    }
  }

  lemma {:induction false} InsertThenRemove(s: Side, f: seq<EngineOrder>, o: EngineOrder)
    requires o.id !in Ids(f)
    ensures Remove(Insert(s, f, o), o.id) == f
  {
    if f == [] || Better(s, o.price, f[0].price) {
    } else {
      assert f == [f[0]] + f[1..];
      InsertThenRemove(s, f[1..], o);
      assert ([f[0]] + Insert(s, f[1..], o))[1..] == Insert(s, f[1..], o);
    }
  }

  // ----- Matching -----

  /** A resting price on side `s` that a taker with this limit trades at; a market order has none. */
  predicate Acceptable(s: Side, limit: Option<nat>, price: nat) {
    limit.Some? ==> !Better(s, limit.value, price)
  }

  /** The list after `t` units were taken from its first order. */
  function AfterTake(f: seq<EngineOrder>, t: nat): seq<EngineOrder>
    requires f != [] && t <= f[0].quantity
  {
    if t == f[0].quantity then f[1..] else [f[0].(quantity := f[0].quantity - t)] + f[1..]
  }

  datatype Matched = Matched(fills: seq<EngineFill>, book: seq<EngineOrder>, remaining: nat)

  /** Greedy matching: keep taking from the front while the price is acceptable. */
  function Match(s: Side, f: seq<EngineOrder>, limit: Option<nat>, taker: OrderId, q: nat): Matched
    decreases |f|, q
  {
    if q == 0 || f == [] || !Acceptable(s, limit, f[0].price) then
      Matched([], f, q)
    else
      var t := Min(q, f[0].quantity);
      var rest := Match(s, AfterTake(f, t), limit, taker, q - t);
      rest.(fills := [EngineFill(f[0].id, taker, f[0].price, t)] + rest.fills)
  }

  function FillQty(fills: seq<EngineFill>): nat {
    if fills == [] then 0 else fills[0].quantity + FillQty(fills[1..])
  }

  /** Quantity resting at acceptable prices, wherever it stands in the list. */
  function Depth(s: Side, f: seq<EngineOrder>, limit: Option<nat>): nat {
    if f == [] then 0
    else (if Acceptable(s, limit, f[0].price) then f[0].quantity else 0) + Depth(s, f[1..], limit)
  }

  lemma {:induction false} DepthOfUnacceptable(s: Side, f: seq<EngineOrder>, limit: Option<nat>)
    requires forall o :: o in f ==> !Acceptable(s, limit, o.price)
    ensures Depth(s, f, limit) == 0
  {
    if f != [] {
      assert f == [f[0]] + f[1..];
      DepthOfUnacceptable(s, f[1..], limit);
    }
  }

  lemma {:induction false} DepthWithoutLimit(s: Side, f: seq<EngineOrder>)
    ensures Depth(s, f, None) == Total(f)
  {
    if f != [] {
      DepthWithoutLimit(s, f[1..]);
    }
  }

  lemma AfterTakeSorted(s: Side, f: seq<EngineOrder>, t: nat)
    requires f != [] && t <= f[0].quantity
    ensures Sorted(s, f) ==> Sorted(s, AfterTake(f, t))
    ensures PriceSorted(s, f) ==> PriceSorted(s, AfterTake(f, t))
    ensures DistinctIds(f) ==> DistinctIds(AfterTake(f, t))
  {
    var g := AfterTake(f, t);
    if t == f[0].quantity {
      assert forall i :: 0 <= i < |g| ==> g[i] == f[i + 1];
    } else {
      assert forall i :: 0 < i < |g| ==> g[i] == f[i];
    }
  }

  lemma AfterTakeContent(s: Side, f: seq<EngineOrder>, t: nat)
    requires f != [] && t <= f[0].quantity
    ensures Live(s, f) ==> Live(s, AfterTake(f, t))
    ensures Total(AfterTake(f, t)) == Total(f) - t
    ensures Ids(AfterTake(f, t)) <= Ids(f)
  {
    assert f == [f[0]] + f[1..];
    assert f[0] in f;
    if t < f[0].quantity {
      assert AfterTake(f, t)[1..] == f[1..];
    }
  }

  /** One turn of the loop. */
  lemma MatchTurn(s: Side, f: seq<EngineOrder>, limit: Option<nat>, taker: OrderId, q: nat)
    requires q > 0 && f != [] && Acceptable(s, limit, f[0].price)
    ensures var t := Min(q, f[0].quantity);
            var m, rest := Match(s, f, limit, taker, q), Match(s, AfterTake(f, t), limit, taker, q - t);
            && m == rest.(fills := [EngineFill(f[0].id, taker, f[0].price, t)] + rest.fills)
            && m.fills[1..] == rest.fills
            && FillQty(m.fills) == t + FillQty(rest.fills)
            && FillCost(m.fills) == t * f[0].price + FillCost(rest.fills)
  {
  }

  lemma MatchIdle(s: Side, f: seq<EngineOrder>, limit: Option<nat>, taker: OrderId, q: nat)
    ensures q == 0 || f == [] || !Acceptable(s, limit, f[0].price)
            <==> Match(s, f, limit, taker, q) == Matched([], f, q)
    ensures q == 0 || f == [] || !Acceptable(s, limit, f[0].price)
            <==> Match(s, f, limit, taker, q).fills == []
  {
  }

  /** Whatever the list looks like, what is not filled remains. */
  lemma {:induction false} MatchAccounts(s: Side, f: seq<EngineOrder>, limit: Option<nat>, taker: OrderId, q: nat)
    ensures var m := Match(s, f, limit, taker, q); FillQty(m.fills) + m.remaining == q
    decreases |f|, q
  {
    if q > 0 && f != [] && Acceptable(s, limit, f[0].price) {
      MatchTurn(s, f, limit, taker, q);
      MatchAccounts(s, AfterTake(f, Min(q, f[0].quantity)), limit, taker, q - Min(q, f[0].quantity));
    }
  }

  /** A taker gets exactly the smaller of its quantity and what rests at prices it accepts. */
  lemma {:induction false} MatchFillsAll(s: Side, f: seq<EngineOrder>, limit: Option<nat>, taker: OrderId, q: nat)
    requires PriceSorted(s, f)
    ensures var m := Match(s, f, limit, taker, q);
            && FillQty(m.fills) == Min(q, Depth(s, f, limit))
            && m.remaining == q - FillQty(m.fills)
            && Total(m.book) == Total(f) - FillQty(m.fills)
    decreases |f|, q
  {
    hide Match, Depth, Total;
    MatchIdle(s, f, limit, taker, q);
    if q == 0 || f == [] || !Acceptable(s, limit, f[0].price) {
      if f != [] {
        HeadIsBest(s, f);
      }
      if q > 0 {
        DepthOfUnacceptable(s, f, limit);
      }
    } else {
      var t := Min(q, f[0].quantity);
      MatchTurn(s, f, limit, taker, q);
      AfterTakeSorted(s, f, t);
      AfterTakeContent(s, f, t);
      MatchFillsAll(s, AfterTake(f, t), limit, taker, q - t);
      DepthAfterTake(s, f, limit, t);
    }
  }

  lemma DepthAfterTake(s: Side, f: seq<EngineOrder>, limit: Option<nat>, t: nat)
    requires f != [] && t <= f[0].quantity && Acceptable(s, limit, f[0].price)
    ensures Depth(s, AfterTake(f, t), limit) == Depth(s, f, limit) - t
  {
    if t < f[0].quantity {
      assert AfterTake(f, t)[1..] == f[1..];
    }
  }

  /** `fills` took a prefix of `f`, in order and at the resting prices: all but the last maker
      whole, the last one possibly reduced. */
  ghost predicate TakesPrefix(s: Side, f: seq<EngineOrder>, limit: Option<nat>, taker: OrderId,
                              fills: seq<EngineFill>) {
    && |fills| <= |f|
    && (forall i :: 0 <= i < |fills| ==>
          && fills[i] == EngineFill(f[i].id, taker, f[i].price, fills[i].quantity)
          && fills[i].quantity <= f[i].quantity
          && Acceptable(s, limit, f[i].price))
    && (forall i :: 0 <= i < |fills| - 1 ==> fills[i].quantity == f[i].quantity)
  }

  /** What is left of `f` once a prefix was taken: everything behind the last maker untouched. */
  ghost function Untaken(f: seq<EngineOrder>, fills: seq<EngineFill>): seq<EngineOrder>
    requires |fills| <= |f|
    requires fills != [] ==> fills[|fills| - 1].quantity <= f[|fills| - 1].quantity
  {
    if fills == [] then f else AfterTake(f[|fills| - 1..], fills[|fills| - 1].quantity)
  }

  /** Matching consumes exactly a prefix of the list. */
  lemma {:induction false} MatchConsumesPrefix(s: Side, f: seq<EngineOrder>, limit: Option<nat>, taker: OrderId, q: nat)
    ensures var m := Match(s, f, limit, taker, q);
            TakesPrefix(s, f, limit, taker, m.fills) && m.book == Untaken(f, m.fills)
    decreases |f|, q
  {
    hide Match;
    MatchIdle(s, f, limit, taker, q);
    if q > 0 && f != [] && Acceptable(s, limit, f[0].price) {
      var t := Min(q, f[0].quantity);
      var fill := EngineFill(f[0].id, taker, f[0].price, t);
      MatchTurn(s, f, limit, taker, q);
      if t == f[0].quantity {
        MatchConsumesPrefix(s, f[1..], limit, taker, q - t);
        PrependFill(s, f, limit, taker, fill, Match(s, f[1..], limit, taker, q - t).fills);
      } else {
        MatchIdle(s, AfterTake(f, t), limit, taker, 0);
        LastFill(s, f, limit, taker, fill);
      }
    }
  }

  lemma LastFill(s: Side, f: seq<EngineOrder>, limit: Option<nat>, taker: OrderId, fill: EngineFill)
    requires f != [] && fill.quantity <= f[0].quantity && Acceptable(s, limit, f[0].price)
    requires fill == EngineFill(f[0].id, taker, f[0].price, fill.quantity)
    ensures TakesPrefix(s, f, limit, taker, [fill] + [])
    ensures Untaken(f, [fill] + []) == AfterTake(f, fill.quantity)
  {
    assert f[0..] == f;
  }

  lemma PrependFill(s: Side, f: seq<EngineOrder>, limit: Option<nat>, taker: OrderId, fill: EngineFill,
                    rest: seq<EngineFill>)
    requires f != [] && fill == EngineFill(f[0].id, taker, f[0].price, f[0].quantity)
             && Acceptable(s, limit, f[0].price)
    requires TakesPrefix(s, f[1..], limit, taker, rest)
    ensures TakesPrefix(s, f, limit, taker, [fill] + rest)
    ensures Untaken(f, [fill] + rest) == Untaken(f[1..], rest)
  {
    var fills := [fill] + rest;
    forall i | 1 <= i < |fills| ensures fills[i] == rest[i - 1] && f[i] == f[1..][i - 1] {}
    if rest != [] {
      assert f[|fills| - 1..] == f[1..][|rest| - 1..];
      assert fills[|fills| - 1] == rest[|rest| - 1];
    } else {
      assert f[0..] == f;
    }
  }

  /** The makers of one run of the loop are pairwise distinct and in strict price-time order. */
  lemma MakersInPriority(s: Side, f: seq<EngineOrder>, limit: Option<nat>, taker: OrderId, q: nat, i: nat, j: nat)
    requires Sorted(s, f)
    requires i < j < |Match(s, f, limit, taker, q).fills|
    ensures var a, b := Match(s, f, limit, taker, q).fills[i], Match(s, f, limit, taker, q).fills[j];
            Better(s, a.price, b.price) || (a.price == b.price && a.makerId < b.makerId)
  {
    MatchConsumesPrefix(s, f, limit, taker, q);
    assert Before(s, f[i], f[j]);
  }

  /** What one run of the loop keeps about the list it walks. */
  lemma MatchKeeps(s: Side, f: seq<EngineOrder>, limit: Option<nat>, taker: OrderId, q: nat)
    ensures var m := Match(s, f, limit, taker, q);
            && (Sorted(s, f) ==> Sorted(s, m.book))
            && (Live(s, f) ==> Live(s, m.book))
            && (DistinctIds(f) ==> DistinctIds(m.book))
            && Ids(m.book) <= Ids(f)
  {
    MatchConsumesPrefix(s, f, limit, taker, q);
    var fills := Match(s, f, limit, taker, q).fills;
    if fills != [] {
      SuffixKeeps(s, f, |fills| - 1);
      AfterTakeSorted(s, f[|fills| - 1..], fills[|fills| - 1].quantity);
      AfterTakeContent(s, f[|fills| - 1..], fills[|fills| - 1].quantity);
    }
  }

  lemma SuffixKeeps(s: Side, f: seq<EngineOrder>, k: nat)
    requires k <= |f|
    ensures Sorted(s, f) ==> Sorted(s, f[k..])
    ensures Live(s, f) ==> Live(s, f[k..])
    ensures DistinctIds(f) ==> DistinctIds(f[k..])
    ensures Ids(f[k..]) <= Ids(f)
  {
    assert forall x :: x in f[k..] ==> x in f;
  }

  /** Whatever the loop leaves keeps its id, price and side. */
  lemma MatchOrigin(s: Side, f: seq<EngineOrder>, limit: Option<nat>, taker: OrderId, q: nat, x: EngineOrder)
      returns (o: EngineOrder)
    requires x in Match(s, f, limit, taker, q).book
    ensures o in f && o.id == x.id && o.price == x.price && o.side == x.side && x.quantity <= o.quantity
  {
    hide Match;
    MatchConsumesPrefix(s, f, limit, taker, q);
    var fills := Match(s, f, limit, taker, q).fills;
    o := x;
    if x !in f {
      var g := f[|fills| - 1..];
      assert f == f[..|fills| - 1] + g;
      assert g == [g[0]] + g[1..];
      o := g[0];
    }
  }

  /** The loop stops with something left only when nothing acceptable rests. */
  lemma {:induction false} MatchExhausts(s: Side, f: seq<EngineOrder>, limit: Option<nat>, taker: OrderId, q: nat)
    requires PriceSorted(s, f)
    requires Match(s, f, limit, taker, q).remaining > 0
    ensures forall x :: x in Match(s, f, limit, taker, q).book ==> !Acceptable(s, limit, x.price)
    decreases |f|, q
  {
    if f == [] {
    } else if !Acceptable(s, limit, f[0].price) {
      HeadIsBest(s, f);
    } else {
      var t := Min(q, f[0].quantity);
      AfterTakeSorted(s, f, t);
      MatchExhausts(s, AfterTake(f, t), limit, taker, q - t);
    }
  }

  // ----- Market orders and their price -----

  lemma {:induction false} LimitIrrelevantIfDeep(s: Side, f: seq<EngineOrder>, price: nat, taker: OrderId, q: nat)
    requires PriceSorted(s, f) && q <= Depth(s, f, Some(price))
    ensures Match(s, f, None, taker, q) == Match(s, f, Some(price), taker, q)
    decreases |f|, q
  {
    if q > 0 && f != [] {
      if !Acceptable(s, Some(price), f[0].price) {
        HeadIsBest(s, f);
        DepthOfUnacceptable(s, f, Some(price));
      }
      var t := Min(q, f[0].quantity);
      AfterTakeSorted(s, f, t);
      DepthAfterTake(s, f, Some(price), t);
      LimitIrrelevantIfDeep(s, AfterTake(f, t), price, taker, q - t);
    }
  }

  lemma {:induction false} LimitIrrelevantIfMet(s: Side, f: seq<EngineOrder>, price: nat, taker: OrderId, q: nat)
    requires forall fill :: fill in Match(s, f, None, taker, q).fills ==> Acceptable(s, Some(price), fill.price)
    ensures Match(s, f, None, taker, q) == Match(s, f, Some(price), taker, q)
    decreases |f|, q
  {
    if q > 0 && f != [] {
      var t := Min(q, f[0].quantity);
      var m := Match(s, f, None, taker, q);
      assert m.fills[0] in m.fills;
      assert forall fill :: fill in m.fills[1..] ==> fill in m.fills;
      LimitIrrelevantIfMet(s, AfterTake(f, t), price, taker, q - t);
    }
  }

  /** The loop never looks at a market order's price. A market order that can be filled keeps to
      its price exactly when the quantity resting within that price covers it. */
  lemma MarketKeepsToPriceIff(s: Side, f: seq<EngineOrder>, price: nat, taker: OrderId, q: nat)
    requires PriceSorted(s, f) && q <= Total(f)
    ensures (forall fill :: fill in Match(s, f, None, taker, q).fills ==> Acceptable(s, Some(price), fill.price))
            <==> q <= Depth(s, f, Some(price))
  {
    if q <= Depth(s, f, Some(price)) {
      LimitIrrelevantIfDeep(s, f, price, taker, q);
      MatchConsumesPrefix(s, f, Some(price), taker, q);
    } else if forall fill :: fill in Match(s, f, None, taker, q).fills ==> Acceptable(s, Some(price), fill.price) {
      LimitIrrelevantIfMet(s, f, price, taker, q);
      MatchFillsAll(s, f, Some(price), taker, q);
      MatchFillsAll(s, f, None, taker, q);
      DepthWithoutLimit(s, f);
    }
  }

  // ----- Best execution -----

  /** Any way to spread a quantity over the resting orders. */
  ghost predicate IsAllocation(f: seq<EngineOrder>, alloc: seq<nat>) {
    |alloc| == |f| && forall i :: 0 <= i < |f| ==> alloc[i] <= f[i].quantity
  }

  ghost function AllocQty(alloc: seq<nat>): nat {
    if alloc == [] then 0 else alloc[0] + AllocQty(alloc[1..])
  }

  ghost function AllocCost(f: seq<EngineOrder>, alloc: seq<nat>): nat
    requires |alloc| == |f|
  {
    if f == [] then 0 else alloc[0] * f[0].price + AllocCost(f[1..], alloc[1..])
  }

  function FillCost(fills: seq<EngineFill>): nat {
    if fills == [] then 0 else fills[0].quantity * fills[0].price + FillCost(fills[1..])
  }

  /** Cost counted so that less is better for the taker on either side. */
  ghost function Loss(s: Side, x: int): int {
    if s.Sell? then x else -x
  }

  lemma {:induction false} AllocAtBestPrice(s: Side, f: seq<EngineOrder>, alloc: seq<nat>, p: nat)
    requires |alloc| == |f|
    requires forall o :: o in f ==> !Better(s, o.price, p)
    ensures Loss(s, AllocCost(f, alloc)) >= Loss(s, AllocQty(alloc) * p)
  {
    if f != [] {
      assert f[0] in f;
      AllocAtBestPrice(s, f[1..], alloc[1..], p);
      var a, rest := alloc[0], AllocQty(alloc[1..]);
      Scale(s, a, f[0].price, p);
      Spread(a, rest, a + rest, 0, p);
    }
  }

  /** The exchange argument: an allocation of at least what the greedy loop fills loses at least
      as much as the greedy fills plus the excess at the best price. */
  lemma {:induction false} GreedyBound(s: Side, f: seq<EngineOrder>, limit: Option<nat>, taker: OrderId, q: nat,
                                       alloc: seq<nat>, p: nat)
    requires PriceSorted(s, f) && IsAllocation(f, alloc)
    requires forall o :: o in f ==> !Better(s, o.price, p)
    requires FillQty(Match(s, f, limit, taker, q).fills) <= AllocQty(alloc)
    ensures var fills := Match(s, f, limit, taker, q).fills;
            Loss(s, AllocCost(f, alloc))
            >= Loss(s, FillCost(fills)) + Loss(s, (AllocQty(alloc) - FillQty(fills)) * p)
  {
    hide Match;
    MatchIdle(s, f, limit, taker, q);
    if Match(s, f, limit, taker, q).fills == [] {
      AllocAtBestPrice(s, f, alloc, p);
    } else {
      var t, p0, a := Min(q, f[0].quantity), f[0].price, alloc[0];
      assert f[0] in f;
      MatchTurn(s, f, limit, taker, q);
      HeadIsBest(s, f);
      assert forall o :: o in f[1..] ==> o in f;
      var rest := Match(s, AfterTake(f, t), limit, taker, q - t);
      var excess: int := AllocQty(alloc) - t - FillQty(rest.fills);
      if t < f[0].quantity {
        MatchIdle(s, AfterTake(f, t), limit, taker, 0);
        AllocAtBestPrice(s, f[1..], alloc[1..], p0);
      } else {
        GreedyBound(s, f[1..], limit, taker, q - t, alloc[1..], p0);
      }
      Spread(a, AllocQty(alloc[1..]) - FillQty(rest.fills), t, excess, p0);
      Scale(s, excess, p0, p);
    }
  }

  lemma Scale(s: Side, n: nat, p0: nat, p: nat)
    requires !Better(s, p0, p)
    ensures Loss(s, n * p0) >= Loss(s, n * p)
  {
    if s.Sell? {
      assert n * (p0 - p) >= 0;
    } else {
      assert n * (p - p0) >= 0;
    }
  }

  lemma EmptyCosts(alloc: seq<nat>)
    requires alloc == []
    ensures FillCost([]) == 0 && AllocCost([], alloc) == 0
  {
  }

  lemma Spread(a: int, b: int, t: int, x: int, p: int)
    requires a + b == t + x
    ensures a * p + b * p == t * p + x * p
  {
    assert (a + b) * p == (t + x) * p;
  }

  /** Best execution: no allocation of the same quantity over the orders resting at the start is
      cheaper for a buyer, and none earns a seller more. */
  lemma GreedyIsOptimal(s: Side, f: seq<EngineOrder>, limit: Option<nat>, taker: OrderId, q: nat, alloc: seq<nat>)
    requires PriceSorted(s, f) && IsAllocation(f, alloc)
    requires AllocQty(alloc) == FillQty(Match(s, f, limit, taker, q).fills)
    ensures s.Sell? ==> FillCost(Match(s, f, limit, taker, q).fills) <= AllocCost(f, alloc)
    ensures s.Buy? ==> FillCost(Match(s, f, limit, taker, q).fills) >= AllocCost(f, alloc)
  {
    hide Match, FillCost, FillQty, AllocCost, AllocQty;
    if f == [] {
      MatchIdle(s, f, limit, taker, q);
      EmptyCosts(alloc);
    } else {
      HeadIsBest(s, f);
      GreedyBound(s, f, limit, taker, q, alloc, f[0].price);
    }
  }
}
