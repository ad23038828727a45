/** What every gateway operation keeps: the maps, the tables and the book agree, and collateral
    covers the book. */
module GatewayInvariants {
  import opened Types
  import opened Arithmetic
  import opened PriorityBook
  import opened MatchingEngines
  import opened EngineRuns
  import opened Ledgers
  import opened Persistence
  import opened Gateways
  import opened Solvency

  // ----- Agreement of book, maps and tables -----

  /** A resting order is in the order map, the cancel map and the orders table, all telling the
      same; the table and the cancel map remember the quantity it came to rest with. */
  ghost predicate Entered(g: Gateway, cfg: Config, s: Side, o: EngineOrder) {
    && o.id in g.orderMap && o.id in g.orderNonceMap && o.id in g.db.orders
    && var signed, row := g.orderMap[o.id], g.db.orders[o.id];
    && signed.side == s && signed.price == o.price
    && row.order == signed && row.status.Resting? && o.quantity <= row.restingQuantity
    && g.orderNonceMap[o.id]
        == NonceEntry(signed.maker, signed.nonce, cfg.Locks(s), Collateral(s, row.restingQuantity, o.price))
  }

  ghost predicate AllEntered(g: Gateway, cfg: Config) {
    forall s, o :: o in g.engine.On(s) ==> Entered(g, cfg, s, o)
  }

  ghost predicate Consistent(g: Gateway, cfg: Config) {
    && Sound(g.engine)
    && AllEntered(g, cfg)
    && RestingIds(g.db.orders) == g.engine.AllIds()
    && (forall id :: id in g.db.orders ==> id < g.engine.nextId)
    && Mirrored(g.ledger, g.db)
  }

  lemma ConsistentKnowsMakers(g: Gateway, cfg: Config)
    requires Consistent(g, cfg)
    ensures MakersKnown(g.engine, g.orderMap) && IdsBelowNext(g.engine)
    ensures forall s :: OwnersKnown(s, g.engine.On(s), g.orderMap)
  {
    forall id | id in g.engine.AllIds() ensures id in g.orderMap {
      var s := if id in Ids(g.engine.bids) then Buy else Sell;
      var o :| o in g.engine.On(s) && o.id == id;
      assert Entered(g, cfg, s, o);
    }
    forall s, o | o in g.engine.On(s) ensures o.id in g.orderMap && g.orderMap[o.id].side == s {
      assert Entered(g, cfg, s, o);
    }
  }

  /** Entries are created and never dropped. */
  ghost predicate Grows(b: Balances, c: Balances) {
    forall u, t :: HasEntry(b, u, t) ==> HasEntry(c, u, t)
  }

  lemma {:induction false} FillsGrow(b: Balances, cfg: Config, order: SignedOrder, orderMap: map<OrderId, SignedOrder>,
                                     fills: seq<EngineFill>)
    requires MakersOnRecord(orderMap, fills)
    ensures Grows(b, FillsApplied(b, cfg, order, orderMap, fills))
    decreases |fills|
  {
    hide WithBalance, Quote, Surplus;
    if fills != [] {
      TailOnRecord(orderMap, fills);
      FillsGrow(FillApplied(b, cfg, order, orderMap[fills[0].makerId].maker, fills[0]), cfg, order, orderMap,
                fills[1..]);
    }
  }

  lemma MirroredAfterWrite(b: Balances, db: Tables, c: Balances)
    requires Mirrored(b, db) && Grows(b, c)
    ensures Mirrored(c, db.(balances := db.balances + RowsOf(c)))
  {
    forall u, t ensures BalanceRow(db.(balances := db.balances + RowsOf(c)), u, t) == BalanceOf(c, u, t) {
      assert (u, t) in RowsOf(c) <==> HasEntry(c, u, t);
      assert BalanceRow(db, u, t) == BalanceOf(b, u, t);
      assert HasEntry(b, u, t) ==> HasEntry(c, u, t);
    }
  }

  // ----- Submitting: which orders leave the book -----

  /** An order that the loop takes off the book is the maker of one of its fills. */
  lemma {:induction false} GoneWereFilled(s: Side, f: seq<EngineOrder>, limit: Option<nat>, taker: OrderId, q: nat,
                                          id: OrderId)
    requires id in Ids(f) && id !in Ids(Match(s, f, limit, taker, q).book)
    ensures exists fill :: fill in Match(s, f, limit, taker, q).fills && fill.makerId == id
    decreases |f|, q
  {
    hide Match;
    MatchIdle(s, f, limit, taker, q);
    if q > 0 && f != [] && Acceptable(s, limit, f[0].price) {
      var t := Min(q, f[0].quantity);
      MatchTurn(s, f, limit, taker, q);
      var fills := Match(s, f, limit, taker, q).fills;
      assert fills[0] in fills && fills[0].makerId == f[0].id;
      if id != f[0].id {
        assert f == [f[0]] + f[1..];
        var o :| o in f && o.id == id;
        assert o in AfterTake(f, t);
        GoneWereFilled(s, AfterTake(f, t), limit, taker, q - t, id);
        var rest := Match(s, AfterTake(f, t), limit, taker, q - t).fills;
        var fill :| fill in rest && fill.makerId == id;
        assert fill in fills;
      }
    }
  }

  lemma {:induction false} FilledMakersIs(fills: seq<EngineFill>, e: EngineState)
    ensures forall id :: id in FilledMakers(fills, e)
              <==> id !in e.AllIds() && exists fill :: fill in fills && fill.makerId == id
  {
    if fills != [] {
      FilledMakersIs(fills[1..], e);
      assert fills == [fills[0]] + fills[1..];
      assert forall fill :: fill in fills <==> fill == fills[0] || fill in fills[1..];
    }
  }

  /** After a submission, the rows marked filled are exactly those whose orders left the book. */
  lemma FilledExactlyGone(e: EngineState, side: Side, price: nat, quantity: nat, orderType: OrderType, id: OrderId)
    requires Sound(e) && id in e.AllIds()
    ensures var (e', r) := AfterSubmit(e, side, price, quantity, orderType);
            id in FilledMakers(r.fills, e') <==> id !in e'.AllIds()
  {
    hide Match, Insert, Total, Sound;
    var (e', r) := AfterSubmit(e, side, price, quantity, orderType);
    FilledMakersIs(r.fills, e');
    if id !in e'.AllIds() {
      var opp := side.Opposite();
      if !Rejects(e, side, quantity, orderType) {
        var m := Match(opp, e.On(opp), LimitOf(orderType, price), e.nextId, quantity);
        InsertContent(side, e.On(side), EngineOrder(e.nextId, side, price, m.remaining));
        GoneWereFilled(opp, e.On(opp), LimitOf(orderType, price), e.nextId, quantity, id);
      }
    }
  }

  /** Orders that stay keep their place in the maps; only quantities shrink. */
  lemma StaysFrom(e: EngineState, side: Side, price: nat, quantity: nat, orderType: OrderType, s: Side, x: EngineOrder)
    returns (o: EngineOrder)
    requires var (e', r) := AfterSubmit(e, side, price, quantity, orderType);
             x in e'.On(s) && !(r.resting && s == side && x == EngineOrder(e.nextId, side, price, r.restingQty))
    ensures o in e.On(s) && o.id == x.id && o.price == x.price && x.quantity <= o.quantity
  {
    o := x;
    if !Rejects(e, side, quantity, orderType) {
      var opp := side.Opposite();
      var m := Match(opp, e.On(opp), LimitOf(orderType, price), e.nextId, quantity);
      if s == opp {
        o := MatchOrigin(opp, e.On(opp), LimitOf(orderType, price), e.nextId, quantity, x);
      } else {
        InsertContent(side, e.On(side), EngineOrder(e.nextId, side, price, m.remaining));
      }
    }
  }

  // ----- Every operation keeps the tables, the maps and the book in agreement -----

  lemma RestEntered(g: Gateway, cfg: Config, order: SignedOrder, orderType: OrderType, ledger: Balances,
                    trades: seq<Trade>, now: nat, s: Side, x: EngineOrder)
    requires Consistent(g, cfg)
    requires x in AfterSubmit(g.engine, order.side, order.price, order.quantity, orderType).0.On(s)
    ensures var (e, r) := AfterSubmit(g.engine, order.side, order.price, order.quantity, orderType);
            Entered(Recorded(g, cfg, order, g.engine.nextId, e, r, ledger, trades, now), cfg, s, x)
  {
    hide AfterSubmit, Sound, Collateral;
    var (e, r) := AfterSubmit(g.engine, order.side, order.price, order.quantity, orderType);
    if !(r.resting && s == order.side && x == EngineOrder(g.engine.nextId, order.side, order.price, r.restingQty)) {
      var o := StaysFrom(g.engine, order.side, order.price, order.quantity, orderType, s, x);
      assert Entered(g, cfg, s, o);
      assert x.id in e.AllIds() && x.id < g.engine.nextId;
      FilledMakersIs(r.fills, e);
    }
  }

  lemma MarkedRestingIds(orders: map<OrderId, OrderRow>, ids: seq<OrderId>, status: OrderStatus)
    requires !status.Resting?
    ensures RestingIds(OrdersMarked(orders, ids, status)) == RestingIds(orders) - set id | id in ids
  {
  }

  /** The rows with status resting are again the orders on the book. */
  lemma RowsAfterSubmit(orders: map<OrderId, OrderRow>, e0: EngineState, order: SignedOrder, orderType: OrderType)
    requires Sound(e0) && RestingIds(orders) == e0.AllIds() && forall id :: id in orders ==> id < e0.nextId
    requires orderType.Limit? || AfterSubmit(e0, order.side, order.price, order.quantity, orderType).1.fills != []
    ensures var (e, r) := AfterSubmit(e0, order.side, order.price, order.quantity, orderType);
            var marked := OrdersMarked(orders, FilledMakers(r.fills, e), Filled);
            var after := if r.resting then marked[e0.nextId := OrderRow(order, r.restingQty, Resting)] else marked;
            && RestingIds(after) == e.AllIds()
            && forall id :: id in after ==> id < e.nextId
  {
    hide AfterSubmit, FilledMakers, OrdersMarked, RestingIds, EngineState.AllIds, Sound, Rejects;
    var (e, r) := AfterSubmit(e0, order.side, order.price, order.quantity, orderType);
    var filled := FilledMakers(r.fills, e);
    assert IdsBelowNext(e0) by { SoundIds(e0); }
    SubmitAddsOwnId(e0, order.side, order.price, order.quantity, orderType);
    RestsUnderOwnId(e0, order.side, order.price, order.quantity, orderType);
    MarkedRestingIds(orders, filled, Filled);
    MarkedKeys(orders, filled, Filled);
    forall id | id in e0.AllIds() ensures id in filled <==> id !in e.AllIds() {
      FilledExactlyGone(e0, order.side, order.price, order.quantity, orderType, id);
    }
    RowAdded(OrdersMarked(orders, filled, Filled), e0.nextId, OrderRow(order, r.restingQty, Resting));
  }

  lemma SoundIds(e: EngineState)
    requires Sound(e)
    ensures IdsBelowNext(e)
  {
  }

  lemma RowAdded(orders: map<OrderId, OrderRow>, id: OrderId, row: OrderRow)
    requires row.status.Resting?
    ensures RestingIds(orders[id := row]) == RestingIds(orders) + {id}
  {
  }

  lemma MarkedKeys(orders: map<OrderId, OrderRow>, ids: seq<OrderId>, status: OrderStatus)
    ensures OrdersMarked(orders, ids, status).Keys == orders.Keys
  {
  }

  lemma RestsUnderOwnId(e: EngineState, side: Side, price: nat, quantity: nat, orderType: OrderType)
    ensures var (e', r) := AfterSubmit(e, side, price, quantity, orderType); r.resting ==> e.nextId in e'.AllIds()
  {
    hide Match, Insert, Total;
    var opp := side.Opposite();
    var m := Match(opp, e.On(opp), LimitOf(orderType, price), e.nextId, quantity);
    InsertContent(side, e.On(side), EngineOrder(e.nextId, side, price, m.remaining));
  }

  /** A market order that gets no fill leaves the book as it was. */
  lemma NoFillNoChange(e: EngineState, side: Side, price: nat, quantity: nat)
    requires AfterSubmit(e, side, price, quantity, Market).1.fills == []
    ensures var e' := AfterSubmit(e, side, price, quantity, Market).0;
            e'.bids == e.bids && e'.asks == e.asks && e.nextId <= e'.nextId
  {
    var opp := side.Opposite();
    MatchConsumesPrefix(opp, e.On(opp), None, e.nextId, quantity);
  }

  lemma AcceptedIsConsistent(g: Gateway, cfg: Config, order: SignedOrder, orderType: OrderType, ledger: Balances,
                             trades: seq<Trade>, now: nat)
    requires Consistent(g, cfg) && Grows(g.ledger, ledger)
    requires orderType.Limit? || AfterSubmit(g.engine, order.side, order.price, order.quantity, orderType).1.fills != []
    ensures var (e, r) := AfterSubmit(g.engine, order.side, order.price, order.quantity, orderType);
            Consistent(Recorded(g, cfg, order, g.engine.nextId, e, r, ledger, trades, now), cfg)
  {
    hide AfterSubmit, Sound, Entered, Mirrored, RestingIds, OrdersMarked, RowsOf, FilledMakers, EngineState.AllIds;
    var (e, r) := AfterSubmit(g.engine, order.side, order.price, order.quantity, orderType);
    SubmitKeepsSound(g.engine, order.side, order.price, order.quantity, orderType);
    RowsAfterSubmit(g.db.orders, g.engine, order, orderType);
    MirroredAfterWrite(g.ledger, g.db, ledger);
    var g' := Recorded(g, cfg, order, g.engine.nextId, e, r, ledger, trades, now);
    assert Mirrored(ledger, g'.db)
        by { MirroredSameRows(ledger, g.db.(balances := g.db.balances + RowsOf(ledger)), g'.db); }
    forall s, x | x in e.On(s) ensures Entered(g', cfg, s, x) {
      RestEntered(g, cfg, order, orderType, ledger, trades, now, s, x);
    }
  }

  /** Every submission, accepted or refused, keeps book, maps, tables and ledger in agreement. */
  lemma SubmitKeepsConsistent(g: Gateway, cfg: Config, order: SignedOrder, orderType: OrderType, now: nat)
    requires Consistent(g, cfg)
    ensures MakersKnown(g.engine, g.orderMap) && Consistent(OrderSubmitted(g, cfg, order, orderType, now).0, cfg)
  {
    hide AfterSubmit, Sound, Recorded, Entered, FillsApplied, TradesOf, WithBalance, Collateral, Refusal;
    ConsistentKnowsMakers(g, cfg);
    var token, required := OwnCollateralToken(order), Collateral(order.side, order.quantity, order.price);
    if Refusal(g.acceptedNonces, order, orderType, now).None? {
      var reserved := AfterReserve(g.ledger, order.maker, token, required);
      var (e, r) := AfterSubmit(g.engine, order.side, order.price, order.quantity, orderType);
      if CanReserve(g.ledger, order.maker, token, required) {
        if orderType.Market? && r.fills == [] {
          NoFillNoChange(g.engine, order.side, order.price, order.quantity);
          SubmitKeepsSound(g.engine, order.side, order.price, order.quantity, orderType);
          ReserveThenRelease(g.ledger, order.maker, token, required);
          SameEntered(g, cfg, OrderSubmitted(g, cfg, order, orderType, now).0);
        } else {
          FillsFromBook(g.engine, order.side, order.price, order.quantity, orderType, g.orderMap);
          FillsGrow(reserved, cfg, order, g.orderMap, r.fills);
          AcceptedIsConsistent(g, cfg, order, orderType, FillsApplied(reserved, cfg, order, g.orderMap, r.fills),
                               TradesOf(order, g.orderMap, r.fills, now), now);
        }
      } else {
        SameEntered(g, cfg, OrderSubmitted(g, cfg, order, orderType, now).0);
      }
    }
  }

  /** Entries only depend on the maps and the orders table. */
  lemma SameEntered(g: Gateway, cfg: Config, h: Gateway)
    requires AllEntered(g, cfg)
    requires h.engine.bids == g.engine.bids && h.engine.asks == g.engine.asks
    requires h.orderMap == g.orderMap && h.orderNonceMap == g.orderNonceMap && h.db.orders == g.db.orders
    ensures AllEntered(h, cfg)
  {
    forall s, o | o in h.engine.On(s) ensures Entered(h, cfg, s, o) {
      assert o in g.engine.On(s);
      assert Entered(g, cfg, s, o);
    }
  }

  lemma CancelKeepsConsistent(g: Gateway, cfg: Config, nonce: nat, signer: Option<Address>, found: Option<OrderId>)
    requires Consistent(g, cfg) && (signer.Some? ==> MayFind(g.orderNonceMap, nonce, found))
    ensures Consistent(CancelRequested(g, nonce, signer, found).0, cfg)
  {
    var (g', r) := CancelRequested(g, nonce, signer, found);
    if r.CancelAccepted? {
      CancelledIsConsistent(g, cfg, nonce, found.value);
    }
  }

  lemma CancelledIsConsistent(g: Gateway, cfg: Config, nonce: nat, id: OrderId)
    requires Consistent(g, cfg) && id in g.orderNonceMap && g.orderNonceMap[id].nonce == nonce
             && id in g.engine.AllIds()
    ensures Consistent(CancelRequested(g, nonce, Some(g.orderNonceMap[id].maker), Some(id)).0, cfg)
  {
    hide Sound, Remove, WithBalance, RestingIds, OrdersMarked, RowsOf, EngineState.AllIds, Mirrored;
    var g' := CancelRequested(g, nonce, Some(g.orderNonceMap[id].maker), Some(id)).0;
    CancelKeepsSound(g.engine, id);
    SoundDistinct(g.engine);
    CancelRemovesIds(g.engine, id);
    MarkedRestingIds(g.db.orders, [id], OrderStatus.Cancelled);
    assert (set x | x in [id]) == {id};
    MarkedKeys(g.db.orders, [id], OrderStatus.Cancelled);
    MirroredAfterWrite(g.ledger, g.db, g'.ledger);
    MirroredSameRows(g'.ledger, g.db.(balances := g.db.balances + RowsOf(g'.ledger)), g'.db);
    forall s, x | x in g'.engine.On(s) ensures Entered(g', cfg, s, x) {
      StaysAfterCancel(g.engine, id, s, x);
      assert Entered(g, cfg, s, x);
      RowUnmarked(g.db.orders, id, x.id);
    }
  }

  lemma SoundDistinct(e: EngineState)
    requires Sound(e)
    ensures DistinctIds(e.bids) && DistinctIds(e.asks)
  {
  }

  lemma StaysAfterCancel(e: EngineState, id: OrderId, s: Side, x: EngineOrder)
    requires Sound(e) && x in AfterCancel(e, id).On(s)
    ensures x in e.On(s) && x.id != id
  {
    RemoveKeeps(s, e.On(s), id);
    RemoveIds(e.On(s), id);
    assert x.id in Ids(Remove(e.On(s), id));
  }

  lemma RowUnmarked(orders: map<OrderId, OrderRow>, id: OrderId, other: OrderId)
    requires other in orders && other != id
    ensures other in OrdersMarked(orders, [id], OrderStatus.Cancelled)
    ensures OrdersMarked(orders, [id], OrderStatus.Cancelled)[other] == orders[other]
  {
  }

  lemma CreditKeepsConsistent(g: Gateway, cfg: Config, user: Address, token: Address, amount: nat)
    requires Consistent(g, cfg)
    ensures Consistent(DepositCredited(g, user, token, amount), cfg)
  {
    hide Sound, Entered, WithBalance;
    SameEntered(g, cfg, DepositCredited(g, user, token, amount));
    var c := Credited(g.ledger, user, token, amount);
    forall u, t ensures BalanceRow(DepositCredited(g, user, token, amount).db, u, t) == BalanceOf(c, u, t) {
      assert BalanceRow(g.db, u, t) == BalanceOf(g.ledger, u, t);
    }
  }
}
