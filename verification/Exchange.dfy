/** The settlement contract: balances, one-shot nonces, and batches that apply completely or not at
    all. */
module Exchanges {
  import opened Types
  import opened Arithmetic
  import opened Ledgers
  import opened TradeLog

  type NonceKey = (Address, nat)

  datatype Chain = Chain(balances: map<(Address, Address), nat>, usedNonces: set<NonceKey>)

  datatype Revert =
    | Unauthorized | InsufficientBalance | InvalidSignature | NonceAlreadyUsed | OrderExpired
    | PriceOutOfRange | ArithmeticOverflow

  datatype SettleResult = Settled(chain: Chain) | Reverted(error: Revert)

  type Held = map<(Address, Address), nat>

  /** A mapping that was never written reads as zero. */
  function HeldBy(h: Held, u: Address, t: Address): nat {
    if (u, t) in h then h[(u, t)] else 0
  }

  function ChainBalance(c: Chain, u: Address, t: Address): nat {
    HeldBy(c.balances, u, t)
  }

  function WithHeld(h: Held, u: Address, t: Address, amount: nat): (r: Held)
    ensures forall u', t' {:trigger HeldBy(r, u', t')} ::
              HeldBy(r, u', t') == if u' == u && t' == t then amount else HeldBy(h, u', t')
  {
    h[(u, t) := amount]
  }

  function KeysOf(trade: Trade): set<NonceKey> {
    {trade.makerOrder.NonceKey(), trade.takerOrder.NonceKey()}
  }

  predicate Signed(order: SignedOrder) {
    order.signature == Some(order.maker)
  }

  predicate PriceInRange(order: SignedOrder, price: nat) {
    if order.side.Sell? then order.price <= price else price <= order.price
  }

  /** The first check that fails, in the order the contract makes them. */
  function FailedCheck(c: Chain, trade: Trade, now: nat): Option<Revert> {
    var maker, taker := trade.makerOrder, trade.takerOrder;
    if !Signed(maker) || !Signed(taker) then Some(InvalidSignature)
    else if now > maker.expiry || now > taker.expiry then Some(OrderExpired)
    else if maker.NonceKey() in c.usedNonces || taker.NonceKey() in c.usedNonces then Some(NonceAlreadyUsed)
    else if !PriceInRange(maker, trade.price) || !PriceInRange(taker, trade.price) then Some(PriceOutOfRange)
    else if !Fits(trade.quantity, trade.price) then Some(ArithmeticOverflow)
    else if ChainBalance(c, TradeSeller(trade), maker.baseToken) < trade.quantity then Some(InsufficientBalance)
    else if ChainBalance(c, TradeBuyer(trade), maker.quoteToken) < QuoteAmount(trade) then Some(InsufficientBalance)
    else None
  }

  /** The four balance updates of a settled trade, one after the other. */
  function Transferred(h: Held, seller: Address, buyer: Address, base: Address, quote: Address, quantity: nat,
                       amount: nat): Held
    requires quantity <= HeldBy(h, seller, base) && amount <= HeldBy(h, buyer, quote)
  {
    var h1 := WithHeld(h, seller, base, HeldBy(h, seller, base) - quantity);
    var h2 := WithHeld(h1, seller, quote, HeldBy(h1, seller, quote) + amount);
    var h3 := WithHeld(h2, buyer, quote, HeldBy(h2, buyer, quote) - amount);
    WithHeld(h3, buyer, base, HeldBy(h3, buyer, base) + quantity)
  }

  function SettledTrade(c: Chain, trade: Trade, now: nat): SettleResult {
    var failed := FailedCheck(c, trade, now);
    if failed.Some? then Reverted(failed.value) else
    Settled(Chain(Transferred(c.balances, TradeSeller(trade), TradeBuyer(trade), trade.makerOrder.baseToken,
                              trade.makerOrder.quoteToken, trade.quantity, QuoteAmount(trade)),
                  c.usedNonces + KeysOf(trade)))
  }

  function SettledBatch(c: Chain, trades: seq<Trade>, now: nat): SettleResult
    decreases |trades|
  {
    if trades == [] then Settled(c) else
      var first := SettledTrade(c, trades[0], now);
      if first.Reverted? then first else SettledBatch(first.chain, trades[1..], now)
  }

  // ----- The contract -----

  class Exchange {
    const operator: Address
    var balances: map<(Address, Address), nat>
    var usedNonces: set<NonceKey>

    function State(): Chain
      reads this
    {
      Chain(balances, usedNonces)
    }

    constructor (operator: Address)
      ensures State() == Chain(map[], {}) && this.operator == operator
    {
      this.operator := operator;
      balances, usedNonces := map[], {};
    }

    method Deposit(sender: Address, token: Address, amount: nat)
      modifies this
      ensures State() == Deposited(old(State()), sender, token, amount)
    {
      balances := WithHeld(balances, sender, token, HeldBy(balances, sender, token) + amount);
    }

    method CancelNonce(maker: Address, nonce: nat)
      modifies this
      ensures State() == old(State()).(usedNonces := old(usedNonces) + {(maker, nonce)})
    {
      usedNonces := usedNonces + {(maker, nonce)};
    }

    /** All trades in order, or none: on a failed check the whole call is undone. */
    method SettleBatch(sender: Address, trades: seq<Trade>, now: nat) returns (error: Option<Revert>)
      modifies this
      ensures if sender != operator then error == Some(Unauthorized) && State() == old(State())
              else match SettledBatch(old(State()), trades, now)
                   case Settled(c) => error == None && State() == c
                   case Reverted(e) => error == Some(e) && State() == old(State())
    {
      hide SettledTrade;
      if sender != operator {
        return Some(Unauthorized);
      }
      var before := State();
      assert trades[0..] == trades;
      for i := 0 to |trades|
        invariant SettledBatch(before, trades, now) == SettledBatch(State(), trades[i..], now)
      {
        assert trades[i..][1..] == trades[i + 1..];
        error := SettleTrade(trades[i], now);
        if error.Some? {
          balances, usedNonces := before.balances, before.usedNonces;
          return;
        }
      }
      error := None;
    }

    method SettleTrade(trade: Trade, now: nat) returns (error: Option<Revert>)
      modifies this
      ensures match SettledTrade(old(State()), trade, now)
              case Settled(c) => error == None && State() == c
              case Reverted(e) => error == Some(e)
    {
      hide Quote, HeldBy, Transferred, Fits;
      var maker, taker := trade.makerOrder, trade.takerOrder;
      if !Signed(maker) { return Some(InvalidSignature); }
      if !Signed(taker) { return Some(InvalidSignature); }
      if now > maker.expiry { return Some(OrderExpired); }
      if now > taker.expiry { return Some(OrderExpired); }
      if maker.NonceKey() in usedNonces { return Some(NonceAlreadyUsed); }
      if taker.NonceKey() in usedNonces { return Some(NonceAlreadyUsed); }
      usedNonces := usedNonces + KeysOf(trade);
      if !PriceInRange(maker, trade.price) { return Some(PriceOutOfRange); }
      if !PriceInRange(taker, trade.price) { return Some(PriceOutOfRange); }
      if !Fits(trade.quantity, trade.price) { return Some(ArithmeticOverflow); }
      var ok := Transfer(TradeSeller(trade), TradeBuyer(trade), maker.baseToken, maker.quoteToken, trade.quantity,
                         QuoteAmount(trade));
      error := if ok then None else Some(InsufficientBalance);
    }

    method Transfer(seller: Address, buyer: Address, base: Address, quote: Address, quantity: nat, amount: nat)
      returns (ok: bool)
      modifies this`balances
      ensures ok <==> quantity <= HeldBy(old(balances), seller, base) && amount <= HeldBy(old(balances), buyer, quote)
      ensures ok ==> balances == Transferred(old(balances), seller, buyer, base, quote, quantity, amount)
    {
      hide HeldBy, WithHeld;
      if HeldBy(balances, seller, base) < quantity { return false; }
      if HeldBy(balances, buyer, quote) < amount { return false; }
      balances := WithHeld(balances, seller, base, HeldBy(balances, seller, base) - quantity);
      balances := WithHeld(balances, seller, quote, HeldBy(balances, seller, quote) + amount);
      balances := WithHeld(balances, buyer, quote, HeldBy(balances, buyer, quote) - amount);
      balances := WithHeld(balances, buyer, base, HeldBy(balances, buyer, base) + quantity);
      ok := true;
    }
  }

  // ----- What a settled trade does -----

  lemma TransferEffect(h: Held, seller: Address, buyer: Address, base: Address, quote: Address,
                       quantity: nat, amount: nat, u: Address, t: Address)
    requires quantity <= HeldBy(h, seller, base) && amount <= HeldBy(h, buyer, quote)
    ensures HeldBy(Transferred(h, seller, buyer, base, quote, quantity, amount), u, t)
            == HeldBy(h, u, t) + TradeDelta(seller, buyer, base, quote, quantity, amount, u, t)
  {
    hide WithHeld, HeldBy;
  }

  lemma SettledEffect(c: Chain, trade: Trade, now: nat, u: Address, t: Address)
    requires SettledTrade(c, trade, now).Settled?
    ensures ChainBalance(SettledTrade(c, trade, now).chain, u, t)
            == ChainBalance(c, u, t) + Delta(trade.makerOrder.baseToken, trade.makerOrder.quoteToken, trade, u, t)
  {
    TransferEffect(c.balances, TradeSeller(trade), TradeBuyer(trade), trade.makerOrder.baseToken,
                   trade.makerOrder.quoteToken, trade.quantity, QuoteAmount(trade), u, t);
  }

  /** Every maker's order names these two tokens. */
  ghost predicate OnTokens(base: Address, quote: Address, trades: seq<Trade>) {
    forall trade :: trade in trades ==> trade.makerOrder.baseToken == base && trade.makerOrder.quoteToken == quote
  }

  /** A settled batch moves every balance by the net of its trades. */
  lemma {:induction false} BatchEffect(c: Chain, trades: seq<Trade>, now: nat, base: Address, quote: Address)
    requires SettledBatch(c, trades, now).Settled? && OnTokens(base, quote, trades)
    ensures forall u, t :: ChainBalance(SettledBatch(c, trades, now).chain, u, t)
                           == ChainBalance(c, u, t) + Net(base, quote, trades, u, t)
    decreases |trades|
  {
    hide ChainBalance, SettledTrade, Delta;
    if trades != [] {
      var next := SettledTrade(c, trades[0], now).chain;
      assert trades[0] in trades && forall trade :: trade in trades[1..] ==> trade in trades;
      BatchEffect(next, trades[1..], now, base, quote);
      forall u, t ensures ChainBalance(SettledBatch(c, trades, now).chain, u, t)
          == ChainBalance(c, u, t) + Net(base, quote, trades, u, t) {
        SettledEffect(c, trades[0], now, u, t);
      }
    }
  }

  /** No batch creates or destroys tokens: over any users that include the parties of its trades, the
      balances in every token add up to the same. Self-trades and equal tokens are no exception. */
  lemma {:induction false} BatchConservesTokens(c: Chain, trades: seq<Trade>, now: nat, users: set<Address>, t: Address)
    requires SettledBatch(c, trades, now).Settled?
    requires forall trade :: trade in trades ==> TradeSeller(trade) in users && TradeBuyer(trade) in users
    ensures SumOver(users, u => ChainBalance(SettledBatch(c, trades, now).chain, u, t))
            == SumOver(users, u => ChainBalance(c, u, t))
    decreases |trades|
  {
    hide ChainBalance, SettledTrade, TradeDelta;
    if trades == [] {
      SameSum(users, u => ChainBalance(SettledBatch(c, trades, now).chain, u, t), u => ChainBalance(c, u, t));
    } else {
      var trade, next := trades[0], SettledTrade(c, trades[0], now).chain;
      assert trade in trades && forall x :: x in trades[1..] ==> x in trades;
      BatchConservesTokens(next, trades[1..], now, users, t);
      var base, quote, amount := trade.makerOrder.baseToken, trade.makerOrder.quoteToken, QuoteAmount(trade);
      var delta := (u: Address) => Delta(base, quote, trade, u, t);
      forall u ensures ChainBalance(next, u, t) == ChainBalance(c, u, t) + delta(u) {
        SettledEffect(c, trade, now, u, t);
      }
      TradeDeltaSumsToZero(users, TradeSeller(trade), TradeBuyer(trade), base, quote, trade.quantity, amount, t);
      SameSum(users, delta, u => TradeDelta(TradeSeller(trade), TradeBuyer(trade), base, quote, trade.quantity, amount,
                                            u, t));
      SumAdds(users, u => ChainBalance(c, u, t), delta, u => ChainBalance(next, u, t));
      SameSum(users, u => ChainBalance(SettledBatch(c, trades, now).chain, u, t),
              u => ChainBalance(SettledBatch(next, trades[1..], now).chain, u, t));
    }
  }

  // ----- Exactly when a trade settles -----

  /** Signed by its maker and not expired. */
  predicate Honoured(order: SignedOrder, now: nat) {
    order.signature == Some(order.maker) && now <= order.expiry
  }

  /** The price is one that the order accepts: at least its own for a sell, at most for a buy. */
  predicate KeepsLimit(order: SignedOrder, price: nat) {
    (order.side == Sell ==> order.price <= price) && (order.side == Buy ==> price <= order.price)
  }

  /** Who gives the base tokens: the maker when it sells, the taker when the maker buys. */
  function GivesBase(trade: Trade): Address {
    if trade.makerOrder.side == Sell then trade.makerOrder.maker else trade.takerOrder.maker
  }

  function GivesQuote(trade: Trade): Address {
    if trade.makerOrder.side == Sell then trade.takerOrder.maker else trade.makerOrder.maker
  }

  function Holds(c: Chain, user: Address, token: Address): nat {
    if (user, token) in c.balances then c.balances[(user, token)] else 0
  }

  /** A trade settles if and only if both orders are signed and not expired, neither nonce was used, the
      price keeps both limits, the product fits a word, and both sides hold what they give. */
  lemma SettledTradeIff(c: Chain, trade: Trade, now: nat)
    ensures var maker, taker := trade.makerOrder, trade.takerOrder;
            SettledTrade(c, trade, now).Settled?
            <==> && Honoured(maker, now) && Honoured(taker, now)
                 && (maker.maker, maker.nonce) !in c.usedNonces && (taker.maker, taker.nonce) !in c.usedNonces
                 && KeepsLimit(maker, trade.price) && KeepsLimit(taker, trade.price)
                 && trade.quantity * trade.price < TWO_256
                 && trade.quantity <= Holds(c, GivesBase(trade), maker.baseToken)
                 && trade.quantity * trade.price / 1_000_000_000_000_000_000
                     <= Holds(c, GivesQuote(trade), maker.quoteToken)
  {
    hide Transferred;
  }

  /** A reverted trade names the first check that failed. */
  lemma RevertedFor(c: Chain, trade: Trade, now: nat)
    ensures var maker, taker, r := trade.makerOrder, trade.takerOrder, SettledTrade(c, trade, now);
            var signed := maker.signature == Some(maker.maker) && taker.signature == Some(taker.maker);
            var timely := now <= maker.expiry && now <= taker.expiry;
            var unused := (maker.maker, maker.nonce) !in c.usedNonces && (taker.maker, taker.nonce) !in c.usedNonces;
            var inRange := KeepsLimit(maker, trade.price) && KeepsLimit(taker, trade.price);
            r.Reverted? ==>
              match r.error
              case Unauthorized => false
              case InvalidSignature => !signed
              case OrderExpired => signed && !timely
              case NonceAlreadyUsed => signed && timely && !unused
              case PriceOutOfRange => signed && timely && unused && !inRange
              case ArithmeticOverflow => signed && timely && unused && inRange
                  && trade.quantity * trade.price >= TWO_256
              case InsufficientBalance =>
                && signed && timely && unused && inRange
                && (Holds(c, GivesBase(trade), maker.baseToken) < trade.quantity
                    || Holds(c, GivesQuote(trade), maker.quoteToken)
                       < trade.quantity * trade.price / 1_000_000_000_000_000_000)
  {
    hide Transferred;
  }

  /** Between two users and two tokens, a settled trade moves its quantity one way and its quote value the
      other, touches nothing else, and uses up both nonces. */
  lemma SettledTradeMoves(c: Chain, trade: Trade, now: nat)
    requires GivesBase(trade) != GivesQuote(trade) && trade.makerOrder.baseToken != trade.makerOrder.quoteToken
    ensures SettledTrade(c, trade, now).Settled? ==>
            var d, base, quote := SettledTrade(c, trade, now).chain, trade.makerOrder.baseToken,
                trade.makerOrder.quoteToken;
            var seller, buyer := GivesBase(trade), GivesQuote(trade);
            var value := trade.quantity * trade.price / 1_000_000_000_000_000_000;
            && Holds(d, seller, base) == Holds(c, seller, base) - trade.quantity
            && Holds(d, buyer, base) == Holds(c, buyer, base) + trade.quantity
            && Holds(d, buyer, quote) == Holds(c, buyer, quote) - value
            && Holds(d, seller, quote) == Holds(c, seller, quote) + value
            && (forall u, t :: !(u in {seller, buyer} && t in {base, quote}) ==> Holds(d, u, t) == Holds(c, u, t))
            && d.usedNonces == c.usedNonces + {(trade.makerOrder.maker, trade.makerOrder.nonce),
                                               (trade.takerOrder.maker, trade.takerOrder.nonce)}
  {
    hide Quote, Fits;
    if SettledTrade(c, trade, now).Settled? {
      SettledTradeIff(c, trade, now);
      QuoteOf(trade.quantity, trade.price);
      forall u, t ensures Holds(SettledTrade(c, trade, now).chain, u, t)
                          == Holds(c, u, t) + Delta(trade.makerOrder.baseToken, trade.makerOrder.quoteToken, trade, u,
                                                    t) {
        SettledEffect(c, trade, now, u, t);
      }
    }
  }

  lemma QuoteOf(q: nat, p: nat)
    requires q * p < TWO_256
    ensures Quote(q, p) == q * p / 1_000_000_000_000_000_000
  {
  }

  // ----- One-shot nonces -----

  ghost predicate DisjointKeys(trades: seq<Trade>) {
    forall i, j :: 0 <= i < j < |trades| ==> KeysOf(trades[i]) !! KeysOf(trades[j])
  }

  /** Each key belongs to at most one of these trades, and to none that was used before. */
  ghost predicate FreshKeys(used: set<NonceKey>, trades: seq<Trade>) {
    DisjointKeys(trades) && forall i :: 0 <= i < |trades| ==> KeysOf(trades[i]) !! used
  }

  ghost function AllKeys(trades: seq<Trade>): set<NonceKey> {
    set trade, key | trade in trades && key in KeysOf(trade) :: key
  }

  lemma FreshKeysCons(used: set<NonceKey>, trades: seq<Trade>)
    requires trades != []
    ensures FreshKeys(used, trades) <==> KeysOf(trades[0]) !! used && FreshKeys(used + KeysOf(trades[0]), trades[1..])
  {
    if FreshKeys(used, trades) {
      forall i | 0 <= i < |trades[1..]| ensures KeysOf(trades[1..][i]) !! used + KeysOf(trades[0]) {
        assert trades[1..][i] == trades[i + 1];
      }
      forall i, j | 0 <= i < j < |trades[1..]| ensures KeysOf(trades[1..][i]) !! KeysOf(trades[1..][j]) {
        assert KeysOf(trades[i + 1]) !! KeysOf(trades[j + 1]);
      }
    }
    if KeysOf(trades[0]) !! used && FreshKeys(used + KeysOf(trades[0]), trades[1..]) {
      forall i, j | 0 <= i < j < |trades| ensures KeysOf(trades[i]) !! KeysOf(trades[j]) {
        assert trades[j] == trades[1..][j - 1];
        if i > 0 {
          assert KeysOf(trades[1..][i - 1]) !! KeysOf(trades[1..][j - 1]);
        }
      }
      forall i | 0 <= i < |trades| ensures KeysOf(trades[i]) !! used {
        if i > 0 {
          assert trades[i] == trades[1..][i - 1];
        }
      }
    }
  }

  /** A batch that goes through used only fresh keys, each in one trade, and marks them all. */
  lemma {:induction false} SettledKeysAreFresh(c: Chain, trades: seq<Trade>, now: nat)
    requires SettledBatch(c, trades, now).Settled?
    ensures FreshKeys(c.usedNonces, trades)
    ensures SettledBatch(c, trades, now).chain.usedNonces == c.usedNonces + AllKeys(trades)
    decreases |trades|
  {
    hide Transferred, HeldBy, FreshKeys;
    if trades == [] {
      assert FreshKeys(c.usedNonces, trades) by { NothingIsFresh(c.usedNonces, trades); }
    } else {
      SettledKeysAreFresh(SettledTrade(c, trades[0], now).chain, trades[1..], now);
      FreshKeysCons(c.usedNonces, trades);
      assert trades == [trades[0]] + trades[1..];
      assert AllKeys(trades) == KeysOf(trades[0]) + AllKeys(trades[1..]);
    }
  }

  lemma NothingIsFresh(used: set<NonceKey>, trades: seq<Trade>)
    requires trades == []
    ensures FreshKeys(used, trades)
  {
  }

  /** A batch that repeats a key across trades reverts. */
  lemma RepeatedKeyReverts(c: Chain, trades: seq<Trade>, now: nat, i: nat, j: nat)
    requires i < j < |trades| && !(KeysOf(trades[i]) !! KeysOf(trades[j]))
    ensures SettledBatch(c, trades, now).Reverted?
  {
    if SettledBatch(c, trades, now).Settled? {
      SettledKeysAreFresh(c, trades, now);
    }
  }

  // ----- Runs of the contract -----

  function Deposited(c: Chain, user: Address, token: Address, amount: nat): Chain {
    c.(balances := WithHeld(c.balances, user, token, ChainBalance(c, user, token) + amount))
  }

  datatype ChainOp =
    | DepositOp(user: Address, token: Address, amount: nat)
    | WithdrawOp(user: Address, token: Address, amount: nat)
    | CancelNonceOp(maker: Address, nonce: nat)
    | SettleOp(trades: seq<Trade>, now: nat)

  function ChainStep(c: Chain, op: ChainOp): Chain {
    match op
    case DepositOp(user, token, amount) => Deposited(c, user, token, amount)
    case WithdrawOp(user, token, amount) =>
      if ChainBalance(c, user, token) < amount then c
      else c.(balances := WithHeld(c.balances, user, token, ChainBalance(c, user, token) - amount))
    case CancelNonceOp(maker, nonce) => c.(usedNonces := c.usedNonces + {(maker, nonce)})
    case SettleOp(trades, now) => var r := SettledBatch(c, trades, now); if r.Settled? then r.chain else c
  }

  /** The trades a run settles, in order. */
  function SettledIn(c: Chain, ops: seq<ChainOp>): seq<Trade>
    decreases |ops|
  {
    if ops == [] then [] else
      (if ops[0].SettleOp? && SettledBatch(c, ops[0].trades, ops[0].now).Settled? then ops[0].trades else [])
      + SettledIn(ChainStep(c, ops[0]), ops[1..])
  }

  /** Over every run, a nonce key takes part in at most one settled trade, and in none once it was
      used or cancelled before. */
  lemma {:induction false} NoncesAreOneShot(c: Chain, ops: seq<ChainOp>)
    ensures FreshKeys(c.usedNonces, SettledIn(c, ops))
    decreases |ops|
  {
    hide SettledBatch, FreshKeys;
    if ops == [] {
      NothingIsFresh(c.usedNonces, SettledIn(c, ops));
    } else {
      var next := ChainStep(c, ops[0]);
      NoncesAreOneShot(next, ops[1..]);
      var rest := SettledIn(next, ops[1..]);
      if ops[0].SettleOp? && SettledBatch(c, ops[0].trades, ops[0].now).Settled? {
        SettledKeysAreFresh(c, ops[0].trades, ops[0].now);
        FreshKeysConcat(c.usedNonces, ops[0].trades, rest);
      } else {
        assert [] + rest == rest;
        FreshKeysFewer(c.usedNonces, next.usedNonces, rest);
      }
    }
  }

  /** Over every run, whatever settles was signed by both makers and keeps both limits. */
  lemma {:induction false} SettledTradesKeepLimits(c: Chain, ops: seq<ChainOp>, trade: Trade)
    requires trade in SettledIn(c, ops)
    ensures trade.makerOrder.signature == Some(trade.makerOrder.maker)
    ensures trade.takerOrder.signature == Some(trade.takerOrder.maker)
    ensures KeepsLimit(trade.makerOrder, trade.price) && KeepsLimit(trade.takerOrder, trade.price)
    decreases |ops|
  {
    hide SettledBatch, ChainStep;
    if trade !in SettledIn(ChainStep(c, ops[0]), ops[1..]) {
      BatchKeepsLimits(c, ops[0].trades, ops[0].now, trade);
    } else {
      SettledTradesKeepLimits(ChainStep(c, ops[0]), ops[1..], trade);
    }
  }

  lemma {:induction false} BatchKeepsLimits(c: Chain, trades: seq<Trade>, now: nat, trade: Trade)
    requires SettledBatch(c, trades, now).Settled? && trade in trades
    ensures Honoured(trade.makerOrder, now) && Honoured(trade.takerOrder, now)
    ensures KeepsLimit(trade.makerOrder, trade.price) && KeepsLimit(trade.takerOrder, trade.price)
    decreases |trades|
  {
    hide SettledTrade;
    SettledTradeIff(c, trades[0], now);
    if trade != trades[0] {
      BatchKeepsLimits(SettledTrade(c, trades[0], now).chain, trades[1..], now, trade);
    }
  }

  /** Once a maker's nonce is cancelled, no order of that maker with that nonce ever settles. */
  lemma CancelledNeverSettles(c: Chain, maker: Address, nonce: nat, ops: seq<ChainOp>, trade: Trade)
    requires trade in SettledIn(ChainStep(c, CancelNonceOp(maker, nonce)), ops)
    ensures trade.makerOrder.maker != maker || trade.makerOrder.nonce != nonce
    ensures trade.takerOrder.maker != maker || trade.takerOrder.nonce != nonce
  {
    var d := ChainStep(c, CancelNonceOp(maker, nonce));
    NoncesAreOneShot(d, ops);
    var trades := SettledIn(d, ops);
    var i :| 0 <= i < |trades| && trades[i] == trade;
    assert KeysOf(trades[i]) !! d.usedNonces && (maker, nonce) in d.usedNonces;
    assert trade.makerOrder.NonceKey() in KeysOf(trade) && trade.takerOrder.NonceKey() in KeysOf(trade);
  }

  lemma FreshKeysFewer(used: set<NonceKey>, used': set<NonceKey>, trades: seq<Trade>)
    requires FreshKeys(used', trades) && used <= used'
    ensures FreshKeys(used, trades)
  {
  }

  lemma FreshKeysConcat(used: set<NonceKey>, a: seq<Trade>, b: seq<Trade>)
    requires FreshKeys(used, a) && FreshKeys(used + AllKeys(a), b)
    ensures FreshKeys(used, a + b)
  {
    forall i, j | 0 <= i < j < |a + b| ensures KeysOf((a + b)[i]) !! KeysOf((a + b)[j]) {
      if i < |a| <= j {
        assert a[i] in a && KeysOf(a[i]) <= AllKeys(a);
        assert KeysOf(b[j - |a|]) !! used + AllKeys(a);
      } else if i >= |a| {
        assert KeysOf(b[i - |a|]) !! KeysOf(b[j - |a|]);
      }
    }
  }

  // ----- Exactly when a backed batch settles -----

  /** The checks that do not depend on the contract's state, for the configured pair. */
  ghost predicate WellFormed(base: Address, quote: Address, trade: Trade) {
    && Signed(trade.makerOrder) && Signed(trade.takerOrder)
    && trade.makerOrder.baseToken == base && trade.makerOrder.quoteToken == quote
    && PriceInRange(trade.makerOrder, trade.price) && PriceInRange(trade.takerOrder, trade.price)
    && Fits(trade.quantity, trade.price)
  }

  ghost predicate AllWellFormed(base: Address, quote: Address, trades: seq<Trade>) {
    forall trade :: trade in trades ==> WellFormed(base, quote, trade)
  }

  ghost predicate Unexpired(trades: seq<Trade>, now: nat) {
    forall trade :: trade in trades ==> now <= trade.makerOrder.expiry && now <= trade.takerOrder.expiry
  }

  ghost function ChainHoldings(c: Chain): Holdings {
    (u, t) => ChainBalance(c, u, t)
  }

  /** A backed batch of well-formed trades never runs into a missing balance or a price out of range:
      it settles if and only if no order in it expired and no nonce key was used before or repeats. */
  lemma {:induction false} BackedBatchSettlesIff(c: Chain, trades: seq<Trade>, now: nat, base: Address, quote: Address)
    requires Backed(base, quote, ChainHoldings(c), trades) && AllWellFormed(base, quote, trades)
    ensures SettledBatch(c, trades, now).Settled? <==> FreshKeys(c.usedNonces, trades) && Unexpired(trades, now)
    ensures SettledBatch(c, trades, now).Reverted?
            ==> SettledBatch(c, trades, now).error in {OrderExpired, NonceAlreadyUsed}
    decreases |trades|
  {
    hide HeldBy, Transferred, Quote, Backed, FreshKeys, Net, Delta;
    if trades == [] {
      NothingIsFresh(c.usedNonces, trades);
    } else {
      var trade := trades[0];
      assert trade in trades && WellFormed(base, quote, trade);
      assert trades == [trade] + trades[1..];
      FreshKeysCons(c.usedNonces, trades);
      FirstIsBacked(c, trades, base, quote);
      var first := SettledTrade(c, trade, now);
      if first.Settled? {
        forall u, t ensures ChainHoldings(first.chain)(u, t)
            == ChainHoldings(c)(u, t) + Delta(base, quote, trade, u, t) {
          SettledEffect(c, trade, now, u, t);
        }
        BackedCons(base, quote, ChainHoldings(c), ChainHoldings(first.chain), trades);
        BackedBatchSettlesIff(first.chain, trades[1..], now, base, quote);
      }
    }
  }

  lemma FirstIsBacked(c: Chain, trades: seq<Trade>, base: Address, quote: Address)
    requires trades != [] && Backed(base, quote, ChainHoldings(c), trades)
    ensures trades[0].quantity <= ChainBalance(c, TradeSeller(trades[0]), base)
    ensures QuoteAmount(trades[0]) <= ChainBalance(c, TradeBuyer(trades[0]), quote)
  {
    assert BackedAt(base, quote, ChainHoldings(c), trades, 0);
    assert trades[..0] == [];
  }
}
