/** The trade log: who pays whom, the net effect of a list of trades, and when a list can be
    replayed in order from given holdings. */
module TradeLog {
  import opened Types
  import opened Arithmetic
  import opened Ledgers

  /** The contract tells buyer and seller apart by the maker's side. */
  function TradeBuyer(trade: Trade): Address {
    if trade.makerOrder.side.Buy? then trade.makerOrder.maker else trade.takerOrder.maker
  }

  function TradeSeller(trade: Trade): Address {
    if trade.makerOrder.side.Buy? then trade.takerOrder.maker else trade.makerOrder.maker
  }

  function QuoteAmount(trade: Trade): nat {
    Quote(trade.quantity, trade.price)
  }

  function Delta(base: Address, quote: Address, trade: Trade, u: Address, t: Address): int {
    TradeDelta(TradeSeller(trade), TradeBuyer(trade), base, quote, trade.quantity, QuoteAmount(trade), u, t)
  }

  function Net(base: Address, quote: Address, trades: seq<Trade>, u: Address, t: Address): int {
    if trades == [] then 0 else Delta(base, quote, trades[0], u, t) + Net(base, quote, trades[1..], u, t)
  }

  lemma {:induction false} NetAppend(base: Address, quote: Address, a: seq<Trade>, b: seq<Trade>, u: Address,
                                     t: Address)
    ensures Net(base, quote, a + b, u, t) == Net(base, quote, a, u, t) + Net(base, quote, b, u, t)
  {
    if a == [] {
      assert a + b == b;
    } else {
      assert (a + b)[1..] == a[1..] + b;
      NetAppend(base, quote, a[1..], b, u, t);
    }
  }

  type Holdings = (Address, Address) -> int

  /** When trade `k` is reached, its seller has the base tokens and its buyer the quote tokens. */
  ghost predicate BackedAt(base: Address, quote: Address, h: Holdings, trades: seq<Trade>, k: nat)
    requires k < |trades|
  {
    var trade := trades[k];
    && trade.quantity <= h(TradeSeller(trade), base) + Net(base, quote, trades[..k], TradeSeller(trade), base)
    && QuoteAmount(trade) <= h(TradeBuyer(trade), quote) + Net(base, quote, trades[..k], TradeBuyer(trade), quote)
  }

  ghost predicate Backed(base: Address, quote: Address, h: Holdings, trades: seq<Trade>) {
    forall k :: 0 <= k < |trades| ==> BackedAt(base, quote, h, trades, k)
  }

  /** Backing a list is backing its first trade and, once that is made, the rest. */
  lemma BackedCons(base: Address, quote: Address, h: Holdings, h': Holdings, trades: seq<Trade>)
    requires trades != []
    requires forall u, t :: h'(u, t) == h(u, t) + Delta(base, quote, trades[0], u, t)
    ensures Backed(base, quote, h, trades)
            <==> BackedAt(base, quote, h, trades, 0) && Backed(base, quote, h', trades[1..])
  {
    forall k | 0 < k < |trades|
      ensures BackedAt(base, quote, h, trades, k) <==> BackedAt(base, quote, h', trades[1..], k - 1)
    {
      assert trades[..k][1..] == trades[1..][..k - 1];
    }
    if Backed(base, quote, h, trades) {
      forall k | 0 <= k < |trades[1..]| ensures BackedAt(base, quote, h', trades[1..], k) {
        assert BackedAt(base, quote, h, trades, k + 1);
      }
    }
  }

  /** A log stays backed when more was deposited and trades backed by the present holdings follow. */
  lemma BackedExtend(base: Address, quote: Address, h: Holdings, now: Holdings, log: seq<Trade>, more: seq<Trade>)
    requires Backed(base, quote, h, log) && Backed(base, quote, now, more)
    requires forall u, t :: now(u, t) == h(u, t) + Net(base, quote, log, u, t)
    ensures Backed(base, quote, h, log + more)
  {
    forall k | 0 <= k < |log + more| ensures BackedAt(base, quote, h, log + more, k) {
      if k < |log| {
        assert (log + more)[..k] == log[..k];
        assert BackedAt(base, quote, h, log, k);
      } else {
        var j := k - |log|;
        assert BackedAt(base, quote, now, more, j);
        assert (log + more)[..k] == log + more[..j];
        var s, b := TradeSeller(more[j]), TradeBuyer(more[j]);
        NetAppend(base, quote, log, more[..j], s, base);
        NetAppend(base, quote, log, more[..j], b, quote);
      }
    }
  }

  lemma BackedMonotone(base: Address, quote: Address, h: Holdings, h': Holdings, trades: seq<Trade>)
    requires Backed(base, quote, h, trades)
    requires forall u, t :: h(u, t) <= h'(u, t)
    ensures Backed(base, quote, h', trades)
  {
    forall k | 0 <= k < |trades| ensures BackedAt(base, quote, h', trades, k) {
      assert BackedAt(base, quote, h, trades, k);
    }
  }

  /** The part of a backed log that is left once a prefix was applied. */
  lemma BackedSuffix(base: Address, quote: Address, h: Holdings, h': Holdings, trades: seq<Trade>, n: nat)
    requires n <= |trades| && Backed(base, quote, h, trades)
    requires forall u, t :: h'(u, t) == h(u, t) + Net(base, quote, trades[..n], u, t)
    ensures Backed(base, quote, h', trades[n..])
  {
    forall k | 0 <= k < |trades[n..]| ensures BackedAt(base, quote, h', trades[n..], k) {
      assert BackedAt(base, quote, h, trades, n + k);
      assert trades[..n + k] == trades[..n] + trades[n..][..k];
      var s, b := TradeSeller(trades[n + k]), TradeBuyer(trades[n + k]);
      NetAppend(base, quote, trades[..n], trades[n..][..k], s, base);
      NetAppend(base, quote, trades[..n], trades[n..][..k], b, quote);
    }
  }
}
