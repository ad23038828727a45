/** 256-bit arithmetic as the gateway performs it, and the rounding of quote amounts. */
module Arithmetic {
  const E18: nat := 1_000_000_000_000_000_000
  const TWO_256: nat := 0x1_0000000000000000_0000000000000000_0000000000000000_0000000000000000

  /** `a - b` on unsigned 256-bit words: exact when it does not go below zero. */
  function WrappingSub(a: nat, b: nat): nat {
    if b <= a then a - b else (a - b) % TWO_256
  }

  /** `a * b` on unsigned 256-bit words: exact when the product fits. */
  function WrappingMul(a: nat, b: nat): nat {
    if a * b < TWO_256 then a * b else (a * b) % TWO_256
  }

  /** The quote amount of `quantity` base units at `price`, rounded down. */
  function Quote(quantity: nat, price: nat): nat {
    WrappingMul(quantity, price) / E18
  }

  predicate Fits(quantity: nat, price: nat) {
    quantity * price < TWO_256
  }

  lemma FloorSplit(x: nat, y: nat)
    ensures x / E18 + y / E18 <= (x + y) / E18 <= x / E18 + y / E18 + 1
  {
  }

  lemma FitsSmaller(q: nat, p: nat, q': nat, p': nat)
    requires Fits(q, p) && q' <= q && p' <= p
    ensures Fits(q', p')
  {
    assert q' * p' <= q * p' <= q * p;
  }

  /** Splitting a quantity loses at most one unit of quote to rounding, and never gains. */
  lemma QuoteSplitsQuantity(q: nat, r: nat, p: nat)
    requires Fits(q + r, p)
    ensures Quote(q, p) + Quote(r, p) <= Quote(q + r, p) <= Quote(q, p) + Quote(r, p) + 1
  {
    assert (q + r) * p == q * p + r * p;
    FloorSplit(q * p, r * p);
  }

  /** Splitting a price loses at most one unit of quote to rounding, and never gains. */
  lemma QuoteSplitsPrice(q: nat, p: nat, d: nat)
    requires Fits(q, p + d)
    ensures Quote(q, p) + Quote(q, d) <= Quote(q, p + d) <= Quote(q, p) + Quote(q, d) + 1
  {
    assert q * (p + d) == q * p + q * d;
    FloorSplit(q * p, q * d);
  }
}
