/** Deposits are credited exactly once: exactly when, for a subscription that starts late and for a
    service that stops between any two of its statements. */
module DepositLoss {
  import opened Types
  import opened Ledgers
  import opened Persistence
  import opened Deposits

  // ----- Sums over ranges and permutations -----

  lemma {:induction false} SumAppend(a: seq<Deposit>, b: seq<Deposit>, u: Address, t: Address)
    ensures DepositSum(a + b, u, t) == DepositSum(a, u, t) + DepositSum(b, u, t)
  {
    if b == [] {
      assert a + b == a;
    } else {
      assert b == b[..|b| - 1] + [b[|b| - 1]];
      assert a + b == (a + b[..|b| - 1]) + [b[|b| - 1]];
      SumAppend(a, b[..|b| - 1], u, t);
      SumSnoc(a + b[..|b| - 1], b[|b| - 1], u, t);
    }
  }

  lemma {:induction false} RangeAppend(a: seq<Deposit>, b: seq<Deposit>, first: nat, last: nat, u: Address, t: Address)
    ensures RangeSum(a + b, first, last, u, t) == RangeSum(a, first, last, u, t) + RangeSum(b, first, last, u, t)
  {
    hide RangeSum, DepositOf;
    if b == [] {
      assert a + b == a;
      NoRange(first, last, u, t);
    } else {
      assert b == b[..|b| - 1] + [b[|b| - 1]];
      assert a + b == (a + b[..|b| - 1]) + [b[|b| - 1]];
      RangeAppend(a, b[..|b| - 1], first, last, u, t);
      RangeSumSnoc(a + b[..|b| - 1], b[|b| - 1], first, last, u, t);
      RangeSumSnoc(b[..|b| - 1], b[|b| - 1], first, last, u, t);
    }
  }

  lemma RangeOfTaken(b: seq<Deposit>, i: nat, first: nat, last: nat, u: Address, t: Address)
    requires i < |b|
    ensures RangeSum(b, first, last, u, t)
            == RangeSum(b[..i] + b[i + 1..], first, last, u, t)
               + (if first <= b[i].blockNumber <= last then DepositOf(b[i], u, t) else 0)
  {
    hide RangeSum, DepositOf;
    assert b == (b[..i] + [b[i]]) + b[i + 1..];
    RangeAppend(b[..i], b[i + 1..], first, last, u, t);
    RangeAppend(b[..i] + [b[i]], b[i + 1..], first, last, u, t);
    RangeSumSnoc(b[..i], b[i], first, last, u, t);
  }

  /** Sums over blocks do not depend on the order of the deposits. */
  lemma {:induction false} RangeOfPermutation(a: seq<Deposit>, b: seq<Deposit>, first: nat, last: nat, u: Address,
                                              t: Address)
    requires multiset(a) == multiset(b)
    ensures RangeSum(a, first, last, u, t) == RangeSum(b, first, last, u, t)
    decreases |a|
  {
    hide RangeSum, DepositOf;
    if a == [] {
      assert |multiset(b)| == 0;
    } else {
      var init, d := a[..|a| - 1], a[|a| - 1];
      assert a == init + [d];
      assert multiset(a) == multiset(init) + multiset{d};
      var rest, i := Taken(b, d);
      RangeOfPermutation(init, rest, first, last, u, t);
      RangeSumSnoc(init, d, first, last, u, t);
      RangeOfTaken(b, i, first, last, u, t);
    }
  }

  lemma Taken(b: seq<Deposit>, d: Deposit) returns (rest: seq<Deposit>, i: nat)
    requires d in multiset(b)
    ensures i < |b| && b[i] == d && rest == b[..i] + b[i + 1..]
    ensures multiset(rest) == multiset(b) - multiset{d}
  {
    i :| 0 <= i < |b| && b[i] == d;
    rest := b[..i] + b[i + 1..];
    assert b == b[..i] + [d] + b[i + 1..];
  }

  /** A range of what was cut out of the chain is the overlap of the two ranges. */
  lemma {:induction false} RangeOfCut(chain: seq<Deposit>, lo: nat, hi: nat, first: nat, last: nat, u: Address,
                                      t: Address)
    ensures RangeSum(DepositsIn(chain, lo, hi), first, last, u, t)
            == RangeSum(chain, if lo > first then lo else first, Min(hi, last), u, t)
  {
    hide RangeSum, DepositOf;
    var from, to := if lo > first then lo else first, Min(hi, last);
    if chain == [] {
      NoRange(first, last, u, t);
      NoRange(from, to, u, t);
    } else {
      var init, d := chain[..|chain| - 1], chain[|chain| - 1];
      assert chain == init + [d];
      RangeOfCut(init, lo, hi, first, last, u, t);
      RangeSumSnoc(init, d, from, to, u, t);
      RangeSumSnoc(DepositsIn(init, lo, hi), d, first, last, u, t);
      assert DepositsIn(init, lo, hi) + [] == DepositsIn(init, lo, hi);
    }
  }

  lemma {:induction false} RangeOfSome(deposits: seq<Deposit>, first: nat, last: nat, u: Address, t: Address)
    ensures (forall d :: d in deposits ==> first <= d.blockNumber <= last)
            ==> RangeSum(deposits, first, last, u, t) == DepositSum(deposits, u, t)
    ensures (forall d :: d in deposits ==> !(first <= d.blockNumber <= last))
            ==> RangeSum(deposits, first, last, u, t) == 0
  {
    if deposits != [] {
      assert deposits == deposits[..|deposits| - 1] + [deposits[|deposits| - 1]];
      RangeOfSome(deposits[..|deposits| - 1], first, last, u, t);
      RangeSumSnoc(deposits[..|deposits| - 1], deposits[|deposits| - 1], first, last, u, t);
    }
  }

  lemma {:induction false} DepositsInAre(chain: seq<Deposit>, first: nat, last: nat)
    ensures forall d :: d in DepositsIn(chain, first, last) <==> d in chain && first <= d.blockNumber <= last
  {
    if chain != [] {
      assert chain == chain[..|chain| - 1] + [chain[|chain| - 1]];
      DepositsInAre(chain[..|chain| - 1], first, last);
    }
  }

  lemma {:induction false} AboveIs(stream: seq<Deposit>, boundary: nat)
    ensures forall d :: d in Above(stream, boundary) <==> d in stream && d.blockNumber > boundary
  {
    if stream != [] {
      assert stream == stream[..|stream| - 1] + [stream[|stream| - 1]];
      AboveIs(stream[..|stream| - 1], boundary);
    }
  }

  /** Deposits up to a block and those above it. */
  lemma {:induction false} SumSplits(deposits: seq<Deposit>, block: nat, u: Address, t: Address)
    ensures DepositSum(deposits, u, t) == RangeSum(deposits, 0, block, u, t) + DepositSum(Above(deposits, block), u, t)
  {
    hide RangeSum, DepositOf;
    if deposits == [] {
      NoRange(0, block, u, t);
    } else {
      var init, d := deposits[..|deposits| - 1], deposits[|deposits| - 1];
      assert deposits == init + [d];
      SumSplits(init, block, u, t);
      RangeSumSnoc(init, d, 0, block, u, t);
      SumSnoc(init, d, u, t);
      SumSnoc(Above(init, block), d, u, t);
      assert Above(init, block) + [] == Above(init, block);
    }
  }

  lemma {:induction false} PositiveShows(deposits: seq<Deposit>, d: Deposit)
    requires d in deposits && d.amount > 0
    ensures DepositSum(deposits, d.user, d.token) > 0
  {
    var last := deposits[|deposits| - 1];
    assert deposits == deposits[..|deposits| - 1] + [last];
    if d != last {
      PositiveShows(deposits[..|deposits| - 1], d);
    }
  }

  lemma {:induction false} ZerosShowNothing(deposits: seq<Deposit>, u: Address, t: Address)
    requires forall d :: d in deposits ==> d.user != u || d.token != t || d.amount == 0
    ensures DepositSum(deposits, u, t) == 0
  {
    if deposits != [] {
      assert deposits == deposits[..|deposits| - 1] + [deposits[|deposits| - 1]];
      ZerosShowNothing(deposits[..|deposits| - 1], u, t);
    }
  }

  // ----- What a list of statements amounts to -----

  function SavedIn(writes: seq<Write>): seq<Deposit> {
    if writes == [] then []
    else
      var w := writes[|writes| - 1];
      SavedIn(writes[..|writes| - 1]) + if w.SaveRow? then [w.deposit] else []
  }

  function CursorAfter(cursor: Option<nat>, writes: seq<Write>): Option<nat> {
    if writes == [] then cursor
    else
      var w := writes[|writes| - 1];
      if w.MoveCursor? then Some(w.block) else CursorAfter(cursor, writes[..|writes| - 1])
  }

  lemma {:induction false} PlayedIs(s: SyncState, writes: seq<Write>)
    ensures Gained(s.ledger, Played(s, writes).ledger, SumsOf(SavedIn(writes)))
    ensures Played(s, writes).cursor == CursorAfter(s.cursor, writes)
  {
    hide Gained, Credited;
    if writes == [] {
      NothingGained(s.ledger);
    } else {
      var init, w := writes[..|writes| - 1], writes[|writes| - 1];
      PlayedIs(s, init);
      assert SavedIn(init) + [] == SavedIn(init);
      if w.SaveRow? {
        CreditGains(s.ledger, Played(s, init).ledger, Played(s, writes).ledger, SavedIn(init), w.deposit);
      }
    }
  }

  lemma {:induction false} SavedAppend(a: seq<Write>, b: seq<Write>)
    ensures SavedIn(a + b) == SavedIn(a) + SavedIn(b)
    decreases |b|
  {
    if b == [] {
      assert a + b == a;
    } else {
      assert (a + b)[..|a + b| - 1] == a + b[..|b| - 1];
      SavedAppend(a, b[..|b| - 1]);
    }
  }

  /** The whole loop saves the deposits above the boundary, in stream order. */
  lemma {:induction false} LiveSaves(stream: seq<Deposit>, boundary: nat)
    ensures SavedIn(LiveWrites(stream, boundary)) == Above(stream, boundary)
    ensures forall w :: w in LiveWrites(stream, boundary) && w.MoveCursor?
              ==> exists d :: d in Above(stream, boundary) && d.blockNumber == w.block
  {
    if stream != [] {
      var init, d := stream[..|stream| - 1], stream[|stream| - 1];
      assert stream == init + [d];
      LiveSaves(init, boundary);
      var more := if d.blockNumber <= boundary then [] else WritesFor(d, HighestBlock(init, boundary));
      SavedAppend(LiveWrites(init, boundary), more);
      SavedFor(d, HighestBlock(init, boundary));
    }
  }

  lemma SavedFor(d: Deposit, highest: nat)
    ensures SavedIn(WritesFor(d, highest)) == [d]
  {
    var row: seq<Write> := [SaveRow(d)];
    assert row[..0] == [] && row + [] == row && SavedIn(row) == [d];
    assert (row + [MoveCursor(d.blockNumber)])[..1] == row;
  }

  lemma {:induction false} CursorIsMoved(cursor: Option<nat>, writes: seq<Write>)
    ensures CursorAfter(cursor, writes) == cursor
            || exists w :: w in writes && w.MoveCursor? && CursorAfter(cursor, writes) == Some(w.block)
  {
    if writes != [] {
      assert writes == writes[..|writes| - 1] + [writes[|writes| - 1]];
      CursorIsMoved(cursor, writes[..|writes| - 1]);
    }
  }

  // ----- Replay and subscription -----

  /** The subscription yields every deposit of the blocks after `since`, up to `last`, in any order. */
  ghost predicate Delivers(stream: seq<Deposit>, chain: seq<Deposit>, since: nat, last: nat) {
    multiset(stream) == multiset(DepositsIn(chain, since + 1, last))
  }

  /** The first block that a replay up to `head` followed by the live loop takes care of. */
  function FirstBlock(cursor: Option<nat>, deployBlock: nat, head: nat): nat {
    if cursor.Some? then cursor.value + 1 else Min(deployBlock, head + 1)
  }

  lemma EmptyRange(chain: seq<Deposit>, first: nat, last: nat, u: Address, t: Address)
    requires first > last
    ensures RangeSum(chain, first, last, u, t) == 0
  {
    RangeOfSome(chain, first, last, u, t);
  }

  /** A replay gains its range of blocks, also when there is nothing to replay. */
  lemma SyncGains(s: SyncState, s': SyncState, chain: seq<Deposit>, deployBlock: nat, head: nat, u: Address, t: Address)
    requires SyncedTo(s, s', chain, deployBlock, head)
    ensures BalanceOf(s'.ledger, u, t)
            == TokenBalance(BalanceOf(s.ledger, u, t).available
                            + RangeSum(chain, StartBlock(s.cursor, deployBlock), head, u, t),
                            BalanceOf(s.ledger, u, t).reserved)
  {
    hide BalanceOf, RangeSum;
    var start := StartBlock(s.cursor, deployBlock);
    if start > head {
      EmptyRange(chain, start, head, u, t);
      assert BalanceOf(s'.ledger, u, t) == BalanceOf(s.ledger, u, t);
    } else {
      assert RangeSumsOf(chain, start, head)(u, t) == RangeSum(chain, start, head, u, t);
    }
  }

  lemma RangeSplitsAnywhere(chain: seq<Deposit>, first: nat, mid: nat, last: nat, u: Address, t: Address)
    requires first <= mid + 1
    ensures RangeSum(chain, first, mid, u, t) + RangeSum(chain, mid + 1, last, u, t)
            == RangeSum(chain, first, Max(mid, last), u, t)
  {
    hide RangeSum;
    if mid <= last {
      RangeSplits(chain, first, mid, last, u, t);
    } else {
      EmptyRange(chain, mid + 1, last, u, t);
    }
  }

  lemma StreamBlocks(stream: seq<Deposit>, chain: seq<Deposit>, since: nat, last: nat)
    requires Delivers(stream, chain, since, last)
    ensures forall d :: d in stream ==> since < d.blockNumber <= last
  {
    DepositsInAre(chain, since + 1, last);
    forall d | d in stream ensures since < d.blockNumber <= last {
      assert d in multiset(stream);
      assert d in DepositsIn(chain, since + 1, last);
    }
  }

  lemma StreamSum(stream: seq<Deposit>, chain: seq<Deposit>, since: nat, last: nat, boundary: nat, u: Address,
                  t: Address)
    requires Delivers(stream, chain, since, last) && since <= last
    ensures DepositSum(Above(stream, boundary), u, t) == RangeSum(chain, Max(since, boundary) + 1, last, u, t)
  {
    hide RangeSum, DepositSum, Above, DepositsIn;
    var cut, end := DepositsIn(chain, since + 1, last), Max(last, boundary);
    StreamBlocks(stream, chain, since, last);
    SumSplits(stream, boundary, u, t);
    RangeOfSome(stream, 0, end, u, t);
    RangeOfPermutation(stream, cut, 0, end, u, t);
    RangeOfPermutation(stream, cut, 0, boundary, u, t);
    RangeOfCut(chain, since + 1, last, 0, end, u, t);
    RangeOfCut(chain, since + 1, last, 0, boundary, u, t);
    CutAt(chain, since, last, boundary, u, t);
  }

  lemma CutAt(chain: seq<Deposit>, since: nat, last: nat, boundary: nat, u: Address, t: Address)
    requires since <= last
    ensures RangeSum(chain, since + 1, Min(last, boundary), u, t)
            + RangeSum(chain, Max(since, boundary) + 1, last, u, t)
            == RangeSum(chain, since + 1, last, u, t)
  {
    hide RangeSum;
    if boundary <= since {
      EmptyRange(chain, since + 1, Min(last, boundary), u, t);
    } else if boundary <= last {
      RangeSplits(chain, since + 1, boundary, last, u, t);
    } else {
      EmptyRange(chain, boundary + 1, last, u, t);
    }
  }

  /** Replay and live loop together, wherever the cursor and the head are: an account gains its
      deposits from the first block on, except those between the boundary and the subscription. */
  lemma SubscribedGains(s: SyncState, s1: SyncState, chain: seq<Deposit>, stream: seq<Deposit>, deployBlock: nat,
                        head: nat, since: nat, last: nat, u: Address, t: Address)
    requires SyncedTo(s, s1, chain, deployBlock, head) && Delivers(stream, chain, since, last) && since <= last
    ensures var boundary := Boundary(s1.cursor, head);
            var s2 := Played(s1, LiveWrites(stream, boundary));
            && BalanceOf(s2.ledger, u, t).reserved == BalanceOf(s.ledger, u, t).reserved
            && BalanceOf(s2.ledger, u, t).available + RangeSum(chain, boundary + 1, since, u, t)
               == BalanceOf(s.ledger, u, t).available
                  + RangeSum(chain, FirstBlock(s.cursor, deployBlock, head), Max(last, head), u, t)
  {
    hide BalanceOf, RangeSum, Played, LiveWrites, DepositSum, DepositsIn, Above;
    var start, boundary := StartBlock(s.cursor, deployBlock), Boundary(s1.cursor, head);
    var s2 := Played(s1, LiveWrites(stream, boundary));
    SyncGains(s, s1, chain, deployBlock, head, u, t);
    PlayedIs(s1, LiveWrites(stream, boundary));
    LiveSaves(stream, boundary);
    StreamSum(stream, chain, since, last, boundary, u, t);
    assert BalanceOf(s2.ledger, u, t)
           == TokenBalance(BalanceOf(s1.ledger, u, t).available + SumsOf(Above(stream, boundary))(u, t),
                           BalanceOf(s1.ledger, u, t).reserved);
    MissedAndSeen(chain, boundary, since, last, u, t);
    if start <= head {
      RangeSplitsAnywhere(chain, start, head, last, u, t);
    } else {
      EmptyRange(chain, start, head, u, t);
      BeyondTheHead(chain, boundary, head, last, u, t);
    }
  }

  lemma MissedAndSeen(chain: seq<Deposit>, boundary: nat, since: nat, last: nat, u: Address, t: Address)
    requires since <= last
    ensures RangeSum(chain, boundary + 1, since, u, t) + RangeSum(chain, Max(since, boundary) + 1, last, u, t)
            == RangeSum(chain, boundary + 1, last, u, t)
  {
    hide RangeSum;
    if boundary < since {
      RangeSplits(chain, boundary + 1, since, last, u, t);
    } else {
      EmptyRange(chain, boundary + 1, since, u, t);
    }
  }

  lemma BeyondTheHead(chain: seq<Deposit>, boundary: nat, head: nat, last: nat, u: Address, t: Address)
    requires head <= boundary
    ensures RangeSum(chain, boundary + 1, last, u, t) == RangeSum(chain, boundary + 1, Max(last, head), u, t)
  {
    hide RangeSum;
    if last < head {
      EmptyRange(chain, boundary + 1, last, u, t);
      EmptyRange(chain, boundary + 1, head, u, t);
    }
  }

  /** The head is read before the subscription starts. Every deposit is credited exactly once if and
      only if none of the blocks between the two holds a deposit with an amount. */
  lemma SubscribedExactIff(s: SyncState, s1: SyncState, chain: seq<Deposit>, stream: seq<Deposit>, deployBlock: nat,
                           head: nat, since: nat, last: nat)
    requires SyncedTo(s, s1, chain, deployBlock, head) && Delivers(stream, chain, since, last) && since <= last
    ensures var boundary := Boundary(s1.cursor, head);
            Gained(s.ledger, Played(s1, LiveWrites(stream, boundary)).ledger,
                   RangeSumsOf(chain, FirstBlock(s.cursor, deployBlock, head), Max(last, head)))
            <==> forall d :: d in chain && boundary < d.blockNumber <= since ==> d.amount == 0
  {
    hide BalanceOf, DepositsIn, Played, LiveWrites, DepositSum, SyncedTo, FirstBlock;
    var boundary, from, to := Boundary(s1.cursor, head), FirstBlock(s.cursor, deployBlock, head), Max(last, head);
    var s2 := Played(s1, LiveWrites(stream, boundary));
    DepositsInAre(chain, boundary + 1, since);
    if forall d :: d in chain && boundary < d.blockNumber <= since ==> d.amount == 0 {
      forall u, t ensures BalanceOf(s2.ledger, u, t)
                          == TokenBalance(BalanceOf(s.ledger, u, t).available + RangeSumsOf(chain, from, to)(u, t),
                                          BalanceOf(s.ledger, u, t).reserved)
      {
        SubscribedGains(s, s1, chain, stream, deployBlock, head, since, last, u, t);
        ZerosShowNothing(DepositsIn(chain, boundary + 1, since), u, t);
      }
    } else {
      var d :| d in chain && boundary < d.blockNumber <= since && d.amount > 0;
      SubscribedGains(s, s1, chain, stream, deployBlock, head, since, last, d.user, d.token);
      PositiveShows(DepositsIn(chain, boundary + 1, since), d);
      assert RangeSumsOf(chain, from, to)(d.user, d.token) == RangeSum(chain, from, to, d.user, d.token);
    }
  }

  // ----- Stopping the live loop between two statements -----

  /** The service starts its live loop at `boundary`, which its cursor has reached; before the first
      cursor, the chain holds no deposit below the block the contract was deployed in. */
  ghost predicate StartsAt(cursor: Option<nat>, chain: seq<Deposit>, deployBlock: nat, boundary: nat) {
    match cursor
    case Some(c) => c == boundary
    case None => boundary < deployBlock && forall d :: d in chain ==> deployBlock <= d.blockNumber
  }

  /** The deposits whose rows are among the first `n` statements. */
  function Saved(stream: seq<Deposit>, boundary: nat, n: nat): seq<Deposit>
    requires n <= |LiveWrites(stream, boundary)|
  {
    SavedIn(LiveWrites(stream, boundary)[..n])
  }

  lemma SavedIsPrefix(stream: seq<Deposit>, boundary: nat, n: nat)
    requires n <= |LiveWrites(stream, boundary)|
    ensures Saved(stream, boundary, n) <= Above(stream, boundary)
  {
    var writes := LiveWrites(stream, boundary);
    LiveSaves(stream, boundary);
    assert writes == writes[..n] + writes[n..];
    SavedAppend(writes[..n], writes[n..]);
  }

  /** The block a replay resumes after. */
  function ReachedBlock(stream: seq<Deposit>, boundary: nat, n: nat): nat
    requires n <= |LiveWrites(stream, boundary)|
  {
    CursorAfterIs(Some(boundary), boundary, LiveWrites(stream, boundary)[..n]);
    CursorAfter(Some(boundary), LiveWrites(stream, boundary)[..n]).value
  }

  lemma {:induction false} CursorAfterIs(cursor: Option<nat>, boundary: nat, writes: seq<Write>)
    requires cursor.Some? ==> cursor.value == boundary
    ensures CursorAfter(Some(boundary), writes).Some?
    ensures CursorAfter(cursor, writes) == CursorAfter(Some(boundary), writes)
            || (cursor.None? && CursorAfter(cursor, writes).None?
                && CursorAfter(Some(boundary), writes) == Some(boundary))
  {
    if writes != [] {
      CursorAfterIs(cursor, boundary, writes[..|writes| - 1]);
    }
  }

  /** Deposits not saved yet, in blocks that the next replay will pass over. */
  function Lost(stream: seq<Deposit>, boundary: nat, n: nat): seq<Deposit>
    requires n <= |LiveWrites(stream, boundary)|
  {
    SavedIsPrefix(stream, boundary, n);
    DepositsIn(Above(stream, boundary)[|Saved(stream, boundary, n)|..], 0, ReachedBlock(stream, boundary, n))
  }

  /** Deposits saved already, in blocks that the next replay will read again. */
  function Again(stream: seq<Deposit>, boundary: nat, n: nat): seq<Deposit>
    requires n <= |LiveWrites(stream, boundary)|
  {
    Above(Saved(stream, boundary, n), ReachedBlock(stream, boundary, n))
  }

  /** Deposits that neither the replay nor the subscription reads, in blocks that the next replay will
      pass over. */
  function Missed(chain: seq<Deposit>, stream: seq<Deposit>, boundary: nat, since: nat, n: nat): seq<Deposit>
    requires n <= |LiveWrites(stream, boundary)|
  {
    DepositsIn(chain, boundary + 1, Min(since, ReachedBlock(stream, boundary, n)))
  }

  lemma ReachedIsSeen(stream: seq<Deposit>, chain: seq<Deposit>, since: nat, last: nat, boundary: nat, n: nat)
    requires Delivers(stream, chain, since, last) && n <= |LiveWrites(stream, boundary)|
    ensures ReachedBlock(stream, boundary, n) == boundary || boundary < ReachedBlock(stream, boundary, n) <= last
  {
    var writes := LiveWrites(stream, boundary);
    CursorIsMoved(Some(boundary), writes[..n]);
    if w :| w in writes[..n] && w.MoveCursor? && ReachedBlock(stream, boundary, n) == w.block {
      assert w in writes;
      LiveSaves(stream, boundary);
      AboveIs(stream, boundary);
      StreamBlocks(stream, chain, since, last);
    }
  }

  /** No block between the boundary and the block the replay resumes at holds a deposit. */
  lemma ResumesAfter(cursor: Option<nat>, chain: seq<Deposit>, deployBlock: nat, boundary: nat, writes: seq<Write>,
                     head: nat, u: Address, t: Address)
    requires StartsAt(cursor, chain, deployBlock, boundary)
    ensures CursorAfter(Some(boundary), writes).Some?
    ensures RangeSum(chain, StartBlock(CursorAfter(cursor, writes), deployBlock), head, u, t)
            == RangeSum(chain, CursorAfter(Some(boundary), writes).value + 1, head, u, t)
  {
    CursorAfterIs(cursor, boundary, writes);
    if CursorAfter(cursor, writes).None? {
      RangeOfCut(chain, deployBlock, head, boundary + 1, head, u, t);
      AllInRange(chain, deployBlock, head, boundary + 1, u, t);
    }
  }

  lemma {:induction false} AllInRange(chain: seq<Deposit>, deployBlock: nat, head: nat, first: nat, u: Address,
                                      t: Address)
    requires first <= deployBlock && forall d :: d in chain ==> deployBlock <= d.blockNumber
    ensures RangeSum(chain, deployBlock, head, u, t) == RangeSum(chain, first, head, u, t)
  {
    hide RangeSum;
    if chain == [] {
      NoRange(deployBlock, head, u, t);
      NoRange(first, head, u, t);
    } else {
      var init, d := chain[..|chain| - 1], chain[|chain| - 1];
      assert chain == init + [d];
      AllInRange(init, deployBlock, head, first, u, t);
      RangeSumSnoc(init, d, deployBlock, head, u, t);
      RangeSumSnoc(init, d, first, head, u, t);
    }
  }

  /** Saved deposits, those of the blocks reached, and the difference between the two. */
  lemma SavedAgainstReached(stream: seq<Deposit>, chain: seq<Deposit>, since: nat, last: nat, boundary: nat, n: nat,
                            u: Address, t: Address)
    requires Delivers(stream, chain, since, last) && since <= last
    requires n <= |LiveWrites(stream, boundary)|
    ensures DepositSum(Saved(stream, boundary, n), u, t) + DepositSum(Lost(stream, boundary, n), u, t)
            + DepositSum(Missed(chain, stream, boundary, since, n), u, t)
            == RangeSum(chain, boundary + 1, ReachedBlock(stream, boundary, n), u, t)
                + DepositSum(Again(stream, boundary, n), u, t)
  {
    hide RangeSum, DepositSum, Above, DepositsIn, LiveWrites, ReachedBlock, Saved;
    SavedIsPrefix(stream, boundary, n);
    ReachedIsSeen(stream, chain, since, last, boundary, n);
    var saved, k := Saved(stream, boundary, n), ReachedBlock(stream, boundary, n);
    var above := Above(stream, boundary);
    var unsaved := above[|saved|..];
    assert above == saved + unsaved;
    SumSplits(saved, k, u, t);
    RangeAppend(saved, unsaved, 0, k, u, t);
    RangeIs(unsaved, 0, k, u, t);
    AboveUpTo(stream, chain, since, last, boundary, k, u, t);
  }

  lemma RangeIs(chain: seq<Deposit>, first: nat, last: nat, u: Address, t: Address)
    ensures DepositSum(DepositsIn(chain, first, last), u, t) == RangeSum(chain, first, last, u, t)
  {
  }

  lemma AboveUpTo(stream: seq<Deposit>, chain: seq<Deposit>, since: nat, last: nat, boundary: nat, k: nat, u: Address,
                  t: Address)
    requires Delivers(stream, chain, since, last) && since <= last && (k == boundary || boundary < k <= last)
    ensures RangeSum(Above(stream, boundary), 0, k, u, t)
            + DepositSum(DepositsIn(chain, boundary + 1, Min(since, k)), u, t)
            == RangeSum(chain, boundary + 1, k, u, t)
  {
    hide RangeSum, DepositSum, Above, DepositsIn;
    SumSplits(Above(stream, boundary), k, u, t);
    AboveTwice(stream, boundary, k);
    StreamSum(stream, chain, since, last, boundary, u, t);
    StreamSum(stream, chain, since, last, k, u, t);
    assert DepositSum(DepositsIn(chain, boundary + 1, Min(since, k)), u, t)
        == RangeSum(chain, boundary + 1, Min(since, k), u, t) by {
      RangeIs(chain, boundary + 1, Min(since, k), u, t);
    }
    MissedAndSeen(chain, boundary, since, last, u, t);
    MissedAndSeen(chain, k, since, last, u, t);
    if k == boundary {
      EmptyRange(chain, boundary + 1, k, u, t);
      EmptyRange(chain, boundary + 1, Min(since, k), u, t);
    } else if since <= k {
      RangeSplits(chain, boundary + 1, k, last, u, t);
      EmptyRange(chain, k + 1, since, u, t);
      if boundary < since { RangeSplits(chain, boundary + 1, since, last, u, t); }
    } else {
      RangeSplits(chain, boundary + 1, k, since, u, t);
    }
  }

  lemma {:induction false} AboveTwice(stream: seq<Deposit>, boundary: nat, k: nat)
    requires boundary <= k
    ensures Above(Above(stream, boundary), k) == Above(stream, k)
  {
    if stream != [] {
      var init, d := stream[..|stream| - 1], stream[|stream| - 1];
      AboveTwice(init, boundary, k);
      if d.blockNumber > boundary {
        var a := Above(init, boundary);
        assert (a + [d])[..|a|] == a;
      } else {
        assert Above(init, boundary) + [] == Above(init, boundary) && Above(init, k) + [] == Above(init, k);
      }
    }
  }

  /** The live loop stops after any number of its statements and the service replays up to a new head.
      Up to there, an account has what the chain holds, less what was missed and lost, plus what was
      credited again. */
  lemma StoppedLive(s: SyncState, s2: SyncState, chain: seq<Deposit>, stream: seq<Deposit>, deployBlock: nat,
                    boundary: nat, since: nat, last: nat, n: nat, head: nat, u: Address, t: Address)
    requires StartsAt(s.cursor, chain, deployBlock, boundary)
    requires Delivers(stream, chain, since, last) && since <= last
    requires n <= |LiveWrites(stream, boundary)|
    requires SyncedTo(Played(s, LiveWrites(stream, boundary)[..n]), s2, chain, deployBlock, head)
    ensures BalanceOf(s2.ledger, u, t).reserved == BalanceOf(s.ledger, u, t).reserved
    ensures BalanceOf(s2.ledger, u, t).available + DepositSum(Lost(stream, boundary, n), u, t)
            + DepositSum(Missed(chain, stream, boundary, since, n), u, t)
            == BalanceOf(s.ledger, u, t).available
               + RangeSum(chain, boundary + 1, Max(ReachedBlock(stream, boundary, n), head), u, t)
               + DepositSum(Again(stream, boundary, n), u, t)
  {
    hide BalanceOf, RangeSum, DepositSum, Above, DepositsIn, LiveWrites, Played, StartsAt, SyncedTo, Lost, Again,
      Missed;
    var writes := LiveWrites(stream, boundary)[..n];
    var s1, k := Played(s, writes), ReachedBlock(stream, boundary, n);
    PlayedIs(s, writes);
    SyncGains(s1, s2, chain, deployBlock, head, u, t);
    ResumesAfter(s.cursor, chain, deployBlock, boundary, writes, head, u, t);
    SavedAgainstReached(stream, chain, since, last, boundary, n, u, t);
    ReachedIsSeen(stream, chain, since, last, boundary, n);
    RangeSplitsAnywhere(chain, boundary + 1, k, head, u, t);
    assert BalanceOf(s1.ledger, u, t)
           == TokenBalance(BalanceOf(s.ledger, u, t).available + SumsOf(SavedIn(writes))(u, t),
                           BalanceOf(s.ledger, u, t).reserved);
  }

  ghost predicate NoAmounts(deposits: seq<Deposit>) {
    forall d :: d in deposits ==> d.amount == 0
  }

  ghost predicate InBlockOrder(stream: seq<Deposit>) {
    forall i, j :: 0 <= i < j < |stream| ==> stream[i].blockNumber <= stream[j].blockNumber
  }

  lemma {:induction false} AboveInOrder(stream: seq<Deposit>, boundary: nat)
    requires InBlockOrder(stream)
    ensures InBlockOrder(Above(stream, boundary))
  {
    if stream != [] {
      var init, d := stream[..|stream| - 1], stream[|stream| - 1];
      AboveInOrder(init, boundary);
      AboveIs(init, boundary);
      var above := Above(stream, boundary);
      forall i, j | 0 <= i < j < |above| ensures above[i].blockNumber <= above[j].blockNumber {
        if j == |Above(init, boundary)| {
          assert above[i] in Above(init, boundary);
          var k :| 0 <= k < |init| && init[k] == above[i];
          assert stream[k].blockNumber <= stream[|stream| - 1].blockNumber;
        }
      }
    }
  }

  /** With logs in block order, a stop never does both: it loses deposits or credits one again. */
  lemma NeverBoth(stream: seq<Deposit>, boundary: nat, n: nat)
    requires InBlockOrder(stream) && n <= |LiveWrites(stream, boundary)|
    ensures Lost(stream, boundary, n) == [] || Again(stream, boundary, n) == []
  {
    hide LiveWrites, ReachedBlock, Saved;
    SavedIsPrefix(stream, boundary, n);
    AboveInOrder(stream, boundary);
    var saved, k, above := Saved(stream, boundary, n), ReachedBlock(stream, boundary, n), Above(stream, boundary);
    AboveIs(saved, k);
    var again, unsaved := Again(stream, boundary, n), above[|saved|..];
    if again != [] {
      assert again[0] in again;
      var i :| 0 <= i < |saved| && saved[i] == again[0];
      forall d | d in unsaved ensures d.blockNumber > k {
        var j :| 0 <= j < |unsaved| && unsaved[j] == d;
        assert above[i] == again[0] && above[|saved| + j] == d;
      }
      NothingIn(unsaved, 0, k);
    }
  }

  lemma {:induction false} NothingIn(deposits: seq<Deposit>, first: nat, last: nat)
    requires forall d :: d in deposits ==> !(first <= d.blockNumber <= last)
    ensures DepositsIn(deposits, first, last) == []
  {
    if deposits != [] {
      assert deposits == deposits[..|deposits| - 1] + [deposits[|deposits| - 1]];
      NothingIn(deposits[..|deposits| - 1], first, last);
    }
  }

  /** On every account the two add up to the same. */
  ghost predicate SameSums(a: seq<Deposit>, b: seq<Deposit>) {
    forall u, t :: SumsOf(a)(u, t) == SumsOf(b)(u, t)
  }

  /** Exactly once across a stop after any statement, for logs in any order and a subscription started
      at any time: if and only if, on every account, what is credited again makes up for what is missed
      and lost. */
  lemma StoppedLiveExactIff(s: SyncState, s2: SyncState, chain: seq<Deposit>, stream: seq<Deposit>, deployBlock: nat,
                            boundary: nat, since: nat, last: nat, n: nat, head: nat)
    requires StartsAt(s.cursor, chain, deployBlock, boundary)
    requires Delivers(stream, chain, since, last) && since <= last
    requires n <= |LiveWrites(stream, boundary)|
    requires SyncedTo(Played(s, LiveWrites(stream, boundary)[..n]), s2, chain, deployBlock, head)
    ensures Gained(s.ledger, s2.ledger, RangeSumsOf(chain, boundary + 1, Max(ReachedBlock(stream, boundary, n), head)))
            <==> SameSums(Missed(chain, stream, boundary, since, n) + Lost(stream, boundary, n),
                          Again(stream, boundary, n))
  {
    hide BalanceOf, RangeSum, DepositSum, Delivers, LiveWrites, Played, StartsAt, SyncedTo, Lost, Again, Missed,
      ReachedBlock;
    var gain := RangeSumsOf(chain, boundary + 1, Max(ReachedBlock(stream, boundary, n), head));
    var missed, lost, again := Missed(chain, stream, boundary, since, n), Lost(stream, boundary, n),
        Again(stream, boundary, n);
    if Gained(s.ledger, s2.ledger, gain) {
      forall u, t ensures SumsOf(missed + lost)(u, t) == SumsOf(again)(u, t) {
        SumAppend(missed, lost, u, t);
        StoppedLive(s, s2, chain, stream, deployBlock, boundary, since, last, n, head, u, t);
        assert BalanceOf(s2.ledger, u, t)
               == TokenBalance(BalanceOf(s.ledger, u, t).available + gain(u, t), BalanceOf(s.ledger, u, t).reserved);
      }
    }
    if SameSums(missed + lost, again) {
      forall u, t ensures BalanceOf(s2.ledger, u, t)
                          == TokenBalance(BalanceOf(s.ledger, u, t).available + gain(u, t),
                                          BalanceOf(s.ledger, u, t).reserved) {
        StoppedLive(s, s2, chain, stream, deployBlock, boundary, since, last, n, head, u, t);
        SumAppend(missed, lost, u, t);
        assert SumsOf(missed + lost)(u, t) == SumsOf(again)(u, t);
      }
    }
  }

  /** With logs in block order and a subscription no later than the boundary: if and only if nothing
      with an amount is lost and nothing with an amount is credited again. */
  lemma StoppedInOrderExactIff(s: SyncState, s2: SyncState, chain: seq<Deposit>, stream: seq<Deposit>, deployBlock: nat,
                               boundary: nat, since: nat, last: nat, n: nat, head: nat)
    requires StartsAt(s.cursor, chain, deployBlock, boundary)
    requires Delivers(stream, chain, since, last) && since <= last && since <= boundary && InBlockOrder(stream)
    requires n <= |LiveWrites(stream, boundary)|
    requires SyncedTo(Played(s, LiveWrites(stream, boundary)[..n]), s2, chain, deployBlock, head)
    ensures Gained(s.ledger, s2.ledger, RangeSumsOf(chain, boundary + 1, Max(ReachedBlock(stream, boundary, n), head)))
            <==> NoAmounts(Lost(stream, boundary, n)) && NoAmounts(Again(stream, boundary, n))
  {
    hide RangeSum, DepositSum, Delivers, LiveWrites, Played, StartsAt, SyncedTo, Lost, Again, Gained, ReachedBlock,
      InBlockOrder;
    var lost, again := Lost(stream, boundary, n), Again(stream, boundary, n);
    NeverBoth(stream, boundary, n);
    StoppedLiveExactIff(s, s2, chain, stream, deployBlock, boundary, since, last, n, head);
    NothingMissed(chain, stream, boundary, since, n);
    assert [] + lost == lost;
    if NoAmounts(lost) && NoAmounts(again) {
      forall u, t ensures SumsOf(lost)(u, t) == SumsOf(again)(u, t) {
        ZerosShowNothing(lost, u, t);
        ZerosShowNothing(again, u, t);
      }
    } else {
      var d: Deposit :| d in lost + again && d.amount > 0;
      if d in lost {
        PositiveShows(lost, d);
        ZerosShowNothing(again, d.user, d.token);
      } else {
        PositiveShows(again, d);
        ZerosShowNothing(lost, d.user, d.token);
      }
      assert SumsOf(lost)(d.user, d.token) != SumsOf(again)(d.user, d.token);
    }
  }

  // ----- Where a stop can fall -----

  /** The service has dealt with the first `j` events of the stream and, when `half`, has written the row
      of the next one, which opens a new block, but not moved the cursor. */
  ghost predicate StopsAt(stream: seq<Deposit>, boundary: nat, j: nat, half: bool) {
    && j <= |stream|
    && (half ==> j < |stream| && stream[j].blockNumber > HighestBlock(stream[..j], boundary))
  }

  /** How many statements were committed by then. */
  function WritesUntil(stream: seq<Deposit>, boundary: nat, j: nat, half: bool): nat
    requires j <= |stream|
  {
    |LiveWrites(stream[..j], boundary)| + if half then 1 else 0
  }

  lemma {:induction false} LiveWritesPrefix(stream: seq<Deposit>, boundary: nat, j: nat)
    requires j <= |stream|
    ensures LiveWrites(stream[..j], boundary) <= LiveWrites(stream, boundary)
    decreases |stream|
  {
    if j == |stream| {
      assert stream[..j] == stream;
    } else {
      var init := stream[..|stream| - 1];
      LiveWritesPrefix(init, boundary, j);
      assert init[..j] == stream[..j];
    }
  }

  /** The statements committed at such a stop. */
  lemma WritesAt(stream: seq<Deposit>, boundary: nat, j: nat, half: bool)
    requires StopsAt(stream, boundary, j, half)
    ensures var n := WritesUntil(stream, boundary, j, half);
            && n <= |LiveWrites(stream, boundary)|
            && LiveWrites(stream, boundary)[..n]
               == LiveWrites(stream[..j], boundary) + if half then [SaveRow(stream[j])] else []
  {
    hide LiveWrites;
    LiveWritesPrefix(stream, boundary, j);
    if half {
      LiveWritesPrefix(stream, boundary, j + 1);
      assert stream[..j + 1] == stream[..j] + [stream[j]];
      AboveSnoc(stream[..j], stream[j], boundary);
      LiveWritesSnoc(stream[..j], stream[j], boundary);
      var n, more := |LiveWrites(stream[..j], boundary)|, WritesFor(stream[j], HighestBlock(stream[..j], boundary));
      assert LiveWrites(stream, boundary)[..n + 1] == (LiveWrites(stream[..j], boundary) + more)[..n + 1];
    }
  }

  /** There are no other stops. */
  lemma {:induction false} EveryStop(stream: seq<Deposit>, boundary: nat, n: nat) returns (j: nat, half: bool)
    requires n <= |LiveWrites(stream, boundary)|
    ensures StopsAt(stream, boundary, j, half) && n == WritesUntil(stream, boundary, j, half)
    decreases |stream|
  {
    if n == |LiveWrites(stream, boundary)| {
      j, half := |stream|, false;
      assert stream[..j] == stream;
    } else {
      var init, d := stream[..|stream| - 1], stream[|stream| - 1];
      if n <= |LiveWrites(init, boundary)| {
        j, half := EveryStop(init, boundary, n);
        assert init[..j] == stream[..j];
      } else {
        j, half := |stream| - 1, true;
      }
    }
  }

  lemma CursorSnoc(cursor: Option<nat>, writes: seq<Write>, w: Write)
    ensures CursorAfter(cursor, writes + [w]) == if w.MoveCursor? then Some(w.block) else CursorAfter(cursor, writes)
  {
    assert (writes + [w])[..|writes|] == writes;
  }

  lemma {:induction false} CursorFollows(stream: seq<Deposit>, boundary: nat)
    ensures CursorAfter(Some(boundary), LiveWrites(stream, boundary)) == Some(HighestBlock(stream, boundary))
  {
    if stream == [] {
      return;
    }
    var init, d := stream[..|stream| - 1], stream[|stream| - 1];
    assert stream == init + [d];
    CursorFollows(init, boundary);
    CursorTurn(init, d, boundary);
  }

  lemma CursorTurn(init: seq<Deposit>, d: Deposit, boundary: nat)
    requires CursorAfter(Some(boundary), LiveWrites(init, boundary)) == Some(HighestBlock(init, boundary))
    ensures CursorAfter(Some(boundary), LiveWrites(init + [d], boundary)) == Some(HighestBlock(init + [d], boundary))
  {
    hide CursorAfter, LiveWrites, HighestBlock;
    var writes, highest := LiveWrites(init, boundary), HighestBlock(init, boundary);
    AboveSnoc(init, d, boundary);
    LiveWritesSnoc(init, d, boundary);
    CursorSnoc(Some(boundary), writes, SaveRow(d));
    CursorSnoc(Some(boundary), writes + [SaveRow(d)], MoveCursor(d.blockNumber));
    assert writes + [] == writes && [SaveRow(d)] + [] == [SaveRow(d)];
    assert writes + ([SaveRow(d)] + [MoveCursor(d.blockNumber)]) == writes + [SaveRow(d)] + [MoveCursor(d.blockNumber)];
  }

  /** What is saved at a stop, and the block it resumes after. */
  lemma SavedAt(stream: seq<Deposit>, boundary: nat, j: nat, half: bool)
    requires StopsAt(stream, boundary, j, half)
    ensures var n := WritesUntil(stream, boundary, j, half);
            && n <= |LiveWrites(stream, boundary)|
            && Saved(stream, boundary, n) == Above(stream[..j], boundary) + (if half then [stream[j]] else [])
            && ReachedBlock(stream, boundary, n) == HighestBlock(stream[..j], boundary)
  {
    hide LiveWrites;
    WritesAt(stream, boundary, j, half);
    LiveSaves(stream[..j], boundary);
    CursorFollows(stream[..j], boundary);
    var writes := LiveWrites(stream[..j], boundary);
    if half {
      assert (writes + [SaveRow(stream[j])])[..|writes|] == writes;
    } else {
      assert writes + [] == writes;
      assert Above(stream[..j], boundary) + [] == Above(stream[..j], boundary);
    }
  }

  /** The deposits still to come at a stop. */
  lemma {:induction false} AboveConcat(a: seq<Deposit>, b: seq<Deposit>, boundary: nat)
    ensures Above(a + b, boundary) == Above(a, boundary) + Above(b, boundary)
    decreases |b|
  {
    if b == [] {
      assert a + b == a;
    } else {
      assert (a + b)[..|a + b| - 1] == a + b[..|b| - 1];
      AboveConcat(a, b[..|b| - 1], boundary);
    }
  }

  /** A stop between two events: what is lost are the deposits still to come of the block reached. A stop
      between a row and the cursor: what is credited again is that one deposit. */
  lemma LossAt(stream: seq<Deposit>, boundary: nat, j: nat, half: bool)
    requires StopsAt(stream, boundary, j, half) && InBlockOrder(stream)
    ensures WritesUntil(stream, boundary, j, half) <= |LiveWrites(stream, boundary)|
    ensures var n, k := WritesUntil(stream, boundary, j, half), HighestBlock(stream[..j], boundary);
            if half then Lost(stream, boundary, n) == [] && Again(stream, boundary, n) == [stream[j]]
            else
              && Again(stream, boundary, n) == []
              && forall d :: d in Lost(stream, boundary, n) <==> boundary < d.blockNumber == k && d in stream[j..]
  {
    hide LiveWrites, Saved, ReachedBlock, HighestBlock, WritesUntil;
    SavedAt(stream, boundary, j, half);
    var n, k := WritesUntil(stream, boundary, j, half), HighestBlock(stream[..j], boundary);
    var done := Above(stream[..j], boundary);
    HighestIsHighest(stream[..j], boundary);
    AboveIs(stream[..j], boundary);
    NothingAbove(done, k);
    assert stream == stream[..j] + stream[j..];
    AboveConcat(stream[..j], stream[j..], boundary);
    SavedIsPrefix(stream, boundary, n);
    if half {
      AboveSnoc(done, stream[j], k);
      NeverBoth(stream, boundary, n);
    } else {
      assert done + [] == done;
      assert Above(stream, boundary)[|done|..] == Above(stream[j..], boundary);
      DepositsInAre(Above(stream[j..], boundary), 0, k);
      AboveIs(stream[j..], boundary);
      forall d | d in stream[j..] && boundary < d.blockNumber <= k ensures d.blockNumber == k {
        ReachedInOrder(stream, boundary, j, d);
      }
    }
  }

  lemma {:induction false} NothingAbove(deposits: seq<Deposit>, k: nat)
    requires forall d :: d in deposits ==> d.blockNumber <= k
    ensures Above(deposits, k) == []
  {
    if deposits != [] {
      assert deposits == deposits[..|deposits| - 1] + [deposits[|deposits| - 1]];
      NothingAbove(deposits[..|deposits| - 1], k);
    }
  }

  lemma {:induction false} HighestIsHighest(stream: seq<Deposit>, boundary: nat)
    ensures forall d :: d in stream ==> d.blockNumber <= HighestBlock(stream, boundary)
    ensures HighestBlock(stream, boundary) == boundary
            || exists d :: d in stream && d.blockNumber == HighestBlock(stream, boundary)
  {
    if stream != [] {
      assert stream == stream[..|stream| - 1] + [stream[|stream| - 1]];
      HighestIsHighest(stream[..|stream| - 1], boundary);
    }
  }

  lemma ReachedInOrder(stream: seq<Deposit>, boundary: nat, j: nat, d: Deposit)
    requires j <= |stream| && InBlockOrder(stream) && d in stream[j..]
    requires boundary < d.blockNumber <= HighestBlock(stream[..j], boundary)
    ensures d.blockNumber == HighestBlock(stream[..j], boundary)
  {
    hide HighestBlock;
    HighestIsHighest(stream[..j], boundary);
    var e :| e in stream[..j] && e.blockNumber == HighestBlock(stream[..j], boundary);
    var a :| 0 <= a < j && stream[a] == e;
    var b :| j <= b < |stream| && stream[b] == d;
    assert stream[a].blockNumber <= stream[b].blockNumber;
  }

  /** Exactly once, by where the stop falls. Between a row and the cursor: if and only if that deposit has
      no amount. Between two events: if and only if no deposit still to come of the block reached has. */
  lemma StopPositionExactIff(s: SyncState, s2: SyncState, chain: seq<Deposit>, stream: seq<Deposit>, deployBlock: nat,
                             boundary: nat, since: nat, last: nat, j: nat, half: bool, head: nat)
    requires StartsAt(s.cursor, chain, deployBlock, boundary)
    requires Delivers(stream, chain, since, last) && since <= last && since <= boundary && InBlockOrder(stream)
    requires StopsAt(stream, boundary, j, half)
    requires WritesUntil(stream, boundary, j, half) <= |LiveWrites(stream, boundary)|
    requires SyncedTo(Played(s, LiveWrites(stream, boundary)[..WritesUntil(stream, boundary, j, half)]), s2, chain,
                      deployBlock, head)
    ensures Gained(s.ledger, s2.ledger,
                   RangeSumsOf(chain, boundary + 1, Max(HighestBlock(stream[..j], boundary), head)))
            <==> if half then stream[j].amount == 0
                 else forall d :: d in stream[j..] && boundary < d.blockNumber == HighestBlock(stream[..j], boundary)
                        ==> d.amount == 0
  {
    hide LiveWrites, Played, StartsAt, SyncedTo, Lost, Again, Gained, ReachedBlock, InBlockOrder, HighestBlock,
      Delivers, WritesUntil;
    var n := WritesUntil(stream, boundary, j, half);
    SavedAt(stream, boundary, j, half);
    LossAt(stream, boundary, j, half);
    StoppedInOrderExactIff(s, s2, chain, stream, deployBlock, boundary, since, last, n, head);
    if half {
      assert stream[j] in Again(stream, boundary, n);
    }
  }

  lemma NothingMissed(chain: seq<Deposit>, stream: seq<Deposit>, boundary: nat, since: nat, n: nat)
    requires since <= boundary && n <= |LiveWrites(stream, boundary)|
    ensures Missed(chain, stream, boundary, since, n) == []
  {
    hide LiveWrites, ReachedBlock;
    NothingIn(chain, boundary + 1, Min(since, ReachedBlock(stream, boundary, n)));
  }

  // ----- Stopping the replay inside a chunk -----

  /** The service stops when the first `m` rows of a chunk are written and the cursor is not moved. What
      a reload finds. */
  function StoppedInChunk(db: Tables, b: Balances, chunk: seq<Deposit>, m: nat): SyncState
    requires m <= |chunk|
  {
    SyncState(LoadedBalances(RowsSaved(db.balances, b, chunk[..m])), db.lastSyncedBlock)
  }

  /** The next replay reads the chunk again: the accounts whose rows were written gain it twice. */
  lemma StoppedChunk(b: Balances, db: Tables, credited: Balances, s2: SyncState, chain: seq<Deposit>, deployBlock: nat,
                     last: nat, m: nat, head: nat, u: Address, t: Address)
    requires Mirrored(b, db)
    requires var chunk := DepositsIn(chain, StartBlock(db.lastSyncedBlock, deployBlock), last);
             && Gained(b, credited, SumsOf(chunk)) && m <= |chunk|
             && SyncedTo(StoppedInChunk(db, credited, chunk, m), s2, chain, deployBlock, head)
    ensures var start := StartBlock(db.lastSyncedBlock, deployBlock);
            BalanceOf(s2.ledger, u, t)
            == TokenBalance(BalanceOf(b, u, t).available + RangeSum(chain, start, head, u, t)
                              + (if Concerns(DepositsIn(chain, start, last)[..m], u, t)
                                 then RangeSum(chain, start, last, u, t) else 0),
                            BalanceOf(b, u, t).reserved)
  {
    hide BalanceOf, DepositsIn, LoadedBalances, RowsSaved, Concerns, SyncedTo;
    var start := StartBlock(db.lastSyncedBlock, deployBlock);
    var chunk := DepositsIn(chain, start, last);
    var rows := RowsSaved(db.balances, credited, chunk[..m]);
    SyncGains(StoppedInChunk(db, credited, chunk, m), s2, chain, deployBlock, head, u, t);
    LoadedMirrors(db.(balances := rows));
    RowsSavedAre(db.balances, credited, chunk[..m]);
    assert BalanceRow(db, u, t) == BalanceOf(b, u, t);
    assert BalanceOf(LoadedBalances(rows), u, t) == BalanceRow(db.(balances := rows), u, t);
    assert BalanceOf(credited, u, t)
           == TokenBalance(BalanceOf(b, u, t).available + SumsOf(chunk)(u, t), BalanceOf(b, u, t).reserved);
  }

  /** Exactly once across such a stop, if and only if the chunk brings no amount to any account whose
      row was written. */
  lemma StoppedChunkExactIff(b: Balances, db: Tables, credited: Balances, s2: SyncState, chain: seq<Deposit>,
                             deployBlock: nat,
                             last: nat, m: nat, head: nat)
    requires Mirrored(b, db)
    requires var chunk := DepositsIn(chain, StartBlock(db.lastSyncedBlock, deployBlock), last);
             && Gained(b, credited, SumsOf(chunk)) && m <= |chunk|
             && SyncedTo(StoppedInChunk(db, credited, chunk, m), s2, chain, deployBlock, head)
    ensures var start := StartBlock(db.lastSyncedBlock, deployBlock);
            var chunk := DepositsIn(chain, start, last);
            Gained(b, s2.ledger, RangeSumsOf(chain, start, head))
            <==> forall d :: d in chunk && Concerns(chunk[..m], d.user, d.token) ==> d.amount == 0
  {
    hide BalanceOf, DepositsIn, StoppedInChunk, Concerns, SyncedTo, DepositSum, Mirrored;
    var start := StartBlock(db.lastSyncedBlock, deployBlock);
    var chunk, gain := DepositsIn(chain, start, last), RangeSumsOf(chain, start, head);
    if d :| d in chunk && Concerns(chunk[..m], d.user, d.token) && d.amount > 0 {
      StoppedChunk(b, db, credited, s2, chain, deployBlock, last, m, head, d.user, d.token);
      PositiveShows(chunk, d);
      assert gain(d.user, d.token) == RangeSum(chain, start, head, d.user, d.token);
    } else {
      forall u, t ensures BalanceOf(s2.ledger, u, t)
                          == TokenBalance(BalanceOf(b, u, t).available + gain(u, t), BalanceOf(b, u, t).reserved) {
        StoppedChunk(b, db, credited, s2, chain, deployBlock, last, m, head, u, t);
        if Concerns(chunk[..m], u, t) {
          ZerosShowNothing(chunk, u, t);
        }
      }
    }
  }

  // ----- Ways to go wrong -----

  const NOBODY: SyncState := SyncState(map[], Some(3))

  lemma TwoInBlockSeven(u: Address, t: Address)
    ensures var first, second := Deposit(u, t, 100, 7), Deposit(u, t, 50, 7);
            && LiveWrites([first, second], 3) == [SaveRow(first), MoveCursor(7), SaveRow(second)]
            && DepositsIn([first, second], 4, 10) == [first, second]
            && RangeSum([first, second], 8, 10, u, t) == 0 && RangeSum([first, second], 4, 10, u, t) == 150
  {
    var first, second := Deposit(u, t, 100, 7), Deposit(u, t, 50, 7);
    assert [first, second][..1] == [first] && [first][..0] == [];
    assert HighestBlock([first], 3) == 7 && HighestBlock([], 3) == 3;
    assert LiveWrites([first], 3) == [SaveRow(first), MoveCursor(7)];
    assert DepositsIn([first], 4, 10) == [first];
    assert DepositSum([first], u, t) == 100;
    RangeOfSome([first, second], 8, 10, u, t);
  }

  /** Two deposits in one block, stopped once the cursor followed the first: the second is lost. */
  lemma SecondDepositOfABlockIsLost(s2: SyncState, u: Address, t: Address)
    requires var first, second := Deposit(u, t, 100, 7), Deposit(u, t, 50, 7);
             && |LiveWrites([first, second], 3)| >= 2
             && SyncedTo(Played(NOBODY, LiveWrites([first, second], 3)[..2]), s2, [first, second], 1, 10)
    ensures BalanceOf(s2.ledger, u, t).available == 100
  {
    hide LiveWrites, SyncedTo, RangeSum, BalanceOf, WithBalance;
    var first, second := Deposit(u, t, 100, 7), Deposit(u, t, 50, 7);
    TwoInBlockSeven(u, t);
    NobodyHolds(u, t);
    var writes := LiveWrites([first, second], 3)[..2];
    assert writes == [SaveRow(first), MoveCursor(7)] && writes[..1] == [SaveRow(first)] && [SaveRow(first)][..0] == [];
    SyncGains(Played(NOBODY, writes), s2, [first, second], 1, 10, u, t);
    PlayedFor(NOBODY, first, 3);
    assert writes == WritesFor(first, 3);
  }

  /** Stopped between the row of the first and the cursor: the first is credited again. */
  lemma FirstDepositOfABlockCountsTwice(s2: SyncState, u: Address, t: Address)
    requires var first, second := Deposit(u, t, 100, 7), Deposit(u, t, 50, 7);
             && |LiveWrites([first, second], 3)| >= 1
             && SyncedTo(Played(NOBODY, LiveWrites([first, second], 3)[..1]), s2, [first, second], 1, 10)
    ensures BalanceOf(s2.ledger, u, t).available == 250
  {
    hide LiveWrites, SyncedTo, RangeSum, BalanceOf, WithBalance;
    var first, second := Deposit(u, t, 100, 7), Deposit(u, t, 50, 7);
    TwoInBlockSeven(u, t);
    var writes := LiveWrites([first, second], 3)[..1];
    assert writes == [SaveRow(first)] && writes[..0] == [];
    assert Played(NOBODY, writes) == Written(NOBODY, SaveRow(first));
    NobodyHolds(u, t);
    SyncGains(Played(NOBODY, writes), s2, [first, second], 1, 10, u, t);
  }

  lemma NobodyHolds(u: Address, t: Address)
    ensures BalanceOf(NOBODY.ledger, u, t) == TokenBalance(0, 0)
  {
  }

  lemma OneInBlockSeven(u: Address, t: Address)
    ensures var chain := [Deposit(u, t, 100, 7)];
            && DepositsIn(chain, 4, 10) == chain && Concerns(chain, u, t) && RangeSum(chain, 4, 10, u, t) == 100
  {
    hide DepositSum;
    var none: seq<Deposit>, d := [], Deposit(u, t, 100, 7);
    assert [d][..0] == none && none + [d] == [d] && d in [d];
    SumSnoc(none, d, u, t);
    NothingSummed(u, t);
  }

  lemma NothingSummed(u: Address, t: Address)
    ensures DepositSum([], u, t) == 0
  {
  }

  lemma OneCredited(u: Address, t: Address)
    ensures Gained(map[], Credited(map[], u, t, 100), SumsOf([Deposit(u, t, 100, 7)]))
  {
    hide Gained, Credited, DepositSum;
    var none: seq<Deposit>, d := [], Deposit(u, t, 100, 7);
    NothingGained(map[]);
    CreditGains(map[], map[], Credited(map[], u, t, 100), none, d);
    assert none + [d] == [d];
  }

  /** The replay stops between the row of a chunk's only deposit and the cursor: it is credited again. */
  lemma ChunkCountsTwice(s2: SyncState, u: Address, t: Address)
    requires var db := EMPTY_TABLES.(lastSyncedBlock := Some(3));
             SyncedTo(StoppedInChunk(db, Credited(map[], u, t, 100), [Deposit(u, t, 100, 7)], 1), s2,
                      [Deposit(u, t, 100, 7)], 1, 10)
    ensures BalanceOf(s2.ledger, u, t).available == 200
  {
    hide SyncedTo, StoppedInChunk, Gained, Credited, RangeSum, DepositsIn, Concerns;
    var db, chain := EMPTY_TABLES.(lastSyncedBlock := Some(3)), [Deposit(u, t, 100, 7)];
    OneInBlockSeven(u, t);
    OneCredited(u, t);
    assert chain[..1] == chain;
    StoppedChunk(map[], db, Credited(map[], u, t, 100), s2, chain, 1, 10, 1, 10, u, t);
  }

  /** The head was read at block 6 and the subscription starts after block 7: both deposits are
      missed. */
  lemma LateSubscriptionMisses(s1: SyncState, u: Address, t: Address)
    requires var chain := [Deposit(u, t, 100, 7), Deposit(u, t, 50, 7)]; SyncedTo(NOBODY, s1, chain, 1, 6)
    ensures var chain := [Deposit(u, t, 100, 7), Deposit(u, t, 50, 7)];
            && Delivers([], chain, 7, 10)
            && BalanceOf(Played(s1, LiveWrites([], Boundary(s1.cursor, 6))).ledger, u, t).available == 0
            && RangeSum(chain, 4, 10, u, t) == 150
  {
    var chain := [Deposit(u, t, 100, 7), Deposit(u, t, 50, 7)];
    TwoInBlockSeven(u, t);
    NothingIn(chain, 8, 10);
    RangeOfSome(chain, 4, 6, u, t);
    SyncGains(NOBODY, s1, chain, 1, 6, u, t);
  }
}
