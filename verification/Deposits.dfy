/** Crediting on-chain deposits: the historical replay in chunks and the live subscription, with the
    statements each of them commits. */
module Deposits {
  import opened Types
  import opened Ledgers
  import opened Persistence

  const CHUNK_SIZE: nat := 2000

  // ----- Sums -----

  function DepositOf(d: Deposit, u: Address, t: Address): nat {
    if d.user == u && d.token == t then d.amount else 0
  }

  function DepositSum(deposits: seq<Deposit>, u: Address, t: Address): nat {
    if deposits == [] then 0
    else DepositSum(deposits[..|deposits| - 1], u, t) + DepositOf(deposits[|deposits| - 1], u, t)
  }

  /** What `get_deposits_in_range` answers, both ends included. */
  function DepositsIn(chain: seq<Deposit>, first: nat, last: nat): seq<Deposit> {
    if chain == [] then []
    else
      var d := chain[|chain| - 1];
      DepositsIn(chain[..|chain| - 1], first, last) + (if first <= d.blockNumber <= last then [d] else [])
  }

  function RangeSum(chain: seq<Deposit>, first: nat, last: nat, u: Address, t: Address): nat {
    DepositSum(DepositsIn(chain, first, last), u, t)
  }

  lemma {:induction false} RangeSumSnoc(chain: seq<Deposit>, d: Deposit, first: nat, last: nat, u: Address, t: Address)
    ensures RangeSum(chain + [d], first, last, u, t)
            == RangeSum(chain, first, last, u, t) + (if first <= d.blockNumber <= last then DepositOf(d, u, t) else 0)
  {
    assert (chain + [d])[..|chain|] == chain;
    var r := DepositsIn(chain, first, last);
    assert (r + [d])[..|r|] == r && r + [] == r;
  }

  /** Cutting a range of blocks in two loses and repeats nothing, in whatever order the deposits come. */
  lemma {:induction false} RangeSplits(chain: seq<Deposit>, first: nat, mid: nat, last: nat, u: Address, t: Address)
    requires first <= mid + 1 && mid <= last
    ensures RangeSum(chain, first, mid, u, t) + RangeSum(chain, mid + 1, last, u, t)
            == RangeSum(chain, first, last, u, t)
  {
    hide RangeSum, DepositOf;
    if chain == [] {
      NoRange(first, mid, u, t);
      NoRange(mid + 1, last, u, t);
      NoRange(first, last, u, t);
    } else {
      var init, d := chain[..|chain| - 1], chain[|chain| - 1];
      assert chain == init + [d];
      RangeSplits(init, first, mid, last, u, t);
      RangeSumSnoc(init, d, first, mid, u, t);
      RangeSumSnoc(init, d, mid + 1, last, u, t);
      RangeSumSnoc(init, d, first, last, u, t);
    }
  }

  lemma NoRange(first: nat, last: nat, u: Address, t: Address)
    ensures RangeSum([], first, last, u, t) == 0
  {
  }

  /** Every account gained exactly these deposits, all of it available. */
  ghost predicate Gained(b: Balances, c: Balances, gain: (Address, Address) -> nat) {
    forall u, t :: BalanceOf(c, u, t)
        == TokenBalance(BalanceOf(b, u, t).available + gain(u, t), BalanceOf(b, u, t).reserved)
  }

  ghost function SumsOf(deposits: seq<Deposit>): (Address, Address) -> nat {
    (u, t) => DepositSum(deposits, u, t)
  }

  ghost function RangeSumsOf(chain: seq<Deposit>, first: nat, last: nat): (Address, Address) -> nat {
    (u, t) => RangeSum(chain, first, last, u, t)
  }

  // ----- The service -----

  datatype SyncState = SyncState(ledger: Balances, cursor: Option<nat>)

  function StartBlock(cursor: Option<nat>, deployBlock: nat): nat {
    if cursor.Some? then cursor.value + 1 else deployBlock
  }

  /** What one historical replay up to `head` does. */
  ghost predicate SyncedTo(s: SyncState, s': SyncState, chain: seq<Deposit>, deployBlock: nat, head: nat) {
    var start := StartBlock(s.cursor, deployBlock);
    if start > head then SameBalances(s'.ledger, s.ledger) && s'.cursor == s.cursor
    else Gained(s.ledger, s'.ledger, RangeSumsOf(chain, start, head)) && s'.cursor == Some(head)
  }

  /** The two statements that the service commits one by one. */
  datatype Write = SaveRow(deposit: Deposit) | MoveCursor(block: nat)

  /** What a reload finds after one statement: the ledger of the rows, and the cursor. */
  function Written(s: SyncState, w: Write): SyncState {
    match w
    case SaveRow(d) => s.(ledger := Credited(s.ledger, d.user, d.token, d.amount))
    case MoveCursor(block) => s.(cursor := Some(block))
  }

  function Played(s: SyncState, writes: seq<Write>): SyncState {
    if writes == [] then s
    else Written(Played(s, writes[..|writes| - 1]), writes[|writes| - 1])
  }

  /** The statements for one live deposit: its row, and the cursor when the block is a new one. */
  function WritesFor(d: Deposit, highest: nat): seq<Write> {
    [SaveRow(d)] + if d.blockNumber > highest then [MoveCursor(d.blockNumber)] else []
  }

  /** All statements of the live loop over a stream. */
  function LiveWrites(stream: seq<Deposit>, boundary: nat): seq<Write> {
    if stream == [] then []
    else
      var init, d := stream[..|stream| - 1], stream[|stream| - 1];
      LiveWrites(init, boundary)
      + if d.blockNumber <= boundary then [] else WritesFor(d, HighestBlock(init, boundary))
  }

  /** Where the live loop begins once the replay is done: at the head, or at a cursor ahead of it. */
  function Boundary(cursor: Option<nat>, head: nat): nat {
    if cursor.Some? && cursor.value > head then cursor.value else head
  }

  /** The rows of the accounts of these deposits, overwritten with the ledger's balances. */
  function RowsSaved(rows: map<(Address, Address), TokenBalance>, b: Balances, deposits: seq<Deposit>):
    map<(Address, Address), TokenBalance>
  {
    if deposits == [] then rows
    else
      var d := deposits[|deposits| - 1];
      RowsSaved(rows, b, deposits[..|deposits| - 1])[(d.user, d.token) := BalanceOf(b, d.user, d.token)]
  }

  ghost predicate Concerns(deposits: seq<Deposit>, u: Address, t: Address) {
    exists d :: d in deposits && d.user == u && d.token == t
  }

  lemma {:induction false} RowsSavedAre(rows: map<(Address, Address), TokenBalance>, b: Balances,
                                        deposits: seq<Deposit>)
    ensures forall u, t :: Concerns(deposits, u, t)
              ==> (u, t) in RowsSaved(rows, b, deposits) && RowsSaved(rows, b, deposits)[(u, t)] == BalanceOf(b, u, t)
    ensures forall u, t :: !Concerns(deposits, u, t)
              ==> ((u, t) in RowsSaved(rows, b, deposits) <==> (u, t) in rows)
                  && ((u, t) in rows ==> RowsSaved(rows, b, deposits)[(u, t)] == rows[(u, t)])
  {
    hide BalanceOf;
    if deposits != [] {
      var init, d := deposits[..|deposits| - 1], deposits[|deposits| - 1];
      assert deposits == init + [d];
      RowsSavedAre(rows, b, init);
      forall u, t ensures Concerns(deposits, u, t) <==> Concerns(init, u, t) || (d.user == u && d.token == t) {
        assert forall x :: x in deposits <==> x in init || x == d;
      }
    }
  }

  class DepositService {
    const ledger: Ledger
    const db: Db
    const contractDeployBlock: nat

    constructor (ledger: Ledger, db: Db, contractDeployBlock: nat)
      ensures this.ledger == ledger && this.db == db && this.contractDeployBlock == contractDeployBlock
    {
      this.ledger, this.db, this.contractDeployBlock := ledger, db, contractDeployBlock;
    }

    ghost function State(): SyncState
      reads this, ledger, db
    {
      SyncState(ledger.balances, db.lastSyncedBlock)
    }

    method CreditAll(deposits: seq<Deposit>)
      modifies ledger
      ensures Gained(old(ledger.balances), ledger.balances, SumsOf(deposits))
      ensures forall u, t :: BalanceOf(ledger.balances, u, t) == BalanceOf(old(ledger.balances), u, t)
                             || Concerns(deposits, u, t)
    {
      hide WithBalance, BalanceOf;
      for k := 0 to |deposits|
        invariant Gained(old(ledger.balances), ledger.balances, SumsOf(deposits[..k]))
        invariant forall u, t :: BalanceOf(ledger.balances, u, t) == BalanceOf(old(ledger.balances), u, t)
                                 || Concerns(deposits[..k], u, t)
      {
        assert deposits[..k + 1][..k] == deposits[..k];
        assert deposits[..k + 1] == deposits[..k] + [deposits[k]];
        assert forall d :: d in deposits[..k + 1] <==> d in deposits[..k] || d == deposits[k];
        ledger.Credit(deposits[k].user, deposits[k].token, deposits[k].amount);
      }
      assert deposits[..|deposits|] == deposits;
    }

    /** Write the balances of the credited accounts, one row at a time. */
    method SaveAll(deposits: seq<Deposit>)
      modifies db
      ensures db.State() == old(db.State()).(balances := RowsSaved(old(db.balances), ledger.balances, deposits))
    {
      hide BalanceOf;
      assert deposits[..0] == [];
      for k := 0 to |deposits|
        invariant db.State() == old(db.State()).(balances := RowsSaved(old(db.balances), ledger.balances,
            deposits[..k]))
      {
        assert deposits[..k + 1][..k] == deposits[..k];
        var d := deposits[k];
        db.SaveBalance(d.user, d.token, BalanceOf(ledger.balances, d.user, d.token));
      }
      assert deposits[..|deposits|] == deposits;
    }

    /** One chunk: credit, save, move the cursor. */
    method SyncChunk(chain: seq<Deposit>, first: nat, last: nat)
      requires Mirrored(ledger.balances, db.State())
      modifies ledger, db
      ensures Mirrored(ledger.balances, db.State())
      ensures Gained(old(ledger.balances), ledger.balances, RangeSumsOf(chain, first, last))
      ensures db.State() == old(db.State()).(balances := db.balances, lastSyncedBlock := Some(last))
    {
      hide BalanceOf, DepositsIn;
      var deposits := DepositsIn(chain, first, last);
      CreditAll(deposits);
      RowsSavedAre(db.balances, ledger.balances, deposits);
      SaveAll(deposits);
      forall u, t ensures BalanceOf(ledger.balances, u, t)
                          == if (u, t) in db.balances then db.balances[(u, t)] else TokenBalance(0, 0) {
        assert BalanceOf(old(ledger.balances), u, t)
               == if (u, t) in old(db.balances) then old(db.balances)[(u, t)] else TokenBalance(0, 0);
      }
      db.SetLastSyncedBlock(last);
      forall u, t ensures SumsOf(deposits)(u, t) == RangeSumsOf(chain, first, last)(u, t) {}
    }

    /** The historical replay: the chunks partition the blocks from the cursor to the head, so that
        every account gains exactly the sum of its deposits there, and the cursor ends at the head. */
    method SyncHistorical(chain: seq<Deposit>, head: nat)
      requires Mirrored(ledger.balances, db.State())
      modifies ledger, db
      ensures Mirrored(ledger.balances, db.State())
      ensures SyncedTo(old(State()), State(), chain, contractDeployBlock, head)
      ensures db.State() == old(db.State()).(balances := db.balances, lastSyncedBlock := db.lastSyncedBlock)
    {
      hide BalanceOf, DepositsIn, RangeSum, Mirrored;
      var startBlock := StartBlock(db.lastSyncedBlock, contractDeployBlock);
      if startBlock > head {
        return;
      }
      var current := startBlock;
      ghost var b := ledger.balances;
      while current <= head
        invariant startBlock <= current <= head + 1
        invariant Mirrored(ledger.balances, db.State())
        invariant current == startBlock ==> ledger.balances == b
        invariant current > startBlock ==> Gained(b, ledger.balances, RangeSumsOf(chain, startBlock, current - 1))
                                           && db.lastSyncedBlock == Some(current - 1)
        invariant db.State() == old(db.State()).(balances := db.balances, lastSyncedBlock := db.lastSyncedBlock)
      {
        var end := Min(current + CHUNK_SIZE - 1, head);
        ghost var before := ledger.balances;
        SyncChunk(chain, current, end);
        if current > startBlock {
          GainsJoin(b, before, ledger.balances, chain, startBlock, current - 1, end);
        }
        current := end + 1;
      }
    }

    method CreditOne(d: Deposit)
      requires Mirrored(ledger.balances, db.State())
      modifies ledger, db
      ensures Mirrored(ledger.balances, db.State())
      ensures ledger.balances == Credited(old(ledger.balances), d.user, d.token, d.amount)
      ensures db.State() == old(db.State()).(balances := db.balances)
    {
      hide WithBalance, BalanceOf;
      ghost var before, rows := ledger.balances, db.balances;
      ledger.Credit(d.user, d.token, d.amount);
      db.SaveBalance(d.user, d.token, BalanceOf(ledger.balances, d.user, d.token));
      forall u, t ensures BalanceOf(ledger.balances, u, t)
                          == if (u, t) in db.balances then db.balances[(u, t)] else TokenBalance(0, 0) {
        assert BalanceOf(before, u, t) == if (u, t) in rows then rows[(u, t)] else TokenBalance(0, 0);
      }
    }

    /** The live loop: events the replay covered are skipped; every other deposit is credited and
        saved, and the cursor follows the highest block seen. */
    method Live(stream: seq<Deposit>, lastSynced: nat)
      requires Mirrored(ledger.balances, db.State())
      modifies ledger, db
      ensures Mirrored(ledger.balances, db.State())
      ensures State() == Played(old(State()), LiveWrites(stream, lastSynced))
      ensures db.State() == old(db.State()).(balances := db.balances, lastSyncedBlock := db.lastSyncedBlock)
    {
      hide Mirrored, Credited, Played, LiveWrites;
      ghost var s := State();
      var lastPersistedBlock := lastSynced;
      NothingPlayed(s, stream[..0], lastSynced);
      for k := 0 to |stream|
        invariant Mirrored(ledger.balances, db.State())
        invariant State() == Played(s, LiveWrites(stream[..k], lastSynced))
        invariant lastPersistedBlock == HighestBlock(stream[..k], lastSynced)
        invariant db.State() == old(db.State()).(balances := db.balances, lastSyncedBlock := db.lastSyncedBlock)
      {
        var d := stream[k];
        assert stream[..k + 1] == stream[..k] + [d];
        LiveTurn(s, stream[..k], d, lastSynced);
        if d.blockNumber <= lastSynced {
          continue;
        }
        CreditOne(d);
        if d.blockNumber > lastPersistedBlock {
          lastPersistedBlock := d.blockNumber;
          ghost var was := db.State();
          db.SetLastSyncedBlock(lastPersistedBlock);
          MirroredSameRows(ledger.balances, was, db.State());
        }
      }
      assert stream[..|stream|] == stream;
    }

    /** Replay up to the head, then follow the stream from the boundary on. */
    method SyncAndSubscribe(chain: seq<Deposit>, stream: seq<Deposit>, head: nat) returns (ghost replayed: SyncState)
      requires Mirrored(ledger.balances, db.State())
      modifies ledger, db
      ensures Mirrored(ledger.balances, db.State())
      ensures SyncedTo(old(State()), replayed, chain, contractDeployBlock, head)
      ensures State() == Played(replayed, LiveWrites(stream, Boundary(replayed.cursor, head)))
      ensures db.State() == old(db.State()).(balances := db.balances, lastSyncedBlock := db.lastSyncedBlock)
    {
      hide Mirrored, SyncedTo, Played, LiveWrites;
      SyncHistorical(chain, head);
      replayed := State();
      var lastSynced := head;
      if db.lastSyncedBlock.Some? && db.lastSyncedBlock.value > head {
        lastSynced := db.lastSyncedBlock.value;
      }
      Live(stream, lastSynced);
    }
  }

  lemma NothingGained(b: Balances)
    ensures Gained(b, b, SumsOf([]))
  {
  }

  lemma GainsJoin(b: Balances, c: Balances, d: Balances, chain: seq<Deposit>, first: nat, mid: nat, last: nat)
    requires first <= mid <= last
    requires Gained(b, c, RangeSumsOf(chain, first, mid)) && Gained(c, d, RangeSumsOf(chain, mid + 1, last))
    ensures Gained(b, d, RangeSumsOf(chain, first, last))
  {
    hide BalanceOf, RangeSum;
    forall u, t ensures BalanceOf(d, u, t)
                        == TokenBalance(BalanceOf(b, u, t).available + RangeSumsOf(chain, first, last)(u, t),
                                        BalanceOf(b, u, t).reserved) {
      RangeSplits(chain, first, mid, last, u, t);
      assert BalanceOf(c, u, t)
          == TokenBalance(BalanceOf(b, u, t).available + RangeSumsOf(chain, first, mid)(u, t),
                          BalanceOf(b, u, t).reserved);
    }
  }

  /** Syncing to one head and then to another is syncing to the higher of the two. */
  lemma SyncTwice(s: SyncState, s1: SyncState, s2: SyncState, chain: seq<Deposit>, deployBlock: nat, h1: nat, h2: nat)
    requires SyncedTo(s, s1, chain, deployBlock, h1) && SyncedTo(s1, s2, chain, deployBlock, h2)
    ensures SyncedTo(s, s2, chain, deployBlock, if h1 <= h2 then h2 else h1)
  {
    hide BalanceOf, RangeSum;
    var start := StartBlock(s.cursor, deployBlock);
    if start <= h1 && h1 + 1 <= h2 {
      GainsJoin(s.ledger, s1.ledger, s2.ledger, chain, start, h1, h2);
    }
  }

  // ----- The live loop -----

  /** The deposits of a stream that the replay did not cover. */
  function Above(stream: seq<Deposit>, boundary: nat): seq<Deposit> {
    if stream == [] then []
    else
      var d := stream[|stream| - 1];
      Above(stream[..|stream| - 1], boundary) + (if d.blockNumber > boundary then [d] else [])
  }

  function HighestBlock(stream: seq<Deposit>, boundary: nat): nat {
    if stream == [] then boundary
    else
      var rest, d := HighestBlock(stream[..|stream| - 1], boundary), stream[|stream| - 1];
      if d.blockNumber > rest then d.blockNumber else rest
  }

  lemma {:induction false} AboveSnoc(stream: seq<Deposit>, d: Deposit, boundary: nat)
    ensures Above(stream + [d], boundary) == Above(stream, boundary) + (if d.blockNumber > boundary then [d] else [])
    ensures HighestBlock(stream + [d], boundary)
            == (if d.blockNumber > HighestBlock(stream, boundary)
                then d.blockNumber else HighestBlock(stream, boundary))
    ensures HighestBlock(stream, boundary) >= boundary
    ensures Above(stream, boundary) == [] ==> HighestBlock(stream, boundary) == boundary
    decreases |stream|
  {
    assert (stream + [d])[..|stream|] == stream;
    if stream != [] {
      assert stream == stream[..|stream| - 1] + [stream[|stream| - 1]];
      AboveSnoc(stream[..|stream| - 1], stream[|stream| - 1], boundary);
    }
  }

  lemma NothingPlayed(s: SyncState, stream: seq<Deposit>, boundary: nat)
    requires stream == []
    ensures Played(s, LiveWrites(stream, boundary)) == s
  {
  }

  lemma {:induction false} PlayedAppend(s: SyncState, a: seq<Write>, b: seq<Write>)
    ensures Played(s, a + b) == Played(Played(s, a), b)
    decreases |b|
  {
    if b == [] {
      assert a + b == a;
    } else {
      var init := b[..|b| - 1];
      assert (a + b)[..|a + b| - 1] == a + init;
      PlayedAppend(s, a, init);
    }
  }

  lemma LiveWritesSnoc(stream: seq<Deposit>, d: Deposit, boundary: nat)
    ensures LiveWrites(stream + [d], boundary)
            == LiveWrites(stream, boundary)
               + if d.blockNumber <= boundary then [] else WritesFor(d, HighestBlock(stream, boundary))
  {
    assert (stream + [d])[..|stream|] == stream;
  }

  /** One turn of the live loop. */
  lemma LiveTurn(s: SyncState, stream: seq<Deposit>, d: Deposit, boundary: nat)
    ensures HighestBlock(stream + [d], boundary)
            == if d.blockNumber > HighestBlock(stream, boundary) then d.blockNumber else HighestBlock(stream, boundary)
    ensures HighestBlock(stream, boundary) >= boundary
    ensures var before, after := Played(s, LiveWrites(stream, boundary)), Played(s, LiveWrites(stream + [d], boundary));
            if d.blockNumber <= boundary then after == before
            else
              var saved := Written(before, SaveRow(d));
              after == if d.blockNumber > HighestBlock(stream, boundary) then Written(saved, MoveCursor(d.blockNumber))
                       else saved
  {
    hide LiveWrites, Credited;
    var writes := LiveWrites(stream, boundary);
    AboveSnoc(stream, d, boundary);
    LiveWritesSnoc(stream, d, boundary);
    assert writes + [] == writes;
    var more := WritesFor(d, HighestBlock(stream, boundary));
    PlayedAppend(s, writes, more);
    PlayedFor(Played(s, writes), d, HighestBlock(stream, boundary));
  }

  lemma PlayedFor(s: SyncState, d: Deposit, highest: nat)
    ensures var saved := Written(s, SaveRow(d));
            Played(s, WritesFor(d, highest))
            == if d.blockNumber > highest then Written(saved, MoveCursor(d.blockNumber)) else saved
  {
    hide Credited;
    var row: seq<Write> := [SaveRow(d)];
    assert row[..0] == [] && row + [] == row;
    assert Played(s, row) == Written(s, SaveRow(d));
    assert (row + [MoveCursor(d.blockNumber)])[..1] == row;
  }

  lemma SumSnoc(deposits: seq<Deposit>, d: Deposit, u: Address, t: Address)
    ensures DepositSum(deposits + [d], u, t) == DepositSum(deposits, u, t) + DepositOf(d, u, t)
  {
    assert (deposits + [d])[..|deposits|] == deposits;
  }

  lemma CreditGains(b: Balances, c: Balances, e: Balances, deposits: seq<Deposit>, d: Deposit)
    requires Gained(b, c, SumsOf(deposits)) && e == Credited(c, d.user, d.token, d.amount)
    ensures Gained(b, e, SumsOf(deposits + [d]))
  {
    hide BalanceOf, WithBalance;
    forall u, t ensures BalanceOf(e, u, t)
                        == TokenBalance(BalanceOf(b, u, t).available + SumsOf(deposits + [d])(u, t),
                                        BalanceOf(b, u, t).reserved) {
      SumSnoc(deposits, d, u, t);
      assert BalanceOf(c, u, t)
          == TokenBalance(BalanceOf(b, u, t).available + SumsOf(deposits)(u, t), BalanceOf(b, u, t).reserved);
    }
  }
}
