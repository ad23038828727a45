/** The gateway's collateral ledger. */
module Ledgers {
  import opened Types
  import opened Arithmetic

  datatype TokenBalance = TokenBalance(available: nat, reserved: nat) {
    function Total(): nat {
      available + reserved
    }
  }

  type Balances = map<Address, map<Address, TokenBalance>>

  function BalanceOf(b: Balances, user: Address, token: Address): TokenBalance {
    if HasEntry(b, user, token) then b[user][token] else TokenBalance(0, 0)
  }

  predicate HasEntry(b: Balances, user: Address, token: Address) {
    user in b && token in b[user]
  }

  function WithBalance(b: Balances, user: Address, token: Address, balance: TokenBalance): (r: Balances)
    ensures forall u, t {:trigger HasEntry(r, u, t)} ::
              HasEntry(r, u, t) <==> HasEntry(b, u, t) || (u == user && t == token)
    ensures forall u, t {:trigger BalanceOf(r, u, t)} ::
              BalanceOf(r, u, t) == if u == user && t == token then balance else BalanceOf(b, u, t)
  {
    b[user := (if user in b then b[user] else map[])[token := balance]]
  }

  // ----- What each operation does to the balances -----

  function Credited(b: Balances, user: Address, token: Address, amount: nat): Balances {
    var bal := BalanceOf(b, user, token);
    WithBalance(b, user, token, bal.(available := bal.available + amount))
  }

  predicate CanReserve(b: Balances, user: Address, token: Address, amount: nat) {
    amount <= BalanceOf(b, user, token).available
  }

  /** A refused reservation still leaves an entry behind. */
  function AfterReserve(b: Balances, user: Address, token: Address, amount: nat): Balances {
    var bal := BalanceOf(b, user, token);
    WithBalance(b, user, token,
                if amount <= bal.available then TokenBalance(bal.available - amount, bal.reserved + amount) else bal)
  }

  function Released(b: Balances, user: Address, token: Address, amount: nat): Balances {
    var bal := BalanceOf(b, user, token);
    WithBalance(b, user, token, TokenBalance(bal.available + amount, WrappingSub(bal.reserved, amount)))
  }

  function Spent(b: Balances, user: Address, token: Address, amount: nat): Balances {
    var bal := BalanceOf(b, user, token);
    WithBalance(b, user, token, bal.(reserved := WrappingSub(bal.reserved, amount)))
  }

  function FillSettled(b: Balances, seller: Address, buyer: Address, base: Address, quote: Address,
                       baseAmount: nat, quoteAmount: nat): Balances
  {
    var b1 := Spent(b, seller, base, baseAmount);
    var b2 := Credited(b1, seller, quote, quoteAmount);
    var b3 := Spent(b2, buyer, quote, quoteAmount);
    Credited(b3, buyer, base, baseAmount)
  }

  /** Two ledgers no reader can tell apart. */
  ghost predicate SameBalances(b: Balances, c: Balances) {
    forall u, t :: BalanceOf(b, u, t) == BalanceOf(c, u, t)
  }

  /** Releasing what was just reserved gives every account its balance back. */
  lemma ReserveThenRelease(b: Balances, user: Address, token: Address, amount: nat)
    requires CanReserve(b, user, token, amount)
    ensures SameBalances(Released(AfterReserve(b, user, token, amount), user, token, amount), b)
  {
  }

  /** What a trade adds to the holdings of `u` in `t`. */
  function TradeDelta(seller: Address, buyer: Address, base: Address, quote: Address,
                      baseAmount: nat, quoteAmount: nat, u: Address, t: Address): int
  {
    (if t == base && u == buyer then baseAmount else 0) - (if t == base && u == seller then baseAmount else 0)
    + (if t == quote && u == seller then quoteAmount else 0) - (if t == quote && u == buyer then quoteAmount else 0)
  }

  /** Both sides have reserved what they are about to pay. */
  predicate CanSettle(b: Balances, seller: Address, buyer: Address, base: Address, quote: Address,
                      baseAmount: nat, quoteAmount: nat)
  {
    && base != quote
    && baseAmount <= BalanceOf(b, seller, base).reserved
    && quoteAmount <= BalanceOf(b, buyer, quote).reserved
  }

  /** With the collateral in place no subtraction wraps: what is reserved goes down by exactly what
      is paid, and holdings move by exactly the trade, also when one user is on both sides. */
  lemma FillSettledExactly(b: Balances, seller: Address, buyer: Address, base: Address, quote: Address,
                           baseAmount: nat, quoteAmount: nat, u: Address, t: Address)
    requires CanSettle(b, seller, buyer, base, quote, baseAmount, quoteAmount)
    ensures var c := FillSettled(b, seller, buyer, base, quote, baseAmount, quoteAmount);
            && BalanceOf(c, u, t).reserved
               == BalanceOf(b, u, t).reserved - (if u == seller && t == base then baseAmount else 0)
                                              - (if u == buyer && t == quote then quoteAmount else 0)
            && BalanceOf(c, u, t).Total()
               == BalanceOf(b, u, t).Total() + TradeDelta(seller, buyer, base, quote, baseAmount, quoteAmount, u, t)
  {
    hide WithBalance, BalanceOf;
    var b1 := Spent(b, seller, base, baseAmount);
    var b2 := Credited(b1, seller, quote, quoteAmount);
    var b3 := Spent(b2, buyer, quote, quoteAmount);
    var b4 := Credited(b3, buyer, base, baseAmount);
    assert b4 == FillSettled(b, seller, buyer, base, quote, baseAmount, quoteAmount);
    var d1: int := if u == seller && t == base then baseAmount else 0;
    var d2: int := if u == seller && t == quote then quoteAmount else 0;
    var d3: int := if u == buyer && t == quote then quoteAmount else 0;
    var d4: int := if u == buyer && t == base then baseAmount else 0;
    var r := BalanceOf(b, u, t);
    assert BalanceOf(b1, u, t) == TokenBalance(r.available, r.reserved - d1);
    assert BalanceOf(b2, u, t) == TokenBalance(r.available + d2, r.reserved - d1);
    assert BalanceOf(b2, buyer, quote).reserved == BalanceOf(b, buyer, quote).reserved;
    assert BalanceOf(b3, u, t) == TokenBalance(r.available + d2, r.reserved - d1 - d3);
    assert BalanceOf(b4, u, t) == TokenBalance(r.available + d2 + d4, r.reserved - d1 - d3);
  }

  // ----- Loading -----

  function UsersIn(rows: map<(Address, Address), TokenBalance>): set<Address> {
    set key | key in rows :: key.0
  }

  function TokensOf(rows: map<(Address, Address), TokenBalance>, u: Address): set<Address> {
    set key | key in rows && key.0 == u :: key.1
  }

  function LoadedBalances(rows: map<(Address, Address), TokenBalance>): Balances {
    map u | u in UsersIn(rows) :: map t | t in TokensOf(rows, u) :: rows[(u, t)]
  }

  lemma LoadedIs(b: Balances, rows: map<(Address, Address), TokenBalance>)
    requires forall u, t :: HasEntry(b, u, t) <==> (u, t) in rows
    requires forall u, t :: HasEntry(b, u, t) ==> b[u][t] == rows[(u, t)]
    requires forall u :: u in b ==> b[u] != map[]
    ensures b == LoadedBalances(rows)
  {
    forall u ensures u in b <==> u in UsersIn(rows) {
      if u in b {
        var t :| t in b[u];
        assert HasEntry(b, u, t) && (u, t).0 in UsersIn(rows);
      }
      if key :| key in rows && key.0 == u {
        assert HasEntry(b, key.0, key.1);
      }
    }
    forall u | u in b ensures b[u] == LoadedBalances(rows)[u] {
      forall t ensures t in b[u] <==> t in TokensOf(rows, u) {
        assert HasEntry(b, u, t) <==> (u, t) in rows;
        assert (u, t) in rows ==> (u, t).1 in TokensOf(rows, u);
      }
      forall t | t in b[u] ensures b[u][t] == LoadedBalances(rows)[u][t] { assert HasEntry(b, u, t); }
    }
  }

  // ----- The ledger -----

  class Ledger {
    var balances: Balances

    constructor ()
      ensures balances == map[]
    {
      balances := map[];
    }

    constructor FromBalances(rows: map<(Address, Address), TokenBalance>)
      ensures balances == LoadedBalances(rows)
    {
      var loaded: Balances := map[];
      var todo := rows.Keys;
      while todo != {}
        invariant todo <= rows.Keys
        invariant forall u, t :: HasEntry(loaded, u, t) <==> (u, t) in rows.Keys - todo
        invariant forall u, t :: HasEntry(loaded, u, t) ==> loaded[u][t] == rows[(u, t)]
        invariant forall u :: u in loaded ==> loaded[u] != map[]
        decreases |todo|
      {
        var key :| key in todo;
        loaded := WithBalance(loaded, key.0, key.1, rows[key]);
        todo := todo - {key};
      }
      LoadedIs(loaded, rows);
      balances := loaded;
    }

    /** Every entry once, as the rows to be written. */
    function Snapshot(): (rows: map<(Address, Address), TokenBalance>)
      reads this
      ensures rows == RowsOf(balances)
      ensures forall u, t :: (u, t) in rows ==> rows[(u, t)] == BalanceOf(balances, u, t)
      ensures forall u, t :: (u, t) !in rows ==> BalanceOf(balances, u, t) == TokenBalance(0, 0)
    {
      RowsOf(balances)
    }

    method Credit(user: Address, token: Address, amount: nat)
      modifies this
      ensures balances == Credited(old(balances), user, token, amount)
    {
      var bal := BalanceOf(balances, user, token);
      balances := WithBalance(balances, user, token, bal.(available := bal.available + amount));
    }

    method Reserve(user: Address, token: Address, amount: nat) returns (ok: bool)
      modifies this
      ensures ok <==> CanReserve(old(balances), user, token, amount)
      ensures balances == AfterReserve(old(balances), user, token, amount)
    {
      var bal := BalanceOf(balances, user, token);
      if bal.available < amount {
        balances := WithBalance(balances, user, token, bal);
        return false;
      }
      balances := WithBalance(balances, user, token, TokenBalance(bal.available - amount, bal.reserved + amount));
      return true;
    }

    method Release(user: Address, token: Address, amount: nat)
      modifies this
      ensures balances == Released(old(balances), user, token, amount)
    {
      var bal := BalanceOf(balances, user, token);
      balances := WithBalance(balances, user, token,
                              TokenBalance(bal.available + amount, WrappingSub(bal.reserved, amount)));
    }

    method SettleFill(seller: Address, buyer: Address, base: Address, quote: Address, baseAmount: nat, quoteAmount: nat)
      modifies this
      ensures balances == FillSettled(old(balances), seller, buyer, base, quote, baseAmount, quoteAmount)
    {
      hide WithBalance, BalanceOf, WrappingSub;
      var bal := BalanceOf(balances, seller, base);
      balances := WithBalance(balances, seller, base, bal.(reserved := WrappingSub(bal.reserved, baseAmount)));
      bal := BalanceOf(balances, seller, quote);
      balances := WithBalance(balances, seller, quote, bal.(available := bal.available + quoteAmount));
      bal := BalanceOf(balances, buyer, quote);
      balances := WithBalance(balances, buyer, quote, bal.(reserved := WrappingSub(bal.reserved, quoteAmount)));
      bal := BalanceOf(balances, buyer, base);
      balances := WithBalance(balances, buyer, base, bal.(available := bal.available + baseAmount));
    }
  }

  function RowsOf(b: Balances): map<(Address, Address), TokenBalance> {
    map u, t | u in b.Keys && t in b[u].Keys :: (u, t) := b[u][t]
  }

  // ----- Conservation -----

  ghost function SumOver<T>(elems: set<T>, f: T -> int): int {
    if elems == {} then 0 else
      var x :| x in elems;
      f(x) + SumOver(elems - {x}, f)
  }

  lemma {:induction false} SumPick<T>(elems: set<T>, f: T -> int, x: T)
    requires x in elems
    ensures SumOver(elems, f) == f(x) + SumOver(elems - {x}, f)
  {
    var y :| y in elems && SumOver(elems, f) == f(y) + SumOver(elems - {y}, f);
    if y != x {
      SumPick(elems - {y}, f, x);
      assert elems - {y} - {x} == elems - {x} - {y};
      SumPick(elems - {x}, f, y);
    }
  }

  lemma {:induction false} SumAdds<T>(elems: set<T>, f: T -> int, g: T -> int, h: T -> int)
    requires forall x :: x in elems ==> h(x) == f(x) + g(x)
    ensures SumOver(elems, h) == SumOver(elems, f) + SumOver(elems, g)
  {
    if elems != {} {
      var x :| x in elems;
      SumPick(elems, f, x);
      SumPick(elems, g, x);
      SumPick(elems, h, x);
      SumAdds(elems - {x}, f, g, h);
    }
  }

  lemma {:induction false} SameSum<T>(elems: set<T>, f: T -> int, g: T -> int)
    requires forall x :: x in elems ==> f(x) == g(x)
    ensures SumOver(elems, f) == SumOver(elems, g)
  {
    if elems != {} {
      var x :| x in elems;
      SumPick(elems, f, x);
      SumPick(elems, g, x);
      SameSum(elems - {x}, f, g);
    }
  }

  /** Elements that count nothing may be left out. */
  lemma {:induction false} SumOfPart<T>(elems: set<T>, part: set<T>, f: T -> int)
    requires part <= elems && forall x :: x in elems - part ==> f(x) == 0
    ensures SumOver(elems, f) == SumOver(part, f)
  {
    if x :| x in elems && x !in part {
      SumPick(elems, f, x);
      SumOfPart(elems - {x}, part, f);
    } else {
      assert elems == part;
    }
  }

  lemma {:induction false} SumOfIndicator(users: set<Address>, x: Address, a: int, f: Address -> int)
    requires forall u :: u in users ==> f(u) == if u == x then a else 0
    ensures SumOver(users, f) == if x in users then a else 0
  {
    if users != {} {
      var u :| u in users;
      SumPick(users, f, u);
      SumOfIndicator(users - {u}, x, a, f);
    }
  }

  /** A trade moves tokens between users and creates none, whoever takes part. */
  lemma TradeDeltaSumsToZero(users: set<Address>, seller: Address, buyer: Address, base: Address, quote: Address,
                             baseAmount: nat, quoteAmount: nat, t: Address)
    requires seller in users && buyer in users
    ensures SumOver(users, u => TradeDelta(seller, buyer, base, quote, baseAmount, quoteAmount, u, t)) == 0
  {
    var net: int := (if t == base then baseAmount else 0) - (if t == quote then quoteAmount else 0);
    var f := u => if u == buyer then net else 0;
    var g := u => if u == seller then -net else 0;
    SumOfIndicator(users, buyer, net, f);
    SumOfIndicator(users, seller, -net, g);
    SumAdds(users, f, g, u => TradeDelta(seller, buyer, base, quote, baseAmount, quoteAmount, u, t));
  }
}
