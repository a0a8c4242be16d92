/** Account maps and the lamports in them. */
module Lamports {

  /** A public key, read as an integer. */
  type Key = nat

  datatype Account = Account(lamports: nat, owner: Key, size: nat)

  type Accounts = map<Key, Account>

  const SYSTEM_PROGRAM: Key := 0

  const NO_ACCOUNT: Account := Account(0, SYSTEM_PROGRAM, 0)

  function Get(m: Accounts, k: Key): Account {
    if k in m then m[k] else NO_ACCOUNT
  }

  /** The lamports of the keys of a set. */
  ghost function Sum(m: Accounts, s: set<Key>): nat
    decreases |s|
  {
    if s == {} then 0
    else
      var k :| k in s;
      Get(m, k).lamports + Sum(m, s - {k})
  }

  ghost function Supply(m: Accounts): nat {
    Sum(m, m.Keys)
  }

  lemma {:induction false} SumTake(m: Accounts, s: set<Key>, k: Key)
    requires k in s
    ensures Sum(m, s) == Get(m, k).lamports + Sum(m, s - {k})
    decreases |s|
  {
    var first :| first in s && Sum(m, s) == Get(m, first).lamports + Sum(m, s - {first});
    if first != k {
      SumTake(m, s - {first}, k);
      SumTake(m, s - {k}, first);
      assert s - {first} - {k} == s - {k} - {first};
    }
  }

  lemma {:induction false} SumAgree(m: Accounts, n: Accounts, s: set<Key>)
    requires forall k :: k in s ==> Get(m, k).lamports == Get(n, k).lamports
    ensures Sum(m, s) == Sum(n, s)
    decreases |s|
  {
    if s != {} {
      var k :| k in s;
      SumTake(m, s, k);
      SumTake(n, s, k);
      SumAgree(m, n, s - {k});
    }
  }

  lemma {:induction false} SumSplit(m: Accounts, a: set<Key>, b: set<Key>)
    requires a !! b
    ensures Sum(m, a + b) == Sum(m, a) + Sum(m, b)
    decreases |a|
  {
    if a == {} {
      assert a + b == b;
    } else {
      var k :| k in a;
      SumTake(m, a, k);
      SumTake(m, a + b, k);
      assert a + b - {k} == (a - {k}) + b;
      SumSplit(m, a - {k}, b);
    }
  }

  lemma {:induction false} SumNothing(m: Accounts, s: set<Key>)
    requires forall k :: k in s ==> Get(m, k).lamports == 0
    ensures Sum(m, s) == 0
    decreases |s|
  {
    if s != {} {
      var k :| k in s;
      SumTake(m, s, k);
      SumNothing(m, s - {k});
    }
  }

  /** Keys without an account add nothing. */
  lemma SupplyOver(m: Accounts, s: set<Key>)
    requires m.Keys <= s
    ensures Sum(m, s) == Supply(m)
  {
    SumSplit(m, m.Keys, s - m.Keys);
    assert m.Keys + (s - m.Keys) == s;
    SumNothing(m, s - m.Keys);
  }

  /** Two maps that agree outside a set differ in supply by what they differ in the set. */
  lemma SupplyDiffers(m: Accounts, n: Accounts, w: set<Key>)
    requires forall k :: k !in w ==> Get(m, k).lamports == Get(n, k).lamports
    ensures Supply(m) - Sum(m, w) == Supply(n) - Sum(n, w)
  {
    var all := m.Keys + n.Keys + w;
    SupplyOver(m, all);
    SupplyOver(n, all);
    assert all == w + (all - w);
    SumSplit(m, w, all - w);
    SumSplit(n, w, all - w);
    SumAgree(m, n, all - w);
  }

  lemma SumOne(m: Accounts, k: Key)
    ensures Sum(m, {k}) == Get(m, k).lamports
  {
  }

  /** Storing one account changes the supply by that account's change. */
  lemma SupplyStore(m: Accounts, k: Key, a: Account)
    ensures Supply(m[k := a]) + Get(m, k).lamports == Supply(m) + a.lamports
  {
    SupplyDiffers(m, m[k := a], {k});
    SumOne(m, k);
    SumOne(m[k := a], k);
  }

  lemma InSupply(m: Accounts, k: Key)
    ensures Get(m, k).lamports <= Supply(m)
  {
    if k in m {
      SumTake(m, m.Keys, k);
    }
  }
}
