/** Balance tables: a map from address to amount, where an address never credited holds 0. */
module Ledger {
  import opened Common

  /** The balance of `a` in `m`. */
  function Get(m: map<Address, nat>, a: Address): nat {
    if a in m then m[a] else 0
  }

  /** The sum of the balances of the addresses in `s`. */
  ghost function SumOver(m: map<Address, nat>, s: set<Address>): nat
    requires s <= m.Keys
    decreases s
  {
    if s == {} then 0 else var a :| a in s; m[a] + SumOver(m, s - {a})
  }

  /** The sum of all balances in the table. */
  ghost function Total(m: map<Address, nat>): nat {
    SumOver(m, m.Keys)
  }

  /** The sum does not depend on which address is taken out first. */
  lemma {:induction false} SumOverRemove(m: map<Address, nat>, s: set<Address>, a: Address)
    requires s <= m.Keys && a in s
    ensures SumOver(m, s) == m[a] + SumOver(m, s - {a})
    decreases s
  {
    var b :| b in s && SumOver(m, s) == m[b] + SumOver(m, s - {b});
    if b != a {
      SumOverRemove(m, s - {b}, a);
      SumOverRemove(m, s - {a}, b);
      assert s - {b} - {a} == s - {a} - {b};
    }
  }

  /** Two tables that agree on `s` have the same sum over `s`. */
  lemma {:induction false} SumOverFrame(m: map<Address, nat>, m': map<Address, nat>, s: set<Address>)
    requires s <= m.Keys && s <= m'.Keys
    requires forall a :: a in s ==> m[a] == m'[a]
    ensures SumOver(m, s) == SumOver(m', s)
    decreases s
  {
    if s != {} {
      var a :| a in s;
      SumOverRemove(m, s, a);
      SumOverRemove(m', s, a);
      SumOverFrame(m, m', s - {a});
    }
  }

  /** Overwriting one balance changes the total by exactly the difference. */
  lemma {:induction false} UpdateTotal(m: map<Address, nat>, a: Address, v: nat)
    ensures Total(m[a := v]) + Get(m, a) == Total(m) + v
  {
    var m' := m[a := v];
    SumOverRemove(m', m'.Keys, a);
    if a in m {
      SumOverRemove(m, m.Keys, a);
      assert m'.Keys - {a} == m.Keys - {a};
      SumOverFrame(m, m', m.Keys - {a});
    } else {
      assert m'.Keys - {a} == m.Keys;
      SumOverFrame(m, m', m.Keys);
    }
  }

  /** Adds `n` to the balance of `a` (the credit half of a transfer, and minting). */
  function Credit(m: map<Address, nat>, a: Address, n: nat): (r: map<Address, nat>)
    ensures Get(r, a) == Get(m, a) + n
    ensures forall b :: b != a ==> Get(r, b) == Get(m, b)
    ensures Total(r) == Total(m) + n
  {
    UpdateTotal(m, a, Get(m, a) + n);
    m[a := Get(m, a) + n]
  }

  /** Takes `n` from the balance of `a`, which must hold at least `n`. */
  function Debit(m: map<Address, nat>, a: Address, n: nat): (r: map<Address, nat>)
    requires n <= Get(m, a)
    ensures Get(r, a) + n == Get(m, a)
    ensures forall b :: b != a ==> Get(r, b) == Get(m, b)
    ensures Total(r) + n == Total(m)
  {
    UpdateTotal(m, a, Get(m, a) - n);
    m[a := Get(m, a) - n]
  }

  /** Moves `n` from `from` to `to`: the balance update of a plain token transfer.
      Nothing is created or destroyed, and a move to oneself changes no balance. */
  function Move(m: map<Address, nat>, from: Address, to: Address, n: nat): (r: map<Address, nat>)
    requires n <= Get(m, from)
    ensures forall x :: Get(r, x) + (if x == from then n else 0) == Get(m, x) + (if x == to then n else 0)
    ensures Total(r) == Total(m)
  {
    Credit(Debit(m, from, n), to, n)
  }
}
