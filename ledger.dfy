/** Per-staker stake records of one proposal side, and their total. An
    absent entry is a stake of zero, as in a contract mapping. */
module Ledger {
  import opened HCTypes

  type Stakes = map<Address, nat>

  /** What the account has staked on this side. */
  function StakeOf(m: Stakes, a: Address): nat
  {
    if a in m then m[a] else 0
  }

  /** Some account with an entry. */
  ghost function Pick(m: Stakes): (a: Address)
    requires m != map[]
    ensures a in m
  {
    assert exists a :: a in m by {
      var k :| k in m.Keys;
    }
    var a :| a in m; a
  }

  /** The sum of all the stakes recorded on this side. */
  ghost function Sum(m: Stakes): nat
    decreases |m|
  {
    if m == map[] then 0
    else
      var a := Pick(m);
      assert |m - {a}| < |m| by { assert (m - {a}).Keys == m.Keys - {a}; }
      m[a] + Sum(m - {a})
  }

  lemma SmallerMap(m: Stakes, a: Address)
    requires a in m
    ensures |m - {a}| == |m| - 1
  {
    assert (m - {a}).Keys == m.Keys - {a};
  }

  /** The sum does not depend on the order in which entries are taken out. */
  lemma {:induction false} SumRemove(m: Stakes, a: Address)
    requires a in m
    ensures Sum(m) == m[a] + Sum(m - {a})
    decreases |m|
  {
    var b := Pick(m);
    if b != a {
      SmallerMap(m, a);
      SmallerMap(m, b);
      SumRemove(m - {b}, a);
      SumRemove(m - {a}, b);
      assert m - {b} - {a} == m - {a} - {b};
    }
  }

  /** Setting one account's stake to v changes the total by the difference. */
  lemma SumUpdate(m: Stakes, a: Address, v: nat)
    ensures Sum(m[a := v]) + StakeOf(m, a) == Sum(m) + v
  {
    var m' := m[a := v];
    SumRemove(m', a);
    assert m' - {a} == m - {a};
    if a in m {
      SumRemove(m, a);
    } else {
      assert m - {a} == m;
    }
  }

  /** No single account holds more than the side's total. */
  lemma StakeOfAtMostSum(m: Stakes, a: Address)
    ensures StakeOf(m, a) <= Sum(m)
  {
    if a in m { SumRemove(m, a); }
  }
}
