/** Sums of usage figures, and sums over sets that do not depend on the order in which
    the set is gone through. */
module Tallies {

  datatype Tally = Tally(tasks: int, cost: real, input: int, output: int, cacheRead: int, cacheCreation: int, failedCost: real)

  const ZERO := Tally(0, 0.0, 0, 0, 0, 0, 0.0)

  function Add(a: Tally, b: Tally): Tally {
    Tally(a.tasks + b.tasks, a.cost + b.cost, a.input + b.input, a.output + b.output,
          a.cacheRead + b.cacheRead, a.cacheCreation + b.cacheCreation, a.failedCost + b.failedCost)
  }

  lemma AddLaws(a: Tally, b: Tally, c: Tally)
    ensures Add(a, ZERO) == a == Add(ZERO, a)
    ensures Add(a, b) == Add(b, a)
    ensures Add(Add(a, b), c) == Add(a, Add(b, c)) == Add(b, Add(a, c))
  {
  }

  /** The sum of some of a map's values. */
  ghost function SumOver(m: map<string, Tally>, keys: set<string>): Tally
    requires keys <= m.Keys
    decreases |keys|
  {
    if keys == {} then ZERO
    else
      var k :| k in keys;
      Add(m[k], SumOver(m, keys - {k}))
  }

  /** Any key may be taken out first. */
  lemma {:induction false} SumOverTake(m: map<string, Tally>, keys: set<string>, k: string)
    requires k in keys && keys <= m.Keys
    ensures SumOver(m, keys) == Add(m[k], SumOver(m, keys - {k}))
    decreases |keys|
  {
    hide Add;
    var first :| first in keys && SumOver(m, keys) == Add(m[first], SumOver(m, keys - {first}));
    if first != k {
      SumOverTake(m, keys - {first}, k);
      SumOverTake(m, keys - {k}, first);
      assert keys - {first} - {k} == keys - {k} - {first};
      AddLaws(m[first], m[k], SumOver(m, keys - {first} - {k}));
    }
  }

  lemma {:induction false} SumOverSame(m: map<string, Tally>, n: map<string, Tally>, keys: set<string>)
    requires keys <= m.Keys && keys <= n.Keys && forall k | k in keys :: m[k] == n[k]
    ensures SumOver(m, keys) == SumOver(n, keys)
    decreases |keys|
  {
    if keys != {} {
      var k :| k in keys;
      SumOverSame(m, n, keys - {k});
      SumOverTake(m, keys, k);
      SumOverTake(n, keys, k);
    }
  }

  lemma {:induction false} SumOverSplit(m: map<string, Tally>, a: set<string>, b: set<string>)
    requires a <= m.Keys && b <= m.Keys && a !! b
    ensures SumOver(m, a + b) == Add(SumOver(m, a), SumOver(m, b))
    decreases |a|
  {
    hide Add;
    if a == {} {
      assert a + b == b;
      AddLaws(SumOver(m, b), ZERO, ZERO);
    } else {
      var k :| k in a;
      SumOverTake(m, a, k);
      SumOverTake(m, a + b, k);
      assert (a + b) - {k} == (a - {k}) + b;
      SumOverSplit(m, a - {k}, b);
      AddLaws(m[k], SumOver(m, a - {k}), SumOver(m, b));
    }
  }

  /** Adding to one entry, or making a new one, adds as much to the sum of all. */
  lemma SumOverGrows(m: map<string, Tally>, k: string, t: Tally)
    ensures var after := m[k := Add(if k in m then m[k] else ZERO, t)];
            SumOver(after, after.Keys) == Add(SumOver(m, m.Keys), t)
  {
    hide Add;
    var base := if k in m then m[k] else ZERO;
    var after := m[k := Add(base, t)];
    SumOverTake(after, after.Keys, k);
    SumOverSame(m, after, m.Keys - {k});
    assert after.Keys - {k} == m.Keys - {k};
    var rest := SumOver(m, m.Keys - {k});
    if k in m {
      SumOverTake(m, m.Keys, k);
    } else {
      AddLaws(rest, ZERO, ZERO);
      assert m.Keys - {k} == m.Keys;
    }
    AddLaws(base, t, rest);
    AddLaws(base, rest, t);
    AddLaws(t, rest, ZERO);
  }
}
