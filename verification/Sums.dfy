/** Sums over finite maps, used for every byte and record budget. */
module Sums {

  ghost function Sum<K>(m: map<K, int>): int
    decreases |m.Keys|
  {
    if m == map[] then 0
    else
      var k :| k in m;
      m[k] + Sum(m - {k})
  }

  lemma {:induction false} SumSplit<K>(m: map<K, int>, k: K)
    requires k in m
    ensures Sum(m) == m[k] + Sum(m - {k})
    decreases |m.Keys|
  {
    var c :| c in m && Sum(m) == m[c] + Sum(m - {c});
    if c != k {
      SumSplit(m - {c}, k);
      SumSplit(m - {k}, c);
      assert m - {c} - {k} == m - {k} - {c};
    }
  }

  /** Setting one entry changes the sum by the difference. */
  lemma SumSet<K>(m: map<K, int>, k: K, v: int)
    ensures Sum(m[k := v]) == Sum(m) - (if k in m then m[k] else 0) + v
  {
    var n := m[k := v];
    SumSplit(n, k);
    assert n - {k} == m - {k};
    if k in m { SumSplit(m, k); } else { assert m - {k} == m; }
  }

  /** Dropping one entry lowers the sum by what it held. */
  lemma SumDrop<K>(m: map<K, int>, k: K)
    ensures Sum(m - {k}) == Sum(m) - (if k in m then m[k] else 0)
  {
    if k in m { SumSplit(m, k); } else { assert m - {k} == m; }
  }

  lemma {:induction false} SumNonNegative<K>(m: map<K, int>)
    requires forall k | k in m :: m[k] >= 0
    ensures Sum(m) >= 0
    decreases |m.Keys|
  {
    if m != map[] {
      var k :| k in m;
      SumSplit(m, k);
      SumNonNegative(m - {k});
    }
  }

  /** A part of a non-negative map never sums to more than the whole. */
  lemma {:induction false} SumPart<K>(part: map<K, int>, whole: map<K, int>)
    requires forall k | k in part :: k in whole && part[k] == whole[k]
    requires forall k | k in whole :: whole[k] >= 0
    ensures Sum(part) <= Sum(whole)
    decreases |part.Keys|
  {
    if part == map[] {
      SumNonNegative(whole);
    } else {
      var k :| k in part;
      SumSplit(part, k);
      SumSplit(whole, k);
      SumPart(part - {k}, whole - {k});
    }
  }
}
