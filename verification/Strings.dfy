/** Strings in the order of their characters, and sorted lists of them. */
module Strings {

  predicate Less(a: string, b: string) {
    b != [] && (a == [] || a[0] < b[0] || (a[0] == b[0] && Less(a[1..], b[1..])))
  }

  lemma {:induction false} LessIrreflexive(a: string)
    ensures !Less(a, a)
  {
    if a != [] { LessIrreflexive(a[1..]); }
  }

  lemma {:induction false} LessTotal(a: string, b: string)
    ensures a == b || Less(a, b) || Less(b, a)
    ensures !(Less(a, b) && Less(b, a)) && !Less(a, a)
  {
    if a != [] && b != [] && a[0] == b[0] {
      LessTotal(a[1..], b[1..]);
      assert a == [a[0]] + a[1..] && b == [b[0]] + b[1..];
    }
    if a != [] { LessIrreflexive(a); }
  }

  lemma {:induction false} LessTransitive(a: string, b: string, c: string)
    requires Less(a, b) && Less(b, c)
    ensures Less(a, c)
  {
    if a != [] && a[0] == b[0] && b[0] == c[0] { LessTransitive(a[1..], b[1..], c[1..]); }
  }

  function Insert(x: string, sorted: seq<string>): seq<string> {
    if sorted == [] || !Less(sorted[0], x) then [x] + sorted else [sorted[0]] + Insert(x, sorted[1..])
  }

  function Sort(xs: seq<string>): seq<string> {
    if xs == [] then [] else Insert(xs[0], Sort(xs[1..]))
  }

  ghost predicate Increasing(xs: seq<string>) {
    forall i, j | 0 <= i < j < |xs| :: Less(xs[i], xs[j])
  }

  ghost predicate NoRepeats(xs: seq<string>) {
    forall i, j | 0 <= i < j < |xs| :: xs[i] != xs[j]
  }

  lemma {:induction false} InsertIncreasing(x: string, sorted: seq<string>)
    requires Increasing(sorted) && x !in sorted
    ensures Increasing(Insert(x, sorted))
    ensures forall y :: y in Insert(x, sorted) <==> y == x || y in sorted
  {
    hide Less;
    if sorted == [] {
    } else if !Less(sorted[0], x) {
      LessTotal(sorted[0], x);
      forall j | 0 < j < |sorted|
        ensures Less(x, sorted[j])
      {
        LessTransitive(x, sorted[0], sorted[j]);
      }
    } else {
      var rest := sorted[1..];
      assert sorted == [sorted[0]] + rest;
      InsertIncreasing(x, rest);
      var out := Insert(x, rest);
      forall j | 0 <= j < |out|
        ensures Less(sorted[0], out[j])
      {
        assert out[j] in out;
        if out[j] != x { var k :| 0 <= k < |rest| && rest[k] == out[j]; assert sorted[k + 1] == out[j]; }
      }
    }
  }

  lemma {:induction false} SortIncreasing(xs: seq<string>)
    requires NoRepeats(xs)
    ensures Increasing(Sort(xs)) && forall y :: y in Sort(xs) <==> y in xs
  {
    hide Insert, Less;
    if xs != [] {
      assert xs == [xs[0]] + xs[1..];
      SortIncreasing(xs[1..]);
      InsertIncreasing(xs[0], Sort(xs[1..]));
    }
  }
}
