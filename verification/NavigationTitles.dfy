/**
 Titles of conversations in the navigation: a saved title, or the creation time and the
 shortest slice of the id that tells it from the other untitled ones of that time.
 */
module NavigationTitles {
  import opened Strings

  /** A row of a page; rows of pinned and grouped pages repeat. An empty title is no title. */
  datatype Entry = Entry(session: string, title: string, created: int)

  const SEPARATOR: string := " \U{00b7} "

  /** How many characters two ids have in common at the front. */
  function Common(a: string, b: string): (n: nat)
    ensures n <= |a| && n <= |b| && a[..n] == b[..n]
    ensures n < |a| && n < |b| ==> a[n] != b[n]
  {
    if a == [] || b == [] || a[0] != b[0] then 0
    else
      assert a == [a[0]] + a[1..] && b == [b[0]] + b[1..];
      1 + Common(a[1..], b[1..])
  }

  function Max(a: nat, b: nat): nat {
    if a < b then b else a
  }

  function Width(sorted: seq<string>, i: nat): nat
    requires i < |sorted|
  {
    Max(Max(8, Common(sorted[i], if i == 0 then "" else sorted[i - 1]) + 1),
        Common(sorted[i], if i + 1 == |sorted| then "" else sorted[i + 1]) + 1)
  }

  function Slice(id: string, width: nat): string {
    if width < |id| then id[..width] else id
  }

  function Label(sorted: seq<string>, i: nat): string
    requires i < |sorted|
  {
    Slice(sorted[i], Width(sorted, i))
  }

  // ----- labels tell ids apart -----

  /** Between two ids in order, the common prefix only shrinks as the second moves away. */
  lemma {:induction false} CommonShrinks(a: string, b: string, c: string)
    requires Less(a, b) && Less(b, c)
    ensures Common(a, c) <= Common(a, b) && Common(a, c) <= Common(b, c)
  {
    if a != [] && c != [] && a[0] == c[0] {
      assert b[0] == a[0];
      CommonShrinks(a[1..], b[1..], c[1..]);
    }
  }

  lemma CommonSymmetric(a: string, b: string)
    ensures Common(a, b) == Common(b, a)
  {
    var n, m := Common(a, b), Common(b, a);
    assert forall k | 0 <= k < n :: a[..n][k] == b[..n][k] && a[k] == b[k];
    assert forall k | 0 <= k < m :: a[..m][k] == b[..m][k] && a[k] == b[k];
  }

  /** One past the prefix shared with the neighbours is past the prefix shared with any other id. */
  lemma WidthExceedsCommon(sorted: seq<string>, i: nat, j: nat)
    requires Increasing(sorted) && i < j < |sorted|
    ensures Width(sorted, i) > Common(sorted[i], sorted[j]) && Width(sorted, j) > Common(sorted[i], sorted[j])
  {
    hide Common, Less;
    if i + 1 < j {
      CommonShrinks(sorted[i], sorted[i + 1], sorted[j]);
      CommonShrinks(sorted[i], sorted[j - 1], sorted[j]);
    }
    CommonSymmetric(sorted[j - 1], sorted[j]);
  }

  /** Past the common prefix two different ids are never sliced to the same text. */
  lemma SlicesDiffer(a: string, b: string, v: nat, w: nat)
    requires a != b && v > Common(a, b) && w > Common(a, b)
    ensures Slice(a, v) != Slice(b, w)
  {
    var n := Common(a, b);
    assert a[..|a|] == a && b[..|b|] == b;
    if n < |a| && n < |b| {
      assert Slice(a, v)[n] == a[n] && Slice(b, w)[n] == b[n];
    }
  }

  /** In a sorted list of ids every label is different. */
  lemma LabelsDiffer(sorted: seq<string>, i: nat, j: nat)
    requires Increasing(sorted) && i < j < |sorted|
    ensures Label(sorted, i) != Label(sorted, j)
  {
    hide Common, Less, Slice;
    LessTotal(sorted[i], sorted[j]);
    WidthExceedsCommon(sorted, i, j);
    SlicesDiffer(sorted[i], sorted[j], Width(sorted, i), Width(sorted, j));
  }

  // ----- all titles -----

  function Titled(entries: seq<Entry>): map<string, string> {
    if entries == [] then map[]
    else
      var e := entries[|entries| - 1];
      var before := Titled(entries[..|entries| - 1]);
      if e.title != "" then before[e.session := e.title] else before
  }

  /** The untitled ids of one creation time, each once, in the order of their rows. */
  function Group(entries: seq<Entry>, created: int): seq<string> {
    if entries == [] then []
    else
      var e := entries[|entries| - 1];
      var before := Group(entries[..|entries| - 1], created);
      if e.title == "" && e.created == created && e.session !in before then before + [e.session] else before
  }

  /** The creation times of untitled rows, each once, in the order of their rows. */
  function Times(entries: seq<Entry>): seq<int> {
    if entries == [] then []
    else
      var e := entries[|entries| - 1];
      var before := Times(entries[..|entries| - 1]);
      if e.title == "" && e.created !in before then before + [e.created] else before
  }

  function Labelled(titles: map<string, string>, stamp: string, sorted: seq<string>, n: nat): map<string, string>
    requires n <= |sorted|
  {
    if n == 0 then titles
    else Labelled(titles, stamp, sorted, n - 1)[sorted[n - 1] := stamp + SEPARATOR + Label(sorted, n - 1)]
  }

  function AllLabelled(entries: seq<Entry>, stamp: int -> string, times: seq<int>): map<string, string> {
    if times == [] then Titled(entries)
    else
      var t := times[|times| - 1];
      var sorted := Sort(Group(entries, t));
      Labelled(AllLabelled(entries, stamp, times[..|times| - 1]), stamp(t), sorted, |sorted|)
  }

  function Titles(entries: seq<Entry>, stamp: int -> string): map<string, string> {
    AllLabelled(entries, stamp, Times(entries))
  }

  /** Rows of one conversation agree on its title and creation time. */
  ghost predicate Consistent(entries: seq<Entry>) {
    forall i, j | 0 <= i < |entries| && 0 <= j < |entries| && entries[i].session == entries[j].session :: entries[i] == entries[j]
  }

  lemma {:induction false} GroupMembers(entries: seq<Entry>, created: int)
    ensures NoRepeats(Group(entries, created))
    ensures forall s :: s in Group(entries, created) <==> exists i :: 0 <= i < |entries| && entries[i] == Entry(s, "", created)
  {
    if entries != [] {
      var n := |entries| - 1;
      GroupMembers(entries[..n], created);
      forall s
        ensures s in Group(entries, created) <==> exists i :: 0 <= i < |entries| && entries[i] == Entry(s, "", created)
      {
        if i :| 0 <= i < |entries| && entries[i] == Entry(s, "", created) {
          if i < n { assert entries[..n][i] == Entry(s, "", created); }
        }
        if s in Group(entries[..n], created) { var i :| 0 <= i < n && entries[..n][i] == Entry(s, "", created); assert entries[i] == Entry(s, "", created); }
      }
    }
  }

  lemma {:induction false} TimesMembers(entries: seq<Entry>)
    ensures forall i | 0 <= i < |entries| && entries[i].title == "" :: entries[i].created in Times(entries)
  {
    if entries != [] {
      TimesMembers(entries[..|entries| - 1]);
    }
  }

  lemma {:induction false} LabelledAt(titles: map<string, string>, stamp: string, sorted: seq<string>, n: nat)
    requires n <= |sorted| && NoRepeats(sorted)
    ensures var out := Labelled(titles, stamp, sorted, n);
            && (forall k | 0 <= k < n :: sorted[k] in out && out[sorted[k]] == stamp + SEPARATOR + Label(sorted, k))
            && (forall s | s !in sorted[..n] :: (s in out <==> s in titles) && (s in titles ==> out[s] == titles[s]))
  {
    hide Label;
    if n > 0 {
      LabelledAt(titles, stamp, sorted, n - 1);
      assert sorted[..n] == sorted[..n - 1] + [sorted[n - 1]];
    }
  }

  lemma IncreasingNoRepeats(xs: seq<string>)
    requires Increasing(xs)
    ensures NoRepeats(xs)
  {
    forall i, j | 0 <= i < j < |xs|
      ensures xs[i] != xs[j]
    {
      LessTotal(xs[i], xs[j]);
    }
  }

  /** A conversation's title does not depend on other creation times. */
  lemma {:induction false} LabelKept(entries: seq<Entry>, stamp: int -> string, times: seq<int>, e: Entry)
    requires Consistent(entries) && e in entries && e.title == ""
    ensures e.created in times ==>
              && e.session in Sort(Group(entries, e.created))
              && exists k :: 0 <= k < |Sort(Group(entries, e.created))| && Sort(Group(entries, e.created))[k] == e.session
                  && e.session in AllLabelled(entries, stamp, times)
                  && AllLabelled(entries, stamp, times)[e.session] == stamp(e.created) + SEPARATOR + Label(Sort(Group(entries, e.created)), k)
  {
    hide Label, Sort, Group, Labelled;
    GroupMembers(entries, e.created);
    SortIncreasing(Group(entries, e.created));
    if times != [] {
      var n := |times| - 1;
      var t := times[n];
      var sorted := Sort(Group(entries, t));
      LabelKept(entries, stamp, times[..n], e);
      GroupMembers(entries, t);
      SortIncreasing(Group(entries, t));
      IncreasingNoRepeats(sorted);
      LabelledAt(AllLabelled(entries, stamp, times[..n]), stamp(t), sorted, |sorted|);
      assert sorted[..|sorted|] == sorted;
      if t == e.created {
        var k :| 0 <= k < |sorted| && sorted[k] == e.session;
      } else {
        assert e.session !in sorted;
      }
    }
  }

  lemma {:induction false} TitleKept(entries: seq<Entry>, stamp: int -> string, times: seq<int>, e: Entry)
    requires Consistent(entries) && e in entries && e.title != ""
    ensures e.session in AllLabelled(entries, stamp, times) && AllLabelled(entries, stamp, times)[e.session] == e.title
  {
    hide Label, Sort, Group, Labelled;
    if times == [] {
      TitledAt(entries, e);
    } else {
      var t := times[|times| - 1];
      var sorted := Sort(Group(entries, t));
      TitleKept(entries, stamp, times[..|times| - 1], e);
      GroupMembers(entries, t);
      SortIncreasing(Group(entries, t));
      IncreasingNoRepeats(sorted);
      LabelledAt(AllLabelled(entries, stamp, times[..|times| - 1]), stamp(t), sorted, |sorted|);
      assert sorted[..|sorted|] == sorted;
      assert e.session !in sorted;
    }
  }

  lemma {:induction false} TitledAt(entries: seq<Entry>, e: Entry)
    requires Consistent(entries) && e in entries && e.title != ""
    ensures e.session in Titled(entries) && Titled(entries)[e.session] == e.title
  {
    var n := |entries| - 1;
    if entries[n].session != e.session {
      assert e in entries[..n] by { var i :| 0 <= i < |entries| && entries[i] == e; assert entries[..n][i] == e; }
      TitledAt(entries[..n], e);
    }
  }

  /**
   Every titled conversation shows its title, and two untitled conversations with the same
   creation time never show the same one.
   */
  lemma TitlesTellApart(entries: seq<Entry>, stamp: int -> string, a: Entry, b: Entry)
    requires Consistent(entries) && a in entries && b in entries
    ensures a.session in Titles(entries, stamp) && b.session in Titles(entries, stamp)
    ensures a.title != "" ==> Titles(entries, stamp)[a.session] == a.title
    ensures a.title == "" && b.title == "" && a.created == b.created && a.session != b.session ==>
              Titles(entries, stamp)[a.session] != Titles(entries, stamp)[b.session]
  {
    hide Label, Sort, Group, AllLabelled, Times;
    TimesMembers(entries);
    if a.title != "" { TitleKept(entries, stamp, Times(entries), a); } else { LabelKept(entries, stamp, Times(entries), a); }
    if b.title != "" { TitleKept(entries, stamp, Times(entries), b); } else { LabelKept(entries, stamp, Times(entries), b); }
    if a.title == "" && b.title == "" && a.created == b.created && a.session != b.session {
      var sorted := Sort(Group(entries, a.created));
      var t := Titles(entries, stamp);
      var prefix := stamp(a.created) + SEPARATOR;
      var i :| 0 <= i < |sorted| && sorted[i] == a.session && t[a.session] == prefix + Label(sorted, i);
      var j :| 0 <= j < |sorted| && sorted[j] == b.session && t[b.session] == prefix + Label(sorted, j);
      GroupMembers(entries, a.created);
      SortIncreasing(Group(entries, a.created));
      if i < j { LabelsDiffer(sorted, i, j); } else { LabelsDiffer(sorted, j, i); }
      AppendDiffers(prefix, Label(sorted, i), Label(sorted, j));
    }
  }

  lemma AppendDiffers(prefix: string, a: string, b: string)
    requires a != b
    ensures prefix + a != prefix + b
  {
    assert (prefix + a)[|prefix|..] == a && (prefix + b)[|prefix|..] == b;
  }

  // ----- as the program fills the maps -----

  method NavigationPresentation(entries: seq<Entry>, stamp: int -> string) returns (titles: map<string, string>)
    ensures titles == Titles(entries, stamp)
  {
    hide Label, Sort;
    titles := map[];
    var times: seq<int> := [];
    var groups: map<int, seq<string>> := map[];
    for n := 0 to |entries|
      invariant titles == Titled(entries[..n]) && times == Times(entries[..n])
      invariant forall k | 0 <= k < |times| :: times[k] in groups
      invariant forall t | t in groups :: t in times
      invariant forall t | t in groups :: groups[t] == Group(entries[..n], t)
      invariant forall t | t !in times :: Group(entries[..n], t) == []
    {
      var e := entries[n];
      assert entries[..n + 1][..n] == entries[..n];
      if e.title != "" {
        titles := titles[e.session := e.title];
      } else {
        if e.created !in groups {
          groups := groups[e.created := []];
          times := times + [e.created];
        }
        if e.session !in groups[e.created] {
          groups := groups[e.created := groups[e.created] + [e.session]];
        }
      }
    }
    assert entries[..|entries|] == entries;
    assert forall t | t in groups :: groups[t] == Group(entries, t);
    for k := 0 to |times|
      invariant titles == AllLabelled(entries, stamp, times[..k])
    {
      assert times[..k + 1][..k] == times[..k];
      var sorted := Sort(groups[times[k]]);
      titles := LabelAll(titles, stamp(times[k]), sorted);
    }
    assert times[..|times|] == times;
  }

  method WidthAt(sorted: seq<string>, i: nat) returns (width: nat)
    requires i < |sorted|
    ensures width == Width(sorted, i)
  {
    hide Common;
    var previous := Common(sorted[i], if i == 0 then "" else sorted[i - 1]);
    var next := Common(sorted[i], if i + 1 == |sorted| then "" else sorted[i + 1]);
    width := 8;
    if previous + 1 > width { width := previous + 1; }
    if next + 1 > width { width := next + 1; }
  }

  method LabelAll(before: map<string, string>, stamp: string, sorted: seq<string>) returns (titles: map<string, string>)
    ensures titles == Labelled(before, stamp, sorted, |sorted|)
  {
    hide Width, Slice;
    titles := before;
    for i := 0 to |sorted|
      invariant titles == Labelled(before, stamp, sorted, i)
    {
      var width := WidthAt(sorted, i);
      titles := titles[sorted[i] := stamp + SEPARATOR + Slice(sorted[i], width)];
    }
  }
}
