/**
 Manual orders: a saved list of ids is reconciled with the complete membership, and one
 id is moved among the siblings of its partition. Which ids and partitions are well
 spelled is a parameter.
 */
module DeviceOrders {
  import opened Wrappers

  const MAXIMUM_IDS: nat := 1024

  datatype Member = Member(id: string, partition: string)

  datatype Spelling = Spelling(id: string -> bool, partition: string -> bool)

  datatype Error = InvalidOrder | InvalidMembership | OrderFull | InvalidIntent | AcrossPartitions

  datatype Position = Before | After | Front | Back | Previous | Following

  datatype Intent = Updated | Reconcile | Move(id: string, position: Position, relative: Option<string>)

  predicate Distinct(ids: seq<string>) {
    forall i, j | 0 <= i < j < |ids| :: ids[i] != ids[j]
  }

  predicate IdsOk(sp: Spelling, ids: seq<string>) {
    |ids| <= MAXIMUM_IDS && (forall i | 0 <= i < |ids| :: sp.id(ids[i])) && Distinct(ids)
  }

  function Ids(members: seq<Member>): (ids: seq<string>)
    ensures |ids| == |members| && forall i | 0 <= i < |ids| :: ids[i] == members[i].id
  {
    if members == [] then [] else [members[0].id] + Ids(members[1..])
  }

  predicate MembersOk(sp: Spelling, members: seq<Member>) {
    IdsOk(sp, Ids(members)) && forall i | 0 <= i < |members| :: sp.partition(members[i].partition)
  }

  function PartitionOf(members: seq<Member>, id: string): Option<string> {
    if members == [] then None else if members[0].id == id then Some(members[0].partition) else PartitionOf(members[1..], id)
  }

  function Missing(saved: seq<string>, members: seq<Member>): seq<string> {
    if members == [] then []
    else if members[0].id in saved then Missing(saved, members[1..])
    else [members[0].id] + Missing(saved, members[1..])
  }

  function ReconcileOrder(sp: Spelling, saved: seq<string>, members: seq<Member>): Result<seq<string>, Error> {
    if !MembersOk(sp, members) then Failure(InvalidMembership)
    else if !IdsOk(sp, saved) then Failure(InvalidOrder)
    else
      var result := saved + Missing(saved, members);
      if IdsOk(sp, result) then Success(result) else Failure(OrderFull)
  }

  function Without(ids: seq<string>, id: string): seq<string> {
    if ids == [] then [] else if ids[0] == id then Without(ids[1..], id) else [ids[0]] + Without(ids[1..], id)
  }

  function IndexOf(ids: seq<string>, id: string): (i: nat)
    ensures i <= |ids| && (i < |ids| <==> id in ids) && (i < |ids| ==> ids[i] == id)
    ensures forall k | 0 <= k < i :: ids[k] != id
  {
    if ids == [] then 0 else if ids[0] == id then 0 else 1 + IndexOf(ids[1..], id)
  }

  /** The ids of one partition, in order. */
  function Siblings(ids: seq<string>, members: seq<Member>, partition: string): seq<string> {
    if ids == [] then []
    else if PartitionOf(members, ids[0]) == Some(partition) then [ids[0]] + Siblings(ids[1..], members, partition)
    else Siblings(ids[1..], members, partition)
  }

  /** Takes `id` out and puts it back next to `relative`. */
  function Splice(ids: seq<string>, id: string, relative: string, after: bool): seq<string> {
    var rest := Without(ids, id);
    var i := IndexOf(rest, relative);
    var at := if after && i < |rest| then i + 1 else i;
    rest[..at] + [id] + rest[at..]
  }

  /** Which sibling the id is put next to, and on which side. */
  function Target(siblings: seq<string>, move: Intent): (Option<string>, bool)
    requires move.Move? && move.id in siblings
  {
    var current := IndexOf(siblings, move.id);
    match move.position
    case Before => (move.relative, false)
    case After => (move.relative, true)
    case Front => (Some(siblings[0]), false)
    case Back => (Some(siblings[|siblings| - 1]), true)
    case Previous => (Some(siblings[if current == 0 then 0 else current - 1]), false)
    case Following => (Some(siblings[if current + 1 < |siblings| then current + 1 else |siblings| - 1]), true)
  }

  function OrderIntent(sp: Spelling, saved: seq<string>, members: seq<Member>, intent: Intent): Result<seq<string>, Error> {
    if intent.Updated? then Success([])
    else
      var ordered :- ReconcileOrder(sp, saved, members);
      if intent.Reconcile? then Success(ordered)
      else if PartitionOf(members, intent.id).None? then Failure(InvalidIntent)
      else
        var partition := PartitionOf(members, intent.id).value;
        var siblings := Siblings(ordered, members, partition);
        if intent.id !in siblings then Failure(InvalidIntent)
        else
          var (relative, after) := Target(siblings, intent);
          if relative.None? || PartitionOf(members, relative.value) != Some(partition) then Failure(AcrossPartitions)
          else if relative.value == intent.id then Success(ordered)
          else Success(Splice(ordered, intent.id, relative.value, after))
  }

  // ----- reconciling -----

  lemma {:induction false} MissingMembers(saved: seq<string>, members: seq<Member>)
    ensures forall id :: id in Missing(saved, members) <==> id in Ids(members) && id !in saved
    ensures Distinct(Ids(members)) ==> Distinct(Missing(saved, members))
  {
    if members != [] {
      MissingMembers(saved, members[1..]);
      assert Ids(members) == [members[0].id] + Ids(members[1..]);
      if Distinct(Ids(members)) {
        assert Ids(members)[1..] == Ids(members[1..]);
        assert forall i | 0 < i < |Ids(members)| :: Ids(members)[i] != members[0].id;
        DistinctTail(Ids(members));
      }
    }
  }

  lemma DistinctTail(ids: seq<string>)
    requires Distinct(ids) && ids != []
    ensures Distinct(ids[1..]) && ids[0] !in ids[1..]
  {
  }

  lemma {:induction false} MissingNone(saved: seq<string>, members: seq<Member>)
    requires forall i | 0 <= i < |members| :: members[i].id in saved
    ensures Missing(saved, members) == []
  {
    if members != [] {
      MissingNone(saved, members[1..]);
    }
  }

  /**
   Reconciling keeps the saved order as a prefix and appends exactly the members it lacks,
   in member order; it is refused only for malformed input or a result longer than 1024.
   Doing it again changes nothing.
   */
  lemma ReconcileKeepsOrder(sp: Spelling, saved: seq<string>, members: seq<Member>)
    requires MembersOk(sp, members) && IdsOk(sp, saved)
    ensures ReconcileOrder(sp, saved, members).Success? <==> |saved| + |Missing(saved, members)| <= MAXIMUM_IDS
    ensures ReconcileOrder(sp, saved, members).Success? ==>
              var result := ReconcileOrder(sp, saved, members).value;
              && saved <= result && IdsOk(sp, result)
              && (forall id :: id in result <==> id in saved || id in Ids(members))
              && ReconcileOrder(sp, result, members) == Success(result)
  {
    MissingMembers(saved, members);
    var result := saved + Missing(saved, members);
    var missing := Missing(saved, members);
    forall i | 0 <= i < |missing|
      ensures sp.id(missing[i]) && missing[i] !in saved
    {
      assert missing[i] in missing;
      var k :| 0 <= k < |Ids(members)| && Ids(members)[k] == missing[i];
    }
    assert Distinct(result);
    forall i | 0 <= i < |members|
      ensures members[i].id in result
    {
      assert Ids(members)[i] in Ids(members);
    }
    MissingNone(result, members);
    assert result + [] == result;
  }

  // ----- moving -----

  lemma {:induction false} WithoutMembers(ids: seq<string>, id: string)
    ensures forall x :: x in Without(ids, id) <==> x in ids && x != id
    ensures id !in ids ==> Without(ids, id) == ids
    ensures Distinct(ids) ==> Distinct(Without(ids, id))
  {
    if ids != [] {
      WithoutMembers(ids[1..], id);
      assert ids == [ids[0]] + ids[1..];
      if Distinct(ids) { DistinctTail(ids); }
    }
  }

  lemma {:induction false} WithoutConcat(a: seq<string>, b: seq<string>, id: string)
    ensures Without(a + b, id) == Without(a, id) + Without(b, id)
  {
    if a == [] {
      assert a + b == b;
    } else {
      WithoutConcat(a[1..], b, id);
      assert (a + b)[1..] == a[1..] + b;
    }
  }

  lemma {:induction false} SiblingsConcat(a: seq<string>, b: seq<string>, members: seq<Member>, partition: string)
    ensures Siblings(a + b, members, partition) == Siblings(a, members, partition) + Siblings(b, members, partition)
  {
    if a == [] {
      assert a + b == b;
    } else {
      SiblingsConcat(a[1..], b, members, partition);
      assert (a + b)[1..] == a[1..] + b;
    }
  }

  lemma {:induction false} SiblingsMembers(ids: seq<string>, members: seq<Member>, partition: string)
    ensures forall x :: x in Siblings(ids, members, partition) <==> x in ids && PartitionOf(members, x) == Some(partition)
    ensures Distinct(ids) ==> Distinct(Siblings(ids, members, partition))
  {
    if ids != [] {
      SiblingsMembers(ids[1..], members, partition);
      assert ids == [ids[0]] + ids[1..];
      if Distinct(ids) { DistinctTail(ids); }
    }
  }

  lemma {:induction false} SiblingsWithout(ids: seq<string>, members: seq<Member>, partition: string, id: string)
    ensures Siblings(Without(ids, id), members, partition) == Without(Siblings(ids, members, partition), id)
  {
    if ids != [] {
      SiblingsWithout(ids[1..], members, partition, id);
      SiblingsCons(ids[0], Without(ids[1..], id), members, partition);
      WithoutCons(ids[0], Siblings(ids[1..], members, partition), id);
    }
  }

  lemma SiblingsCons(x: string, rest: seq<string>, members: seq<Member>, partition: string)
    ensures Siblings([x] + rest, members, partition) ==
            (if PartitionOf(members, x) == Some(partition) then [x] else []) + Siblings(rest, members, partition)
  {
    assert ([x] + rest)[1..] == rest;
  }

  lemma WithoutCons(x: string, rest: seq<string>, id: string)
    ensures Without([x] + rest, id) == (if x == id then [] else [x]) + Without(rest, id)
  {
    assert ([x] + rest)[1..] == rest;
  }

  /** Where a splice puts the id: right next to `relative`, the others as they were. */
  lemma SpliceShape(ids: seq<string>, id: string, relative: string, after: bool) returns (front: seq<string>, back: seq<string>)
    requires Distinct(ids) && id in ids && relative in ids && relative != id
    ensures Without(ids, id) == front + back && Splice(ids, id, relative, after) == front + [id] + back
    ensures if after then front != [] && front[|front| - 1] == relative else back != [] && back[0] == relative
    ensures id !in front && id !in back
  {
    WithoutMembers(ids, id);
    var rest := Without(ids, id);
    var i := IndexOf(rest, relative);
    var at := if after then i + 1 else i;
    front, back := rest[..at], rest[at..];
    assert rest == front + back;
  }

  /** A splice is determined by where it puts the id. */
  lemma SpliceIs(ids: seq<string>, id: string, relative: string, after: bool, front: seq<string>, back: seq<string>)
    requires Distinct(ids) && relative in ids && relative != id && Without(ids, id) == front + back
    requires if after then front != [] && front[|front| - 1] == relative else back != [] && back[0] == relative
    ensures Splice(ids, id, relative, after) == front + [id] + back
  {
    WithoutMembers(ids, id);
    var rest := Without(ids, id);
    var i := IndexOf(rest, relative);
    var at := if after then i + 1 else i;
    var there := if after then |front| - 1 else |front|;
    assert rest[there] == relative;
    assert i == there;
    assert rest[..at] == front && rest[at..] == back;
  }

  /** A move is a permutation: every other id keeps its place relative to all the others. */
  lemma SpliceKeepsOthers(ids: seq<string>, id: string, relative: string, after: bool)
    requires Distinct(ids) && id in ids && relative in ids && relative != id
    ensures multiset(Splice(ids, id, relative, after)) == multiset(ids)
    ensures Without(Splice(ids, id, relative, after), id) == Without(ids, id)
    ensures Distinct(Splice(ids, id, relative, after))
  {
    hide Splice, Without, Distinct;
    var front, back := SpliceShape(ids, id, relative, after);
    WithoutMembers(ids, id);
    SplitAt(ids, id);
    InsertBack(front, back, id);
  }

  lemma InsertBack(front: seq<string>, back: seq<string>, id: string)
    requires Distinct(front + back) && id !in front && id !in back
    ensures multiset(front + [id] + back) == multiset(front + back) + multiset{id}
    ensures Without(front + [id] + back, id) == front + back
    ensures Distinct(front + [id] + back)
  {
    hide Without;
    assert front + [id] + back == front + ([id] + back);
    WithoutConcat(front, [id] + back, id);
    WithoutCons(id, back, id);
    WithoutMembers(front, id);
    WithoutMembers(back, id);
    InsertDistinct(front, back, id);
  }

  lemma InsertDistinct(front: seq<string>, back: seq<string>, id: string)
    requires Distinct(front + back) && id !in front && id !in back
    ensures Distinct(front + [id] + back)
  {
    var out, n := front + [id] + back, |front|;
    forall i, j | 0 <= i < j < |out|
      ensures out[i] != out[j]
    {
      if i == n { assert out[j] in back; }
      else if j == n { assert out[i] in front; }
      else { assert out[i] == (front + back)[if i < n then i else i - 1] && out[j] == (front + back)[if j < n then j else j - 1]; }
    }
  }

  lemma SplitAt(ids: seq<string>, id: string)
    requires Distinct(ids) && id in ids
    ensures multiset(ids) == multiset(Without(ids, id)) + multiset{id}
  {
    var i := IndexOf(ids, id);
    assert ids == ids[..i] + ([id] + ids[i + 1..]);
    WithoutConcat(ids[..i], [id] + ids[i + 1..], id);
    WithoutCons(id, ids[i + 1..], id);
    WithoutMembers(ids[..i], id);
    WithoutMembers(ids[i + 1..], id);
  }

  /** Moving an id in the whole order moves it the same way among its siblings. */
  lemma SiblingsOfSplice(ids: seq<string>, members: seq<Member>, partition: string, id: string, relative: string, after: bool)
    requires Distinct(ids) && id in ids && relative in ids && relative != id
    requires PartitionOf(members, id) == Some(partition) == PartitionOf(members, relative)
    ensures Siblings(Splice(ids, id, relative, after), members, partition) ==
            Splice(Siblings(ids, members, partition), id, relative, after)
  {
    hide Splice, PartitionOf, Siblings, Without, Distinct;
    var front, back := SpliceShape(ids, id, relative, after);
    var f, b := Siblings(front, members, partition), Siblings(back, members, partition);
    SiblingsConcat(front, [id] + back, members, partition);
    SiblingsCons(id, back, members, partition);
    assert front + [id] + back == front + ([id] + back);
    SiblingsConcat(front, back, members, partition);
    SiblingsWithout(ids, members, partition, id);
    SiblingsMembers(ids, members, partition);
    if after { SiblingsLast(front, members, partition); } else { SiblingsFirst(back, members, partition); }
    SpliceIs(Siblings(ids, members, partition), id, relative, after, f, b);
    assert f + ([id] + b) == f + [id] + b;
  }

  lemma SiblingsLast(front: seq<string>, members: seq<Member>, partition: string)
    requires front != [] && PartitionOf(members, front[|front| - 1]) == Some(partition)
    ensures var f := Siblings(front, members, partition); f != [] && f[|f| - 1] == front[|front| - 1]
  {
    hide PartitionOf;
    var x := front[|front| - 1];
    assert front == front[..|front| - 1] + [x];
    SiblingsConcat(front[..|front| - 1], [x], members, partition);
    SiblingsCons(x, [], members, partition);
    assert [x] + [] == [x];
    assert Siblings([], members, partition) == [];
  }

  lemma SiblingsFirst(back: seq<string>, members: seq<Member>, partition: string)
    requires back != [] && PartitionOf(members, back[0]) == Some(partition)
    ensures var b := Siblings(back, members, partition); b != [] && b[0] == back[0]
  {
  }

  // ----- previous, then next -----

  /** The siblings after one step towards the front or the back. */
  function Nudge(siblings: seq<string>, id: string, position: Position): seq<string>
    requires id in siblings && (position.Previous? || position.Following?)
  {
    var (relative, after) := Target(siblings, Move(id, position, None));
    if relative.value == id then siblings else Splice(siblings, id, relative.value, after)
  }

  lemma NudgePrevious(siblings: seq<string>, id: string)
    requires Distinct(siblings) && id in siblings
    ensures var i := IndexOf(siblings, id);
            Nudge(siblings, id, Previous) ==
            if i == 0 then siblings else siblings[..i - 1] + [id, siblings[i - 1]] + siblings[i + 1..]
  {
    hide Splice, Without;
    var i := IndexOf(siblings, id);
    if i > 0 {
      var front, back := siblings[..i - 1], [siblings[i - 1]] + siblings[i + 1..];
      WithoutOne(siblings, i);
      assert siblings[..i] + siblings[i + 1..] == front + back;
      SpliceIs(siblings, id, siblings[i - 1], false, front, back);
      assert front + [id] + back == siblings[..i - 1] + [id, siblings[i - 1]] + siblings[i + 1..];
    }
  }

  lemma NudgeNext(siblings: seq<string>, id: string)
    requires Distinct(siblings) && id in siblings
    ensures var i := IndexOf(siblings, id);
            Nudge(siblings, id, Following) ==
            if i == |siblings| - 1 then siblings else siblings[..i] + [siblings[i + 1], id] + siblings[i + 2..]
  {
    hide Splice, Without;
    var i := IndexOf(siblings, id);
    if i < |siblings| - 1 {
      var front, back := siblings[..i] + [siblings[i + 1]], siblings[i + 2..];
      WithoutOne(siblings, i);
      assert siblings[..i] + siblings[i + 1..] == front + back;
      SpliceIs(siblings, id, siblings[i + 1], true, front, back);
      assert front + [id] + back == siblings[..i] + [siblings[i + 1], id] + siblings[i + 2..];
    }
  }

  lemma WithoutOne(ids: seq<string>, i: nat)
    requires Distinct(ids) && i < |ids|
    ensures Without(ids, ids[i]) == ids[..i] + ids[i + 1..]
  {
    assert ids == ids[..i] + ([ids[i]] + ids[i + 1..]);
    WithoutConcat(ids[..i], [ids[i]] + ids[i + 1..], ids[i]);
    WithoutCons(ids[i], ids[i + 1..], ids[i]);
    WithoutMembers(ids[..i], ids[i]);
    WithoutMembers(ids[i + 1..], ids[i]);
  }

  lemma IndexIs(ids: seq<string>, i: nat, id: string)
    requires Distinct(ids) && i < |ids| && ids[i] == id
    ensures IndexOf(ids, id) == i
  {
  }

  /**
   Previous then next gives back the sibling order exactly when the id is not the first of
   several siblings: from the front, `previous` does nothing and `next` still moves it.
   */
  lemma PreviousThenNext(siblings: seq<string>, id: string)
    requires Distinct(siblings) && id in siblings
    ensures id in Nudge(siblings, id, Previous)
    ensures Nudge(Nudge(siblings, id, Previous), id, Following) == siblings <==> IndexOf(siblings, id) > 0 || |siblings| == 1
  {
    hide Nudge;
    var i := IndexOf(siblings, id);
    var moved := Nudge(siblings, id, Previous);
    NudgePrevious(siblings, id);
    if i > 0 {
      assert moved[i - 1] == id && moved[i] == siblings[i - 1];
      assert Distinct(moved) by { SwapDistinct(siblings, i - 1, moved); }
      IndexIs(moved, i - 1, id);
      NudgeNext(moved, id);
      assert moved[..i - 1] == siblings[..i - 1] && moved[i + 1..] == siblings[i + 1..];
    } else {
      NudgeNext(siblings, id);
      if |siblings| > 1 { assert Nudge(siblings, id, Following)[0] == siblings[1]; }
    }
  }

  lemma SwapDistinct(a: seq<string>, i: nat, b: seq<string>)
    requires Distinct(a) && i + 1 < |a| && b == a[..i] + [a[i + 1], a[i]] + a[i + 2..]
    ensures Distinct(b)
  {
    assert forall k | 0 <= k < |b| :: b[k] == a[if k == i then i + 1 else if k == i + 1 then i else k];
  }

  // ----- an intent on the saved order -----

  /** Reconciling again after a permutation of a complete order changes nothing. */
  lemma ReconcileComplete(sp: Spelling, ids: seq<string>, members: seq<Member>)
    requires MembersOk(sp, members) && IdsOk(sp, ids) && forall x | x in Ids(members) :: x in ids
    ensures ReconcileOrder(sp, ids, members) == Success(ids)
  {
    hide IdsOk;
    forall i | 0 <= i < |members|
      ensures members[i].id in ids
    {
      assert Ids(members)[i] in Ids(members);
    }
    MissingNone(ids, members);
    assert ids + [] == ids;
  }

  lemma {:induction false} PartitionKnown(members: seq<Member>, id: string)
    ensures PartitionOf(members, id).Some? <==> id in Ids(members)
  {
    if members != [] {
      PartitionKnown(members[1..], id);
      assert Ids(members) == [members[0].id] + Ids(members[1..]);
    }
  }

  lemma PermutationOk(sp: Spelling, a: seq<string>, b: seq<string>)
    requires IdsOk(sp, a) && multiset(a) == multiset(b) && Distinct(b)
    ensures IdsOk(sp, b) && |a| == |b| && forall x :: x in a <==> x in b
  {
    assert |multiset(a)| == |a| && |multiset(b)| == |b|;
    assert forall x :: x in a <==> x in multiset(a);
    assert forall x :: x in b <==> x in multiset(b);
    forall i | 0 <= i < |b|
      ensures sp.id(b[i])
    {
      assert b[i] in a;
      var k :| 0 <= k < |a| && a[k] == b[i];
    }
  }

  /** The facts a move starts from. */
  ghost predicate Movable(sp: Spelling, ordered: seq<string>, members: seq<Member>, id: string, partition: string) {
    && MembersOk(sp, members) && IdsOk(sp, ordered) && (forall x | x in Ids(members) :: x in ordered)
    && PartitionOf(members, id) == Some(partition)
  }

  lemma ReconciledMovable(sp: Spelling, saved: seq<string>, members: seq<Member>, id: string)
    requires ReconcileOrder(sp, saved, members).Success? && PartitionOf(members, id).Some?
    ensures var ordered := ReconcileOrder(sp, saved, members).value;
            var partition := PartitionOf(members, id).value;
            && Movable(sp, ordered, members, id, partition)
            && id in Siblings(ordered, members, partition) && Distinct(Siblings(ordered, members, partition))
  {
    hide Siblings, PartitionOf;
    ReconcileKeepsOrder(sp, saved, members);
    PartitionKnown(members, id);
    SiblingsMembers(ReconcileOrder(sp, saved, members).value, members, PartitionOf(members, id).value);
  }

  /**
   A move succeeds exactly when the order reconciles, the id is a member, and what it is
   put next to is a sibling. The result is a permutation of the reconciled order in which
   all other ids keep their relative order, and the id ends up right next to its target
   among its siblings. It is again a valid, complete order.
   */
  lemma MoveIsPermutation(sp: Spelling, saved: seq<string>, members: seq<Member>, move: Intent)
    requires move.Move? && OrderIntent(sp, saved, members, move).Success?
    ensures ReconcileOrder(sp, saved, members).Success? && PartitionOf(members, move.id).Some?
    ensures var ordered := ReconcileOrder(sp, saved, members).value;
            var result := OrderIntent(sp, saved, members, move).value;
            var partition := PartitionOf(members, move.id).value;
            && multiset(result) == multiset(ordered) && IdsOk(sp, result)
            && Without(result, move.id) == Without(ordered, move.id)
            && ReconcileOrder(sp, result, members) == Success(result)
            && move.id in Siblings(ordered, members, partition)
            && var (relative, after) := Target(Siblings(ordered, members, partition), move);
               && relative.Some?
               && Siblings(result, members, partition) ==
                  if relative.value == move.id then Siblings(ordered, members, partition)
                  else Splice(Siblings(ordered, members, partition), move.id, relative.value, after)
  {
    hide Siblings, Splice, Without, IdsOk, Ids, PartitionOf, ReconcileOrder, Distinct, MembersOk, Target;
    var ordered := ReconcileOrder(sp, saved, members).value;
    var partition := PartitionOf(members, move.id).value;
    ReconciledMovable(sp, saved, members, move.id);
    var siblings := Siblings(ordered, members, partition);
    var (relative, after) := Target(siblings, move);
    PartitionKnown(members, move.id);
    PartitionKnown(members, relative.value);
    OkDistinct(sp, ordered);
    if relative.value == move.id {
      ReconcileComplete(sp, ordered, members);
    } else {
      SpliceKeepsOthers(ordered, move.id, relative.value, after);
      var result := Splice(ordered, move.id, relative.value, after);
      PermutationOk(sp, ordered, result);
      ReconcileComplete(sp, result, members);
      SiblingsOfSplice(ordered, members, partition, move.id, relative.value, after);
    }
  }

  lemma OkDistinct(sp: Spelling, ids: seq<string>)
    requires IdsOk(sp, ids)
    ensures Distinct(ids)
  {
  }

  /** A move is refused only if the order does not reconcile, the id is no member, or the target is no sibling. */
  lemma MoveRefuses(sp: Spelling, saved: seq<string>, members: seq<Member>, move: Intent)
    requires move.Move?
    ensures OrderIntent(sp, saved, members, move).Success? <==>
              && ReconcileOrder(sp, saved, members).Success? && PartitionOf(members, move.id).Some?
              && ((move.position.Before? || move.position.After?) ==>
                    move.relative.Some? && PartitionOf(members, move.relative.value) == PartitionOf(members, move.id))
  {
    hide Siblings, Splice, IdsOk, PartitionOf, ReconcileOrder, Distinct, MembersOk;
    if ReconcileOrder(sp, saved, members).Success? && PartitionOf(members, move.id).Some? {
      ReconciledMovable(sp, saved, members, move.id);
      var ordered := ReconcileOrder(sp, saved, members).value;
      var partition := PartitionOf(members, move.id).value;
      var siblings := Siblings(ordered, members, partition);
      SiblingsMembers(ordered, members, partition);
      var (relative, after) := Target(siblings, move);
      if !move.position.Before? && !move.position.After? { assert relative.value in siblings; }
    }
  }

  /** On the saved order: `previous` then `next` restores the siblings unless the id leads several of them. */
  lemma PreviousThenNextOrder(sp: Spelling, saved: seq<string>, members: seq<Member>, id: string)
    requires ReconcileOrder(sp, saved, members).Success? && PartitionOf(members, id).Some?
    ensures var ordered := ReconcileOrder(sp, saved, members).value;
            var siblings := Siblings(ordered, members, PartitionOf(members, id).value);
            var first := OrderIntent(sp, saved, members, Move(id, Previous, None));
            && first.Success?
            && var second := OrderIntent(sp, first.value, members, Move(id, Following, None));
               && second.Success?
               && (Siblings(second.value, members, PartitionOf(members, id).value) == siblings <==> IndexOf(siblings, id) > 0 || |siblings| == 1)
  {
    hide Siblings, Splice, IdsOk, PartitionOf, ReconcileOrder, Distinct, MembersOk, OrderIntent, Without;
    var partition := PartitionOf(members, id).value;
    var ordered := ReconcileOrder(sp, saved, members).value;
    ReconciledMovable(sp, saved, members, id);
    MoveRefuses(sp, saved, members, Move(id, Previous, None));
    MoveIsPermutation(sp, saved, members, Move(id, Previous, None));
    var first := OrderIntent(sp, saved, members, Move(id, Previous, None)).value;
    PreviousThenNext(Siblings(ordered, members, partition), id);
    MoveRefuses(sp, first, members, Move(id, Following, None));
    MoveIsPermutation(sp, first, members, Move(id, Following, None));
  }

  // ----- as the program edits the list -----

  method ApplyOrder(sp: Spelling, saved: seq<string>, members: seq<Member>, intent: Intent) returns (r: Result<seq<string>, Error>)
    ensures r == OrderIntent(sp, saved, members, intent)
  {
    hide IdsOk, MembersOk, Siblings, PartitionOf, ReconcileOrder;
    if intent.Updated? { return Success([]); }
    var ordered :- ReconcileOrder(sp, saved, members);
    if intent.Reconcile? { return Success(ordered); }
    var partition := PartitionOf(members, intent.id);
    if partition.None? { return Failure(InvalidIntent); }
    var siblings := Siblings(ordered, members, partition.value);
    if intent.id !in siblings { return Failure(InvalidIntent); }
    var current := IndexOf(siblings, intent.id);
    var relative, after := intent.relative, intent.position.After?;
    if intent.position.Front? { relative, after := Some(siblings[0]), false; }
    if intent.position.Back? { relative, after := Some(siblings[|siblings| - 1]), true; }
    if intent.position.Previous? { relative, after := Some(siblings[if current == 0 then 0 else current - 1]), false; }
    if intent.position.Following? { relative, after := Some(siblings[if current + 1 < |siblings| then current + 1 else |siblings| - 1]), true; }
    if relative.None? || PartitionOf(members, relative.value) != partition { return Failure(AcrossPartitions); }
    if relative.value == intent.id { return Success(ordered); }
    ordered := Without(ordered, intent.id);
    var at := IndexOf(ordered, relative.value);
    if after && at < |ordered| { at := at + 1; }
    ordered := ordered[..at] + [intent.id] + ordered[at..];
    return Success(ordered);
  }
}
