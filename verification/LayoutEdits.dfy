/**
 Unsaved layout intents, coalesced: at most one entry per field, one reset, and one per
 recent workspace. Replaying what is kept must mean the same as replaying every intent,
 also while the first entry is being saved.
 */
module LayoutEdits {
  import opened Wrappers
  import opened Layouts

  datatype Key = ResetKey | FieldKey(field: Field) | WorkspaceKey(id: string)

  /** A kept intent; `token` is the identity of the object that carries it. */
  datatype Entry = Entry(key: Key, intent: Intent, token: nat)

  /** Entries in insertion order, and how many intent objects were made so far. */
  datatype Edits = Edits(entries: seq<Entry>, made: nat)

  const EMPTY := Edits([], 0)

  function Without(entries: seq<Entry>, key: Key): seq<Entry> {
    if entries == [] then []
    else
      var init := Without(entries[..|entries| - 1], key);
      if entries[|entries| - 1].key == key then init else init + [entries[|entries| - 1]]
  }

  function Put(edits: Edits, key: Key, intent: Intent): Edits {
    Edits(Without(edits.entries, key) + [Entry(key, intent, edits.made)], edits.made + 1)
  }

  function PutFields(edits: Edits, fields: seq<(Field, Value)>): Edits {
    if fields == [] then edits
    else
      var last := fields[|fields| - 1];
      Put(PutFields(edits, fields[..|fields| - 1]), FieldKey(last.0), Patch([last]))
  }

  /** The workspaces named by the entries, oldest first. */
  function Expands(entries: seq<Entry>): seq<Workspace> {
    if entries == [] then []
    else
      var init := Expands(entries[..|entries| - 1]);
      var last := entries[|entries| - 1];
      if last.key.WorkspaceKey? then init + [Workspace(last.key.id, last.intent.Expand? && last.intent.expanded)] else init
  }

  function Add(edits: Edits, intent: Intent): Edits {
    match intent
    case Reset => Put(Edits([], edits.made), ResetKey, intent)
    case Patch(fields) => PutFields(edits, fields)
    case Expand(id, _) =>
      var put := Put(edits, WorkspaceKey(id), intent);
      var workspaces := Expands(put.entries);
      if |workspaces| > MAXIMUM_WORKSPACES then put.(entries := Without(put.entries, WorkspaceKey(workspaces[0].id))) else put
  }

  function First(edits: Edits): Option<Entry> {
    if edits.entries == [] then None else Some(edits.entries[0])
  }

  /** A finished save removes its entry, unless a newer intent took the key. */
  function Saved(edits: Edits, entry: Entry): Edits {
    if entry in edits.entries then edits.(entries := Without(edits.entries, entry.key)) else edits
  }

  // ----- what entries mean -----

  predicate EntryOk(e: Entry) {
    && IntentOk(e.intent)
    && match e.key
       case ResetKey => e.intent == Reset
       case FieldKey(f) => e.intent.Patch? && |e.intent.fields| == 1 && e.intent.fields[0].0 == f
       case WorkspaceKey(id) => e.intent.Expand? && e.intent.id == id
  }

  predicate EntriesOk(entries: seq<Entry>) {
    forall i | 0 <= i < |entries| :: EntryOk(entries[i])
  }

  ghost predicate DistinctKeys(entries: seq<Entry>) {
    forall i, j | 0 <= i < j < |entries| :: entries[i].key != entries[j].key
  }

  ghost predicate ResetFirst(entries: seq<Entry>) {
    forall i | 0 < i < |entries| :: entries[i].key != ResetKey
  }

  /** One entry per key, a reset only in front, and at most sixteen workspaces. */
  ghost predicate WellFormed(edits: Edits) {
    && EntriesOk(edits.entries) && DistinctKeys(edits.entries) && ResetFirst(edits.entries)
    && |Expands(edits.entries)| <= MAXIMUM_WORKSPACES
    && (forall i | 0 <= i < |edits.entries| :: edits.entries[i].token < edits.made)
    && (forall i, j | 0 <= i < j < |edits.entries| :: edits.entries[i].token != edits.entries[j].token)
  }

  function Replay(l: Layout, entries: seq<Entry>): Layout
    requires EntriesOk(entries)
  {
    if entries == [] then l else Step(Replay(l, entries[..|entries| - 1]), entries[|entries| - 1].intent)
  }

  /** Everything the user asked for, one intent after the other, as the store applies it. */
  function ReplayAll(l: Layout, intents: seq<Intent>): Option<Layout> {
    if intents == [] then Some(l)
    else
      match ReplayAll(l, intents[..|intents| - 1])
      case None => None
      case Some(before) => Apply(before, intents[|intents| - 1])
  }

  function AddAll(intents: seq<Intent>): Edits {
    if intents == [] then EMPTY else Add(AddAll(intents[..|intents| - 1]), intents[|intents| - 1])
  }

  // ----- lists of workspaces -----

  lemma {:induction false} DropConcat(a: seq<Workspace>, b: seq<Workspace>, id: string)
    ensures Drop(a + b, id) == Drop(a, id) + Drop(b, id)
  {
    if b == [] {
      assert a + b == a;
    } else {
      var n := |b| - 1;
      assert (a + b)[..|a + b| - 1] == a + b[..n];
      DropConcat(a, b[..n], id);
    }
  }

  lemma {:induction false} DropAbsent(ws: seq<Workspace>, id: string)
    requires forall i | 0 <= i < |ws| :: ws[i].id != id
    ensures Drop(ws, id) == ws
  {
    if ws != [] {
      DropAbsent(ws[..|ws| - 1], id);
    }
  }

  lemma {:induction false} DropAtMostOne(ws: seq<Workspace>, id: string)
    requires DistinctIds(ws)
    ensures |Drop(ws, id)| >= |ws| - 1
  {
    if ws != [] {
      var n := |ws| - 1;
      DropAtMostOne(ws[..n], id);
      if ws[n].id == id { DropAbsent(ws[..n], id); }
    }
  }

  /** The last `n` after dropping one id depend only on the last `n + 1` before. */
  lemma LastDrop(ws: seq<Workspace>, id: string, n: nat)
    requires DistinctIds(ws)
    ensures Last(n, Drop(ws, id)) == Last(n, Drop(Last(n + 1, ws), id))
  {
    if |ws| > n + 1 {
      var front, back := ws[..|ws| - (n + 1)], ws[|ws| - (n + 1)..];
      assert ws == front + back;
      DropConcat(front, back, id);
      DropAtMostOne(back, id);
    }
  }

  lemma {:induction false} DropTwice(ws: seq<Workspace>, a: string, b: string)
    ensures Drop(Drop(ws, a), b) == Drop(Drop(ws, b), a)
  {
    if ws != [] {
      var n := |ws| - 1;
      DropTwice(ws[..n], a, b);
      DropConcat(Drop(ws[..n], a), [ws[n]], b);
      DropConcat(Drop(ws[..n], b), [ws[n]], a);
      DropOne(ws[n], a);
      DropOne(ws[n], b);
    }
  }

  lemma DropOne(w: Workspace, id: string)
    ensures Drop([w], id) == if w.id == id then [] else [w]
  {
    assert [w][..0] == [];
  }

  lemma LastAppend<T>(n: nat, xs: seq<T>, x: T)
    ensures Last(n + 1, xs + [x]) == Last(n, xs) + [x]
  {
  }

  /** What a list of workspaces still contributes once `id` is touched again. */
  function Rest(ws: seq<Workspace>, id: string): seq<Workspace> {
    Last(MAXIMUM_WORKSPACES - 1, Drop(ws, id))
  }

  lemma TouchIsRest(ws: seq<Workspace>, id: string, expanded: bool)
    ensures Touch(ws, id, expanded) == Rest(ws, id) + [Workspace(id, expanded)]
  {
    LastAppend(MAXIMUM_WORKSPACES - 1, Drop(ws, id), Workspace(id, expanded));
  }

  lemma TouchDistinct(ws: seq<Workspace>, id: string, expanded: bool)
    requires DistinctIds(ws)
    ensures DistinctIds(Drop(ws, id) + [Workspace(id, expanded)]) && DistinctIds(Touch(ws, id, expanded))
  {
    DropMembers(ws, id);
    var all := Drop(ws, id) + [Workspace(id, expanded)];
    forall i, j | 0 <= i < j < |all|
      ensures all[i].id != all[j].id
    {
      assert all[i] in Drop(ws, id);
    }
  }

  lemma RestAfterSame(ws: seq<Workspace>, id: string, expanded: bool)
    requires DistinctIds(ws)
    ensures Rest(Touch(ws, id, expanded), id) == Rest(ws, id)
  {
    TouchIsRest(ws, id, expanded);
    DropConcat(Rest(ws, id), [Workspace(id, expanded)], id);
    DropOne(Workspace(id, expanded), id);
    DropMembers(ws, id);
    forall i | 0 <= i < |Rest(ws, id)|
      ensures Rest(ws, id)[i].id != id
    {
      assert Rest(ws, id)[i] in Drop(ws, id);
    }
    DropAbsent(Rest(ws, id), id);
  }

  /** Touching another workspace keeps what two lists have in common apart from `id`. */
  lemma RestAfterOther(ws: seq<Workspace>, id: string, other: string, expanded: bool)
    requires DistinctIds(ws) && other != id
    ensures Rest(Touch(ws, other, expanded), id) ==
            Last(MAXIMUM_WORKSPACES - 2, Drop(Rest(ws, id), other)) + [Workspace(other, expanded)]
  {
    var w := Workspace(other, expanded);
    var all := Drop(ws, other) + [w];
    TouchDistinct(ws, other, expanded);
    LastDrop(all, id, MAXIMUM_WORKSPACES - 1);
    DropConcat(Drop(ws, other), [w], id);
    DropOne(w, id);
    DropTwice(ws, other, id);
    DropMembers(ws, id);
    LastAppend(MAXIMUM_WORKSPACES - 2, Drop(Drop(ws, id), other), w);
    LastDrop(Drop(ws, id), other, MAXIMUM_WORKSPACES - 2);
  }

  // ----- replacing an entry -----

  /** Two layouts that differ at most in what an entry with this key would replace. */
  ghost predicate AgreeExcept(a: Layout, b: Layout, key: Key) {
    match key
    case ResetKey => true
    case FieldKey(f) =>
      && a.workspaces == b.workspaces
      && (forall g: Field {:trigger Get(ToRaw(a), g)} | !g.OtherField? && g != f :: Get(ToRaw(a), g) == Get(ToRaw(b), g))
    case WorkspaceKey(id) =>
      && a.(workspaces := []) == b.(workspaces := [])
      && DistinctIds(a.workspaces) && DistinctIds(b.workspaces)
      && Rest(a.workspaces, id) == Rest(b.workspaces, id)
  }

  /** Layouts with the same field values and workspaces are the same layout. */
  lemma SameFields(a: Layout, b: Layout)
    requires a.workspaces == b.workspaces
    requires forall g: Field {:trigger Get(ToRaw(a), g)} | !g.OtherField? :: Get(ToRaw(a), g) == Get(ToRaw(b), g)
    ensures a == b
  {
    assert Get(ToRaw(a), NavigationWidth) == Get(ToRaw(b), NavigationWidth);
    assert Get(ToRaw(a), ResourcesWidth) == Get(ToRaw(b), ResourcesWidth);
    assert Get(ToRaw(a), ConversationWidth) == Get(ToRaw(b), ConversationWidth);
    assert Get(ToRaw(a), Navigation) == Get(ToRaw(b), Navigation);
    assert Get(ToRaw(a), ResourcesClosed) == Get(ToRaw(b), ResourcesClosed);
    assert Get(ToRaw(a), Detail) == Get(ToRaw(b), Detail);
  }

  lemma SetOne(l: Layout, f: Field, v: Value)
    requires FieldOk(f, v)
    ensures SetAll(l, [(f, v)]) == Set(l, f, v)
    ensures Set(l, f, v).workspaces == l.workspaces
    ensures Set(l, f, v) == Set(l.(workspaces := []), f, v).(workspaces := l.workspaces)
    ensures forall g: Field | !g.OtherField? && g != f :: Get(ToRaw(Set(l, f, v)), g) == Get(ToRaw(l), g)
  {
    hide Round, Clamp, SafeInteger;
    var one := [(f, v)];
    assert one[..0] == [];
    assert SetAll(l, []) == l;
  }

  lemma SetIgnores(a: Layout, b: Layout, f: Field, v: Value)
    requires FieldOk(f, v)
    ensures Get(ToRaw(Set(a, f, v)), f) == Get(ToRaw(Set(b, f, v)), f)
  {
    hide Round, Clamp;
  }

  /** An entry with the key makes such layouts equal; any other entry keeps them so. */
  lemma AgreeStep(a: Layout, b: Layout, key: Key, e: Entry)
    requires EntryOk(e) && AgreeExcept(a, b, key) && key != ResetKey
    ensures e.key == key ==> Step(a, e.intent) == Step(b, e.intent) && AgreeExcept(Step(a, e.intent), b, key)
    ensures e.key != key ==> AgreeExcept(Step(a, e.intent), Step(b, e.intent), key)
  {
    hide Set, FieldOk, IdOk, Get, ToRaw, Touch, Rest;
    match e.key
    case ResetKey => AgreeReflexive(key);
    case FieldKey(g) => AgreeSet(a, b, key, e);
    case WorkspaceKey(id) => AgreeTouch(a, b, key, e);
  }

  lemma AgreeReflexive(key: Key)
    ensures AgreeExcept(DEFAULT_LAYOUT, DEFAULT_LAYOUT, key)
  {
  }

  lemma AgreeSet(a: Layout, b: Layout, key: Key, e: Entry)
    requires EntryOk(e) && AgreeExcept(a, b, key) && key != ResetKey && e.key.FieldKey?
    ensures e.key == key ==> Step(a, e.intent) == Step(b, e.intent) && AgreeExcept(Step(a, e.intent), b, key)
    ensures e.key != key ==> AgreeExcept(Step(a, e.intent), Step(b, e.intent), key)
  {
    hide Set, FieldOk, IdOk, ToRaw, Get, Rest;
    var f, v := e.intent.fields[0].0, e.intent.fields[0].1;
    assert e.intent.fields == [(f, v)];
    NotOther(f, v);
    SetOne(a, f, v);
    SetOne(b, f, v);
    SetIgnores(a, b, f, v);
    if e.key == key {
      SameFields(Step(a, e.intent), Step(b, e.intent));
    }
  }

  lemma NotOther(f: Field, v: Value)
    requires FieldOk(f, v)
    ensures !f.OtherField?
  {
  }

  lemma AgreeTouch(a: Layout, b: Layout, key: Key, e: Entry)
    requires EntryOk(e) && AgreeExcept(a, b, key) && key != ResetKey && e.key.WorkspaceKey?
    ensures e.key == key ==> Step(a, e.intent) == Step(b, e.intent) && AgreeExcept(Step(a, e.intent), b, key)
    ensures e.key != key ==> AgreeExcept(Step(a, e.intent), Step(b, e.intent), key)
  {
    hide IdOk, Touch, Rest, DistinctIds, Get;
    var id, expanded := e.intent.id, e.intent.expanded;
    match key
    case FieldKey(f) => TouchKeepsFields(a, id, expanded); TouchKeepsFields(b, id, expanded);
    case WorkspaceKey(k) =>
      TouchDistinct(a.workspaces, id, expanded);
      TouchDistinct(b.workspaces, id, expanded);
      if k == id {
        TouchIsRest(a.workspaces, id, expanded);
        TouchIsRest(b.workspaces, id, expanded);
        RestAfterSame(a.workspaces, id, expanded);
      } else {
        RestAfterOther(a.workspaces, k, id, expanded);
        RestAfterOther(b.workspaces, k, id, expanded);
      }
  }

  lemma TouchKeepsFields(l: Layout, id: string, expanded: bool)
    ensures var t := l.(workspaces := Touch(l.workspaces, id, expanded));
            forall g: Field :: Get(ToRaw(t), g) == Get(ToRaw(l), g)
  {
    hide Touch;
  }

  lemma {:induction false} WithoutMembers(entries: seq<Entry>, key: Key)
    ensures |Without(entries, key)| <= |entries|
    ensures forall e :: e in Without(entries, key) <==> e in entries && e.key != key
  {
    if entries != [] {
      var n := |entries| - 1;
      assert entries == entries[..n] + [entries[n]];
      WithoutMembers(entries[..n], key);
    }
  }

  lemma WithoutOk(entries: seq<Entry>, key: Key)
    requires EntriesOk(entries)
    ensures EntriesOk(Without(entries, key))
  {
    hide EntryOk;
    WithoutMembers(entries, key);
    var out := Without(entries, key);
    forall i | 0 <= i < |out|
      ensures EntryOk(out[i])
    {
      assert out[i] in out;
      var j :| 0 <= j < |entries| && entries[j] == out[i];
    }
  }

  /** Leaving out the entries of one key changes at most what such an entry replaces. */
  lemma {:induction false} ReplayWithout(l: Layout, entries: seq<Entry>, key: Key)
    requires EntriesOk(entries) && key != ResetKey && DistinctIds(l.workspaces)
    ensures EntriesOk(Without(entries, key))
    ensures AgreeExcept(Replay(l, entries), Replay(l, Without(entries, key)), key)
  {
    hide EntryOk, AgreeExcept, Step, IntentOk;
    WithoutOk(entries, key);
    if entries == [] {
      AgreeSelf(l, key);
    } else {
      var n := |entries| - 1;
      ReplayWithout(l, entries[..n], key);
      AgreeStep(Replay(l, entries[..n]), Replay(l, Without(entries[..n], key)), key, entries[n]);
      assert entries[n].key != key ==> Without(entries, key)[..|Without(entries, key)| - 1] == Without(entries[..n], key);
    }
  }

  lemma AgreeSelf(l: Layout, key: Key)
    requires DistinctIds(l.workspaces)
    ensures AgreeExcept(l, l, key)
  {
  }

  lemma EntryIntent(e: Entry)
    requires EntryOk(e)
    ensures IntentOk(e.intent)
  {
  }

  /** Moving an intent to the end of the entries is the same as applying it last. */
  lemma ReplayPut(l: Layout, entries: seq<Entry>, e: Entry)
    requires EntriesOk(entries) && EntryOk(e) && e.key != ResetKey && DistinctIds(l.workspaces)
    ensures EntriesOk(Without(entries, e.key) + [e])
    ensures Replay(l, Without(entries, e.key) + [e]) == Step(Replay(l, entries), e.intent)
  {
    hide EntryOk, AgreeExcept, Step, IntentOk;
    EntryIntent(e);
    ReplayWithout(l, entries, e.key);
    AgreeStep(Replay(l, entries), Replay(l, Without(entries, e.key)), e.key, e);
    var put := Without(entries, e.key) + [e];
    assert put[..|put| - 1] == Without(entries, e.key);
  }

  // ----- the workspace cap -----

  lemma {:induction false} ExpandsWithout(entries: seq<Entry>, key: Key)
    requires EntriesOk(entries)
    ensures key.WorkspaceKey? ==> Expands(Without(entries, key)) == Drop(Expands(entries), key.id)
    ensures !key.WorkspaceKey? ==> Expands(Without(entries, key)) == Expands(entries)
  {
    hide EntryOk;
    if entries != [] {
      var n := |entries| - 1;
      ExpandsWithout(entries[..n], key);
      var init := Without(entries[..n], key);
      assert (init + [entries[n]])[..|init|] == init;
      if key.WorkspaceKey? && entries[n].key.WorkspaceKey? {
        var w := Workspace(entries[n].key.id, entries[n].intent.Expand? && entries[n].intent.expanded);
        DropConcat(Expands(entries[..n]), [w], key.id);
        DropOne(w, key.id);
      }
    }
  }

  lemma {:induction false} ExpandsKeys(entries: seq<Entry>, w: Workspace) returns (i: nat)
    requires w in Expands(entries)
    ensures i < |entries| && entries[i].key == WorkspaceKey(w.id)
  {
    var n := |entries| - 1;
    if w in Expands(entries[..n]) {
      i := ExpandsKeys(entries[..n], w);
    } else {
      i := n;
    }
  }

  lemma {:induction false} ExpandsDistinct(entries: seq<Entry>)
    requires DistinctKeys(entries)
    ensures DistinctIds(Expands(entries))
  {
    if entries != [] {
      var n := |entries| - 1;
      ExpandsDistinct(entries[..n]);
      forall w | w in Expands(entries[..n])
        ensures entries[n].key != WorkspaceKey(w.id)
      {
        var i := ExpandsKeys(entries[..n], w);
      }
    }
  }

  /** The workspaces touched last end the list, whatever the list was before. */
  lemma {:induction false} RecentSuffix(l: Layout, entries: seq<Entry>)
    requires EntriesOk(entries) && DistinctKeys(entries) && ResetFirst(entries) && DistinctIds(l.workspaces)
    ensures var recent := Last(MAXIMUM_WORKSPACES, Expands(entries));
            && DistinctIds(Replay(l, entries).workspaces)
            && |recent| <= |Replay(l, entries).workspaces|
            && Last(|recent|, Replay(l, entries).workspaces) == recent
  {
    hide FieldOk, IdOk, Touch, DistinctIds, DistinctKeys;
    if entries != [] {
      var n := |entries| - 1;
      assert DistinctKeys(entries[..n]) by { KeysPrefix(entries, n); }
      RecentSuffix(l, entries[..n]);
      var before := Replay(l, entries[..n]);
      var e := entries[n];
      assert EntryOk(e);
      match e.key
      case ResetKey =>
        assert n == 0;
        assert Expands(entries[..0]) == [];
        NoneDistinct();
      case FieldKey(f) =>
        assert e.intent.fields == [(e.intent.fields[0].0, e.intent.fields[0].1)];
        SetOne(before, e.intent.fields[0].0, e.intent.fields[0].1);
      case WorkspaceKey(id) =>
        TouchDistinct(before.workspaces, id, e.intent.expanded);
        forall w | w in Expands(entries[..n])
          ensures w.id != id
        {
          var i := ExpandsKeys(entries[..n], w);
          KeysDiffer(entries, i, n);
        }
        SuffixAfterTouch(before.workspaces, Expands(entries[..n]), id, e.intent.expanded);
    }
  }

  lemma NoneDistinct()
    ensures DistinctIds([])
  {
  }

  lemma KeysPrefix(entries: seq<Entry>, n: nat)
    requires DistinctKeys(entries) && n <= |entries|
    ensures DistinctKeys(entries[..n])
  {
  }

  lemma KeysDiffer(entries: seq<Entry>, i: nat, j: nat)
    requires DistinctKeys(entries) && i < j < |entries|
    ensures entries[i].key != entries[j].key
  {
  }

  lemma SuffixOfAppend<T>(front: seq<T>, back: seq<T>, n: nat)
    requires n <= |back|
    ensures Last(n, front + back) == Last(n, back)
  {
  }

  lemma LastOfLast<T>(xs: seq<T>, n: nat, m: nat)
    requires n <= m
    ensures Last(n, Last(m, xs)) == Last(n, xs)
  {
  }

  lemma SuffixAfterTouch(ws: seq<Workspace>, touched: seq<Workspace>, id: string, expanded: bool)
    requires var recent := Last(MAXIMUM_WORKSPACES, touched);
             |recent| <= |ws| && Last(|recent|, ws) == recent
    requires forall w | w in touched :: w.id != id
    ensures var recent := Last(MAXIMUM_WORKSPACES, touched + [Workspace(id, expanded)]);
            |recent| <= |Touch(ws, id, expanded)| && Last(|recent|, Touch(ws, id, expanded)) == recent
  {
    hide Drop, Last;
    var w := Workspace(id, expanded);
    var recent := Last(MAXIMUM_WORKSPACES, touched);
    var front := DropKeepsSuffix(ws, recent, touched, id);
    assert Drop(ws, id) + [w] == front + (recent + [w]);
    TouchedRecent(touched, w);
    var newer := Last(MAXIMUM_WORKSPACES, touched + [w]);
    SuffixOfAppend(front, recent + [w], |newer|);
    LastOfLast(Drop(ws, id) + [w], |newer|, MAXIMUM_WORKSPACES);
    LastLength(MAXIMUM_WORKSPACES, front + (recent + [w]));
  }

  lemma LastLength<T>(n: nat, xs: seq<T>)
    ensures |Last(n, xs)| == if |xs| <= n then |xs| else n
  {
  }

  lemma TouchedRecent(touched: seq<Workspace>, w: Workspace)
    ensures var recent := Last(MAXIMUM_WORKSPACES, touched);
            var newer := Last(MAXIMUM_WORKSPACES, touched + [w]);
            |newer| <= |recent + [w]| && |newer| <= MAXIMUM_WORKSPACES && Last(|newer|, recent + [w]) == newer
  {
  }

  lemma DropKeepsSuffix(ws: seq<Workspace>, recent: seq<Workspace>, touched: seq<Workspace>, id: string) returns (front: seq<Workspace>)
    requires recent == Last(MAXIMUM_WORKSPACES, touched) && |recent| <= |ws| && Last(|recent|, ws) == recent
    requires forall w | w in touched :: w.id != id
    ensures Drop(ws, id) == front + recent
  {
    var before := ws[..|ws| - |recent|];
    assert ws == before + recent;
    DropConcat(before, recent, id);
    forall i | 0 <= i < |recent|
      ensures recent[i].id != id
    {
      assert recent[i] in touched;
    }
    DropAbsent(recent, id);
    front := Drop(before, id);
  }

  /** With more than sixteen workspace entries the oldest one no longer matters. */
  lemma ReplayCapped(l: Layout, entries: seq<Entry>)
    requires EntriesOk(entries) && DistinctKeys(entries) && ResetFirst(entries) && DistinctIds(l.workspaces)
    requires |l.workspaces| <= MAXIMUM_WORKSPACES && |Expands(entries)| == MAXIMUM_WORKSPACES + 1
    ensures var kept := Without(entries, WorkspaceKey(Expands(entries)[0].id));
            EntriesOk(kept) && Replay(l, kept) == Replay(l, entries)
  {
    hide EntryOk, IntentOk, Step, Replay;
    var ws := Expands(entries);
    var key := WorkspaceKey(ws[0].id);
    var kept := Without(entries, key);
    ReplayWithout(l, entries, key);
    WithoutKeeps(entries, key);
    ExpandsWithout(entries, key);
    ExpandsDistinct(entries);
    assert ws == [ws[0]] + ws[1..];
    DropConcat([ws[0]], ws[1..], key.id);
    DropOne(ws[0], key.id);
    DropAbsent(ws[1..], key.id);
    RecentSuffix(l, entries);
    RecentSuffix(l, kept);
    ReplayLength(l, entries);
    ReplayLength(l, kept);
  }

  lemma {:induction false} ReplayLength(l: Layout, entries: seq<Entry>)
    requires EntriesOk(entries) && |l.workspaces| <= MAXIMUM_WORKSPACES
    ensures |Replay(l, entries).workspaces| <= MAXIMUM_WORKSPACES
  {
    hide FieldOk, IdOk;
    if entries != [] {
      var n := |entries| - 1;
      ReplayLength(l, entries[..n]);
      var e := entries[n];
      assert EntryOk(e);
      if e.key.FieldKey? {
        assert e.intent.fields == [(e.intent.fields[0].0, e.intent.fields[0].1)];
        SetOne(Replay(l, entries[..n]), e.intent.fields[0].0, e.intent.fields[0].1);
      }
    }
  }

  lemma {:induction false} WithoutKeeps(entries: seq<Entry>, key: Key)
    requires DistinctKeys(entries) && ResetFirst(entries)
    ensures DistinctKeys(Without(entries, key)) && ResetFirst(Without(entries, key))
  {
    if entries != [] {
      var n := |entries| - 1;
      WithoutKeeps(entries[..n], key);
      WithoutMembers(entries[..n], key);
      forall e | e in Without(entries[..n], key)
        ensures e.key != entries[n].key
      {
        var i :| 0 <= i < n && entries[i] == e;
      }
    }
  }

  // ----- adding an intent -----

  /** Well formed, but for a workspace entry too many. */
  ghost predicate NearlyFormed(edits: Edits, limit: nat) {
    && EntriesOk(edits.entries) && DistinctKeys(edits.entries) && ResetFirst(edits.entries)
    && |Expands(edits.entries)| <= limit
    && TokensOk(edits)
  }

  ghost predicate TokensOk(edits: Edits) {
    && (forall i | 0 <= i < |edits.entries| :: edits.entries[i].token < edits.made)
    && (forall i, j | 0 <= i < j < |edits.entries| :: edits.entries[i].token != edits.entries[j].token)
  }

  lemma {:induction false} WithoutTokens(entries: seq<Entry>, key: Key, made: nat)
    requires TokensOk(Edits(entries, made))
    ensures TokensOk(Edits(Without(entries, key), made))
  {
    if entries != [] {
      var n := |entries| - 1;
      WithoutTokens(entries[..n], key, made);
      WithoutMembers(entries[..n], key);
      forall e | e in Without(entries[..n], key)
        ensures e.token != entries[n].token
      {
        var i :| 0 <= i < n && entries[i] == e;
      }
    }
  }

  lemma TokensAppend(entries: seq<Entry>, made: nat, e: Entry)
    requires TokensOk(Edits(entries, made)) && e.token == made
    ensures TokensOk(Edits(entries + [e], made + 1))
  {
  }

  lemma PutFormed(edits: Edits, key: Key, intent: Intent)
    requires WellFormed(edits) && EntryOk(Entry(key, intent, edits.made)) && key != ResetKey
    ensures NearlyFormed(Put(edits, key, intent), MAXIMUM_WORKSPACES + 1)
    ensures !key.WorkspaceKey? ==> WellFormed(Put(edits, key, intent))
  {
    hide EntryOk, IdOk, FieldOk, EntriesOk, DistinctKeys, ResetFirst, TokensOk, Without;
    NearlyIsFormed(edits);
    var e := Entry(key, intent, edits.made);
    var rest := Without(edits.entries, key);
    WithoutOk(edits.entries, key);
    WithoutKeeps(edits.entries, key);
    WithoutTokens(edits.entries, key, edits.made);
    TokensAppend(rest, edits.made, e);
    ExpandsWithout(edits.entries, key);
    assert (rest + [e])[..|rest|] == rest;
    if key.WorkspaceKey? { DropMembers(Expands(edits.entries), key.id); }
    KeyAppend(edits.entries, e);
    NearlyIsFormed(Put(edits, key, intent));
  }

  lemma KeyAppend(entries: seq<Entry>, e: Entry)
    requires EntryOk(e) && e.key != ResetKey
    requires EntriesOk(Without(entries, e.key)) && DistinctKeys(Without(entries, e.key)) && ResetFirst(Without(entries, e.key))
    ensures EntriesOk(Without(entries, e.key) + [e]) && DistinctKeys(Without(entries, e.key) + [e]) && ResetFirst(Without(entries, e.key) + [e])
  {
    hide EntryOk;
    var rest := Without(entries, e.key);
    WithoutMembers(entries, e.key);
    forall i | 0 <= i < |rest|
      ensures rest[i].key != e.key
    {
      assert rest[i] in rest;
    }
  }

  lemma CanonicalShape(l: Layout)
    requires Canonical(l)
    ensures DistinctIds(l.workspaces) && |l.workspaces| <= MAXIMUM_WORKSPACES
  {
    hide IdOk, Round, Clamp, FieldOk;
  }

  lemma {:induction false} AddFields(l: Layout, edits: Edits, fields: seq<(Field, Value)>)
    requires WellFormed(edits) && DistinctIds(l.workspaces)
    requires forall i | 0 <= i < |fields| :: FieldOk(fields[i].0, fields[i].1)
    ensures WellFormed(PutFields(edits, fields))
    ensures Replay(l, PutFields(edits, fields).entries) == SetAll(Replay(l, edits.entries), fields)
  {
    hide FieldOk, WellFormed, Set, Replay, DistinctIds;
    if fields != [] {
      var n := |fields| - 1;
      AddFields(l, edits, fields[..n]);
      AddField(l, PutFields(edits, fields[..n]), fields[n].0, fields[n].1);
    }
  }

  lemma AddField(l: Layout, edits: Edits, f: Field, v: Value)
    requires WellFormed(edits) && DistinctIds(l.workspaces) && FieldOk(f, v)
    ensures var put := Put(edits, FieldKey(f), Patch([(f, v)]));
            WellFormed(put) && Replay(l, put.entries) == Set(Replay(l, edits.entries), f, v)
  {
    hide FieldOk, Set, Replay, DistinctIds;
    var e := Entry(FieldKey(f), Patch([(f, v)]), edits.made);
    PutFormed(edits, e.key, e.intent);
    ReplayPut(l, edits.entries, e);
    SetOne(Replay(l, edits.entries), f, v);
  }

  /** One more intent: what is kept then means the old entries followed by that intent. */
  lemma AddMeaning(l: Layout, edits: Edits, intent: Intent)
    requires WellFormed(edits) && IntentOk(intent) && Canonical(l)
    ensures WellFormed(Add(edits, intent))
    ensures Replay(l, Add(edits, intent).entries) == Step(Replay(l, edits.entries), intent)
  {
    hide FieldOk, SetAll, Touch, DistinctIds, Canonical, IdOk, Replay;
    CanonicalShape(l);
    match intent
    case Reset => AddReset(l, edits);
    case Patch(fields) => AddFields(l, edits, fields);
    case Expand(id, expanded) => AddExpand(l, edits, id, expanded);
  }

  lemma AddReset(l: Layout, edits: Edits)
    ensures WellFormed(Add(edits, Reset)) && Replay(l, Add(edits, Reset).entries) == DEFAULT_LAYOUT
  {
    var one := [Entry(ResetKey, Reset, edits.made)];
    assert Without([], ResetKey) + one == one;
    assert one[..0] == [];
    assert Replay(l, one) == Step(Replay(l, one[..0]), Reset);
  }

  lemma AddExpand(l: Layout, edits: Edits, id: string, expanded: bool)
    requires WellFormed(edits) && IdOk(id) && DistinctIds(l.workspaces) && |l.workspaces| <= MAXIMUM_WORKSPACES
    ensures WellFormed(Add(edits, Expand(id, expanded)))
    ensures Replay(l, Add(edits, Expand(id, expanded)).entries) == Step(Replay(l, edits.entries), Expand(id, expanded))
  {
    hide Touch, DistinctIds, Replay, IdOk, DistinctKeys, ResetFirst, TokensOk;
    var e := Entry(WorkspaceKey(id), Expand(id, expanded), edits.made);
    var put := Put(edits, e.key, e.intent);
    PutFormed(edits, e.key, e.intent);
    ReplayPut(l, edits.entries, e);
    if |Expands(put.entries)| > MAXIMUM_WORKSPACES {
      ReplayCapped(l, put.entries);
      CapFormed(put);
    } else {
      NearlyIsFormed(put);
    }
  }

  lemma NearlyIsFormed(edits: Edits)
    ensures NearlyFormed(edits, MAXIMUM_WORKSPACES) <==> WellFormed(edits)
  {
  }

  lemma CapFormed(put: Edits)
    requires NearlyFormed(put, MAXIMUM_WORKSPACES + 1) && |Expands(put.entries)| == MAXIMUM_WORKSPACES + 1
    ensures WellFormed(put.(entries := Without(put.entries, WorkspaceKey(Expands(put.entries)[0].id))))
  {
    hide EntryOk, EntriesOk, DistinctKeys, ResetFirst, TokensOk, Without, Expands, Drop;
    var ws := Expands(put.entries);
    var key := WorkspaceKey(ws[0].id);
    WithoutOk(put.entries, key);
    WithoutKeeps(put.entries, key);
    WithoutTokens(put.entries, key, put.made);
    ExpandsWithout(put.entries, key);
    DropHead(ws);
    NearlyIsFormed(put.(entries := Without(put.entries, key)));
  }

  lemma DropHead(ws: seq<Workspace>)
    requires ws != []
    ensures |Drop(ws, ws[0].id)| < |ws|
  {
    assert ws == [ws[0]] + ws[1..];
    DropConcat([ws[0]], ws[1..], ws[0].id);
    DropOne(ws[0], ws[0].id);
    DropMembers(ws[1..], ws[0].id);
  }

  // ----- coalescing preserves meaning -----

  function Intents(entries: seq<Entry>): seq<Intent> {
    seq(|entries|, i requires 0 <= i < |entries| => entries[i].intent)
  }

  predicate AllOk(intents: seq<Intent>) {
    forall i | 0 <= i < |intents| :: IntentOk(intents[i])
  }

  /** The store never refuses a kept entry, and replays it to the same layout. */
  lemma {:induction false} ReplayIsApply(l: Layout, entries: seq<Entry>)
    requires EntriesOk(entries) && Canonical(l)
    ensures ReplayAll(l, Intents(entries)) == Some(Replay(l, entries)) && Canonical(Replay(l, entries))
  {
    hide Canonical, Apply, Step, IntentOk, FieldOk, IdOk;
    if entries != [] {
      var n := |entries| - 1;
      ReplayIsApply(l, entries[..n]);
      assert Intents(entries)[..n] == Intents(entries[..n]);
      EntryIntent(entries[n]);
      PatchDistinct(entries[n].intent);
      ApplyMeaning(Replay(l, entries[..n]), entries[n].intent);
    }
  }

  lemma PatchDistinct(intent: Intent)
    requires IntentOk(intent)
    ensures intent.Patch? ==> DistinctFields(intent.fields)
  {
  }

  /**
   Replaying only the kept entries gives the same layout as replaying every intent, from
   any saved layout and for any list of valid intents: patches of several fields, resets,
   clamping and the cap of sixteen workspaces included.
   */
  lemma {:induction false} CoalescingPreservesMeaning(l: Layout, intents: seq<Intent>)
    requires Canonical(l) && AllOk(intents)
    ensures var kept := AddAll(intents);
            && WellFormed(kept)
            && ReplayAll(l, intents) == Some(Replay(l, kept.entries))
            && ReplayAll(l, Intents(kept.entries)) == ReplayAll(l, intents)
            && ReplayAll(l, intents).Some?
  {
    hide Canonical, Apply, Step, IntentOk, WellFormed, Add;
    if intents == [] {
      EmptyFormed();
      ReplayIsApply(l, []);
    } else {
      var n := |intents| - 1;
      CoalescingPreservesMeaning(l, intents[..n]);
      var before := AddAll(intents[..n]);
      FormedEntries(before);
      ReplayIsApply(l, before.entries);
      AddMeaning(l, before, intents[n]);
      FormedEntries(Add(before, intents[n]));
      PatchDistinct(intents[n]);
      ApplyMeaning(Replay(l, before.entries), intents[n]);
      ReplayIsApply(l, AddAll(intents).entries);
    }
  }

  lemma EmptyFormed()
    ensures WellFormed(EMPTY)
  {
  }

  lemma FormedEntries(edits: Edits)
    requires WellFormed(edits)
    ensures EntriesOk(edits.entries)
  {
  }

  // ----- what is kept stays small -----

  const OTHER_KEYS: set<Key> := {
    ResetKey, FieldKey(NavigationWidth), FieldKey(ResourcesWidth), FieldKey(ConversationWidth),
    FieldKey(Navigation), FieldKey(ResourcesClosed), FieldKey(Detail)}

  function Keys(entries: seq<Entry>): set<Key> {
    if entries == [] then {} else Keys(entries[..|entries| - 1]) + {entries[|entries| - 1].key}
  }

  function WorkspaceKeys(ws: seq<Workspace>): set<Key> {
    if ws == [] then {} else WorkspaceKeys(ws[..|ws| - 1]) + {WorkspaceKey(ws[|ws| - 1].id)}
  }

  lemma {:induction false} KeysCount(entries: seq<Entry>)
    requires DistinctKeys(entries)
    ensures |Keys(entries)| == |entries|
    ensures forall k :: k in Keys(entries) ==> exists i :: 0 <= i < |entries| && entries[i].key == k
  {
    if entries != [] {
      var n := |entries| - 1;
      KeysCount(entries[..n]);
      assert forall i | 0 <= i < n :: entries[..n][i].key == entries[i].key;
      assert entries[n].key !in Keys(entries[..n]);
    }
  }

  lemma {:induction false} WorkspaceKeysCount(ws: seq<Workspace>)
    ensures |WorkspaceKeys(ws)| <= |ws|
  {
    if ws != [] {
      WorkspaceKeysCount(ws[..|ws| - 1]);
    }
  }

  lemma {:induction false} KeysKnown(entries: seq<Entry>)
    requires EntriesOk(entries)
    ensures Keys(entries) <= OTHER_KEYS + WorkspaceKeys(Expands(entries))
  {
    hide IdOk;
    if entries != [] {
      var n := |entries| - 1;
      KeysKnown(entries[..n]);
      assert EntryOk(entries[n]);
      if entries[n].key.FieldKey? { NotOther(entries[n].key.field, entries[n].intent.fields[0].1); }
      if entries[n].key.WorkspaceKey? {
        assert Expands(entries)[..|Expands(entries)| - 1] == Expands(entries[..n]);
      }
    }
  }

  lemma SubsetSize<T>(a: set<T>, b: set<T>)
    requires a <= b
    ensures |a| <= |b|
  {
    if a != b {
      var x :| x in b && x !in a;
      SubsetSize(a, b - {x});
    }
  }

  /** However many intents arrive, at most one reset, six fields and sixteen workspaces are kept. */
  lemma KeptStaysSmall(edits: Edits)
    requires WellFormed(edits)
    ensures |edits.entries| <= 23
  {
    KeysCount(edits.entries);
    KeysKnown(edits.entries);
    WorkspaceKeysCount(Expands(edits.entries));
    SubsetSize(Keys(edits.entries), OTHER_KEYS + WorkspaceKeys(Expands(edits.entries)));
    UnionSize(OTHER_KEYS, WorkspaceKeys(Expands(edits.entries)));
  }

  lemma UnionSize<T>(a: set<T>, b: set<T>)
    ensures |a + b| <= |a| + |b|
  {
    assert a + b == a + (b - a);
    SubsetSize(b - a, b);
  }

  // ----- the entries as the program keeps them -----

  class LayoutEntries {
    var entries: seq<Entry>
    var made: nat

    function View(): Edits
      reads this
    {
      Edits(entries, made)
    }

    constructor ()
      ensures View() == EMPTY
    {
      entries, made := [], 0;
    }

    method PutEntry(key: Key, intent: Intent)
      modifies this
      ensures View() == Put(old(View()), key, intent)
    {
      entries := Without(entries, key);
      entries := entries + [Entry(key, intent, made)];
      made := made + 1;
    }

    method AddIntent(intent: Intent)
      modifies this
      ensures View() == Add(old(View()), intent)
    {
      match intent
      case Reset =>
        entries := [];
        PutEntry(ResetKey, intent);
      case Patch(fields) =>
        for i := 0 to |fields|
          invariant View() == PutFields(old(View()), fields[..i])
        {
          assert fields[..i + 1][..i] == fields[..i];
          PutEntry(FieldKey(fields[i].0), Patch([fields[i]]));
        }
        assert fields[..|fields|] == fields;
      case Expand(id, _) =>
        PutEntry(WorkspaceKey(id), intent);
        var workspaces := Expands(entries);
        if |workspaces| > MAXIMUM_WORKSPACES { entries := Without(entries, WorkspaceKey(workspaces[0].id)); }
    }

    method FirstEntry() returns (first: Option<Entry>)
      ensures first == First(View())
    {
      if entries == [] { return None; }
      return Some(entries[0]);
    }

    method SavedEntry(entry: Entry)
      modifies this
      ensures View() == Saved(old(View()), entry)
    {
      if entry in entries { entries := Without(entries, entry.key); }
    }
  }
}
