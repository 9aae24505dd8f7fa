/**
 Device layouts: parsing, clamping, and what one intent means to the saved layout.
 */
module Layouts {
  import opened Wrappers

  const MAXIMUM_WORKSPACES: nat := 16
  const LARGEST_SAFE_INTEGER: int := 9007199254740991

  /** What a patch may carry: numbers are finite or not, and anything else is `Composite`. */
  datatype Value = Number(n: real) | NotFinite | Null | Boolean(b: bool) | Text(s: string) | Composite

  datatype Field = NavigationWidth | ResourcesWidth | ConversationWidth | Navigation | ResourcesClosed | Detail | OtherField(name: string)

  datatype Workspace = Workspace(id: string, expanded: bool)

  datatype Layout = Layout(
    navigationWidth: real, resourcesWidth: real, conversationWidth: Option<int>,
    navigation: string, resourcesClosed: bool, detail: string, workspaces: seq<Workspace>)

  datatype Intent = Reset | Patch(fields: seq<(Field, Value)>) | Expand(id: string, expanded: bool)

  const DEFAULT_LAYOUT := Layout(280.0, 0.45, None, "expanded", true, "standard", [])

  // ----- parsing -----

  /** A layout as it arrives, before any field was checked. */
  datatype Raw = Raw(
    navigationWidth: Value, resourcesWidth: Value, conversationWidth: Value,
    navigation: Value, resourcesClosed: Value, detail: Value, workspaces: seq<Workspace>)

  function ToRaw(l: Layout): Raw {
    Raw(Number(l.navigationWidth), Number(l.resourcesWidth),
        if l.conversationWidth.Some? then Number(l.conversationWidth.value as real) else Null,
        Text(l.navigation), Boolean(l.resourcesClosed), Text(l.detail), l.workspaces)
  }

  predicate IdOk(id: string) {
    && 1 <= |id| <= 128
    && (forall i | 0 <= i < |id| :: 'a' <= id[i] <= 'z' || 'A' <= id[i] <= 'Z' || '0' <= id[i] <= '9' || id[i] == '_' || id[i] == '-')
  }

  predicate WorkspacesOk(ws: seq<Workspace>) {
    && |ws| <= MAXIMUM_WORKSPACES
    && (forall i | 0 <= i < |ws| :: IdOk(ws[i].id))
    && DistinctIds(ws)
  }

  predicate DistinctIds(ws: seq<Workspace>) {
    forall i, j | 0 <= i < j < |ws| :: ws[i].id != ws[j].id
  }

  predicate SafeInteger(n: real) {
    n == n.Floor as real && -LARGEST_SAFE_INTEGER <= n.Floor <= LARGEST_SAFE_INTEGER
  }

  predicate FieldOk(f: Field, v: Value) {
    match f
    case NavigationWidth => v.Number?
    case ResourcesWidth => v.Number?
    case ConversationWidth => v.Null? || (v.Number? && SafeInteger(v.n) && v.n.Floor >= 640)
    case Navigation => v.Text? && v.s in {"expanded", "rail", "hidden"}
    case ResourcesClosed => v.Boolean?
    case Detail => v.Text? && v.s in {"compact", "standard", "detailed", "verbose"}
    case OtherField(_) => false
  }

  function Clamp(low: real, high: real, n: real): real {
    var atMost := if n < high then n else high;
    if atMost > low then atMost else low
  }

  /** Rounding to the nearest integer, halves upward. */
  function Round(n: real): real {
    (n + 0.5).Floor as real
  }

  function Parse(raw: Raw): Option<Layout> {
    if
      && FieldOk(NavigationWidth, raw.navigationWidth) && FieldOk(ResourcesWidth, raw.resourcesWidth)
      && FieldOk(ConversationWidth, raw.conversationWidth) && FieldOk(Navigation, raw.navigation)
      && FieldOk(ResourcesClosed, raw.resourcesClosed) && FieldOk(Detail, raw.detail)
      && WorkspacesOk(raw.workspaces)
    then Some(Layout(
      Round(Clamp(264.0, 420.0, raw.navigationWidth.n)), Clamp(0.2, 0.7, raw.resourcesWidth.n),
      if raw.conversationWidth.Null? then None else Some(raw.conversationWidth.n.Floor),
      raw.navigation.s, raw.resourcesClosed.b, raw.detail.s, raw.workspaces))
    else None
  }

  /** A layout the store accepts as saved: parsing it changes nothing. */
  predicate Canonical(l: Layout) {
    Parse(ToRaw(l)) == Some(l)
  }

  /** What parsing accepts it also accepts again, unchanged. */
  lemma ParseIsIdempotent(raw: Raw)
    requires Parse(raw).Some?
    ensures Canonical(Parse(raw).value)
  {
    var l := Parse(raw).value;
    var c := Clamp(264.0, 420.0, raw.navigationWidth.n);
    assert 264.0 <= Round(c) <= 420.0;
    RoundOfInteger((c + 0.5).Floor);
    assert Round(Clamp(264.0, 420.0, l.navigationWidth)) == l.navigationWidth;
    if raw.conversationWidth.Number? { assert l.conversationWidth.value as real == raw.conversationWidth.n; }
  }

  lemma RoundOfInteger(n: int)
    ensures Round(n as real) == n as real
  {
    assert (n as real + 0.5).Floor == n;
  }

  // ----- one intent -----

  function With(raw: Raw, f: Field, v: Value): Raw {
    match f
    case NavigationWidth => raw.(navigationWidth := v)
    case ResourcesWidth => raw.(resourcesWidth := v)
    case ConversationWidth => raw.(conversationWidth := v)
    case Navigation => raw.(navigation := v)
    case ResourcesClosed => raw.(resourcesClosed := v)
    case Detail => raw.(detail := v)
    case OtherField(_) => raw
  }

  function Spread(raw: Raw, fields: seq<(Field, Value)>): Raw {
    if fields == [] then raw
    else With(Spread(raw, fields[..|fields| - 1]), fields[|fields| - 1].0, fields[|fields| - 1].1)
  }

  function Last<T>(n: nat, xs: seq<T>): seq<T> {
    if |xs| <= n then xs else xs[|xs| - n..]
  }

  function Drop(ws: seq<Workspace>, id: string): seq<Workspace> {
    if ws == [] then []
    else
      var init := Drop(ws[..|ws| - 1], id);
      if ws[|ws| - 1].id == id then init else init + [ws[|ws| - 1]]
  }

  /** The most recent sixteen workspaces, the touched one last. */
  function Touch(ws: seq<Workspace>, id: string, expanded: bool): seq<Workspace> {
    Last(MAXIMUM_WORKSPACES, Drop(ws, id) + [Workspace(id, expanded)])
  }

  function WorkspacePreference(l: Layout, id: string, expanded: bool): Layout {
    match Parse(ToRaw(l.(workspaces := Touch(l.workspaces, id, expanded))))
    case Some(parsed) => parsed
    case None => DEFAULT_LAYOUT
  }

  /** The saved layout after an intent, or nothing when the store refuses it. */
  function Apply(l: Layout, intent: Intent): Option<Layout> {
    if intent.Reset? then Some(DEFAULT_LAYOUT)
    else if !Canonical(l) then None
    else
      var result :=
        match intent
        case Expand(id, expanded) => if IdOk(id) then Some(WorkspacePreference(l, id, expanded)) else None
        case Patch(fields) =>
          if exists i :: 0 <= i < |fields| && fields[i].0.OtherField? then None else Parse(Spread(ToRaw(l), fields))
        case Reset => None;
      match result
      case Some(next) => if Canonical(next) then Some(next) else None
      case None => None
  }

  /** An object has each key at most once. */
  predicate DistinctFields(fields: seq<(Field, Value)>) {
    forall i, j | 0 <= i < j < |fields| :: fields[i].0 != fields[j].0
  }

  predicate IntentOk(intent: Intent) {
    match intent
    case Reset => true
    case Patch(fields) => DistinctFields(fields) && forall i | 0 <= i < |fields| :: FieldOk(fields[i].0, fields[i].1)
    case Expand(id, _) => IdOk(id)
  }

  // ----- what one intent does -----

  /** Sets one field, clamped. */
  function Set(l: Layout, f: Field, v: Value): Layout
    requires FieldOk(f, v)
  {
    match f
    case NavigationWidth => l.(navigationWidth := Round(Clamp(264.0, 420.0, v.n)))
    case ResourcesWidth => l.(resourcesWidth := Clamp(0.2, 0.7, v.n))
    case ConversationWidth => l.(conversationWidth := if v.Null? then None else Some(v.n.Floor))
    case Navigation => l.(navigation := v.s)
    case ResourcesClosed => l.(resourcesClosed := v.b)
    case Detail => l.(detail := v.s)
  }

  function Get(raw: Raw, f: Field): Value {
    match f
    case NavigationWidth => raw.navigationWidth
    case ResourcesWidth => raw.resourcesWidth
    case ConversationWidth => raw.conversationWidth
    case Navigation => raw.navigation
    case ResourcesClosed => raw.resourcesClosed
    case Detail => raw.detail
    case OtherField(_) => Null
  }

  /** Replacing a field that parsed: the rest is untouched, and the result parses iff the new value does. */
  lemma ParseWith(raw: Raw, f: Field, v: Value)
    requires !f.OtherField? && FieldOk(f, Get(raw, f))
    ensures Parse(With(raw, f, v)).Some? <==> Parse(raw).Some? && FieldOk(f, v)
    ensures Parse(raw).Some? && FieldOk(f, v) ==> Parse(With(raw, f, v)) == Some(Set(Parse(raw).value, f, v))
  {
    hide Round, Clamp, WorkspacesOk, SafeInteger;
  }

  function SetAll(l: Layout, fields: seq<(Field, Value)>): Layout
    requires forall i | 0 <= i < |fields| :: FieldOk(fields[i].0, fields[i].1)
  {
    if fields == [] then l
    else Set(SetAll(l, fields[..|fields| - 1]), fields[|fields| - 1].0, fields[|fields| - 1].1)
  }

  lemma {:induction false} SpreadKeeps(raw: Raw, fields: seq<(Field, Value)>, f: Field)
    requires forall i | 0 <= i < |fields| :: fields[i].0 != f
    ensures Get(Spread(raw, fields), f) == Get(raw, f)
  {
    if fields != [] {
      SpreadKeeps(raw, fields[..|fields| - 1], f);
    }
  }

  lemma {:induction false} ParseSpread(l: Layout, fields: seq<(Field, Value)>)
    requires Canonical(l) && DistinctFields(fields) && forall i | 0 <= i < |fields| :: !fields[i].0.OtherField?
    ensures Parse(Spread(ToRaw(l), fields)).Some? <==> forall i | 0 <= i < |fields| :: FieldOk(fields[i].0, fields[i].1)
    ensures (forall i | 0 <= i < |fields| :: FieldOk(fields[i].0, fields[i].1)) ==>
              Parse(Spread(ToRaw(l), fields)) == Some(SetAll(l, fields))
  {
    hide Parse, FieldOk;
    if fields != [] {
      var n := |fields| - 1;
      var init := fields[..n];
      ParseSpread(l, init);
      SpreadKeeps(ToRaw(l), init, fields[n].0);
      CanonicalFields(l, fields[n].0);
      ParseWith(Spread(ToRaw(l), init), fields[n].0, fields[n].1);
      assert (forall i | 0 <= i < |fields| :: FieldOk(fields[i].0, fields[i].1)) <==>
             (forall i | 0 <= i < n :: FieldOk(init[i].0, init[i].1)) && FieldOk(fields[n].0, fields[n].1);
    }
  }

  lemma CanonicalFields(l: Layout, f: Field)
    requires Canonical(l) && !f.OtherField?
    ensures FieldOk(f, Get(ToRaw(l), f))
  {
    hide WorkspacesOk, Round, Clamp;
  }

  lemma {:induction false} DropMembers(ws: seq<Workspace>, id: string)
    ensures |Drop(ws, id)| <= |ws|
    ensures forall w :: w in Drop(ws, id) <==> w in ws && w.id != id
    ensures DistinctIds(ws) ==> DistinctIds(Drop(ws, id))
  {
    if ws != [] {
      var n := |ws| - 1;
      DropMembers(ws[..n], id);
      assert ws == ws[..n] + [ws[n]];
      if DistinctIds(ws) {
        forall w | w in Drop(ws[..n], id)
          ensures w.id != ws[n].id
        {
          var i :| 0 <= i < n && ws[i] == w;
        }
      }
    }
  }

  lemma TouchKeepsOk(ws: seq<Workspace>, id: string, expanded: bool)
    requires WorkspacesOk(ws) && IdOk(id)
    ensures WorkspacesOk(Touch(ws, id, expanded))
  {
    hide IdOk;
    DropMembers(ws, id);
    var all := Drop(ws, id) + [Workspace(id, expanded)];
    forall i | 0 <= i < |all|
      ensures IdOk(all[i].id) && (i < |all| - 1 ==> all[i].id != id)
    {
      if i < |all| - 1 { assert all[i] in Drop(ws, id); }
    }
    assert DistinctIds(all);
  }

  lemma CanonicalWorkspaces(l: Layout, ws: seq<Workspace>)
    requires Canonical(l) && WorkspacesOk(ws)
    ensures Canonical(l.(workspaces := ws)) && WorkspacesOk(l.workspaces)
  {
    hide WorkspacesOk, Round, Clamp;
  }

  /** The layout after an accepted intent. */
  function Step(l: Layout, intent: Intent): Layout
    requires IntentOk(intent)
  {
    match intent
    case Reset => DEFAULT_LAYOUT
    case Patch(fields) => SetAll(l, fields)
    case Expand(id, expanded) => l.(workspaces := Touch(l.workspaces, id, expanded))
  }

  lemma DefaultCanonical()
    ensures Canonical(DEFAULT_LAYOUT)
  {
    RoundOfInteger(280);
  }

  /**
   The store accepts an intent exactly when each part of it is acceptable, whatever the
   saved layout is; the result is again a layout it accepts, in which only the named
   fields differ.
   */
  lemma ApplyMeaning(l: Layout, intent: Intent)
    requires Canonical(l) && (intent.Patch? ==> DistinctFields(intent.fields))
    ensures Apply(l, intent).Some? <==> IntentOk(intent)
    ensures IntentOk(intent) ==> Apply(l, intent) == Some(Step(l, intent)) && Canonical(Step(l, intent))
  {
    hide Parse, IdOk, WorkspacesOk, FieldOk;
    match intent
    case Reset => DefaultCanonical();
    case Patch(fields) =>
      if exists i :: 0 <= i < |fields| && fields[i].0.OtherField? {
        var i :| 0 <= i < |fields| && fields[i].0.OtherField?;
        OtherRefused(fields[i].0, fields[i].1);
      } else {
        ParseSpread(l, fields);
        if Parse(Spread(ToRaw(l), fields)).Some? { ParseIsIdempotent(Spread(ToRaw(l), fields)); }
      }
    case Expand(id, expanded) =>
      if IdOk(id) {
        CanonicalWorkspaces(l, []) by { NoWorkspaces(); }
        TouchKeepsOk(l.workspaces, id, expanded);
        CanonicalWorkspaces(l, Touch(l.workspaces, id, expanded));
      }
  }

  lemma NoWorkspaces()
    ensures WorkspacesOk([])
  {
  }

  lemma OtherRefused(f: Field, v: Value)
    requires f.OtherField?
    ensures !FieldOk(f, v)
  {
  }
}
