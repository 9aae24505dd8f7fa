/**
 Renderer lifetimes: one mount table at a time stages, replaces and disposes renderers, and
 the document admits the next table only when the previous one closed cleanly. Renderer
 selection and offers are choices of the environment; a renderer is identified by the
 entry that holds it.
 */
module Mounts {
  import opened Wrappers

  type Key = string

  /** What `mount` returned: a lifecycle, or an object without `update` or without `dispose`. */
  datatype Mounted = NotMounted | Mounting | Valid | NoUpdate | NoDispose

  datatype Cleanup = NotDrained | Disposing | Finishing(ok: bool) | Clean | Failed

  /** A renderer of a table; `disposals` counts the calls of its `dispose`. */
  datatype Entry = Entry(table: nat, key: Key, mounted: Mounted, cleanup: Cleanup, disposals: nat)

  datatype Pc =
    | Staging(at: nat)
    | Importing(at: nat, entry: nat)
    | Mount(at: nat, entry: nat)
    | Updating(at: nat)
    | AwaitingUpdate(at: nat, entry: nat)
    | Replacing
    | AwaitingDrain(entry: nat)
    | Recovering

  datatype Render = Idle | Rendering(offered: bool, replacing: bool, slots: seq<Key>, pc: Pc)

  datatype Closing = NotClosing | WaitingRender | Draining(entries: seq<nat>) | Finished(ok: bool)

  /** The result that `close` hands out: it may fail early, when the cleanup takes too long. */
  datatype CloseResult = NoResult | Pending | Resolved | Rejected

  datatype Table = Table(
    entries: seq<nat>, staged: seq<nat>, render: Render, closed: bool, cleanupError: bool,
    closing: Closing, result: CloseResult)

  datatype Opener = NotOpening | AwaitingClose(table: nat)

  datatype State = State(
    current: Option<nat>, closing: Option<nat>, opener: Opener, blocked: bool, tables: seq<Table>, entries: seq<Entry>)

  const INITIAL := State(None, None, NotOpening, false, [], [])
  const NEW_TABLE := Table([], [], Idle, false, false, NotClosing, NoResult)

  function SetTable(s: State, t: nat, table: Table): State
    requires t < |s.tables|
  {
    s.(tables := s.tables[t := table])
  }

  function SetEntry(s: State, e: nat, entry: Entry): State
    requires e < |s.entries|
  {
    s.(entries := s.entries[e := entry])
  }

  // ----- draining -----

  predicate Settled(c: Cleanup) {
    c.Clean? || c.Failed?
  }

  predicate Disposable(m: Mounted) {
    m.Valid? || m.NoUpdate?
  }

  /** Starts the cleanup of an entry, once: a second drain waits for the same cleanup. */
  function DrainEntry(entry: Entry): Entry {
    if !entry.cleanup.NotDrained? then entry
    else match entry.mounted
      case Valid | NoUpdate => entry.(cleanup := Disposing, disposals := entry.disposals + 1)
      case NoDispose => entry.(cleanup := Finishing(false))
      case _ => entry.(cleanup := Finishing(true))
  }

  predicate Bad(c: Cleanup) {
    c.Failed? || (c.Finishing? && !c.ok)
  }

  /** Draining an object without `dispose` fails at once, and that blocks the document. */
  function Drain(s: State, e: nat): State {
    if e >= |s.entries| then s
    else
      var after := DrainEntry(s.entries[e]);
      SetEntry(s, e, after).(blocked := s.blocked || (s.entries[e].cleanup.NotDrained? && Bad(after.cleanup)))
  }

  function DrainAll(s: State, es: seq<nat>): State
    decreases |es|
  {
    if es == [] then s else DrainAll(Drain(s, es[0]), es[1..])
  }

  predicate AllSettled(s: State, es: seq<nat>) {
    forall i | 0 <= i < |es| :: es[i] < |s.entries| && Settled(s.entries[es[i]].cleanup)
  }

  predicate AnyFailed(s: State, es: seq<nat>) {
    exists i :: 0 <= i < |es| && es[i] < |s.entries| && s.entries[es[i]].cleanup.Failed?
  }

  /** `dispose` returned or threw; a failure blocks the document at once. */
  function Disposed(s: State, e: nat, ok: bool): State {
    if e < |s.entries| && s.entries[e].cleanup.Disposing?
    then SetEntry(s, e, s.entries[e].(cleanup := Finishing(ok))).(blocked := s.blocked || !ok)
    else s
  }

  /** The entry's remaining calls settled too. */
  function WorkSettled(s: State, e: nat): State {
    if e < |s.entries| && s.entries[e].cleanup.Finishing?
    then SetEntry(s, e, s.entries[e].(cleanup := if s.entries[e].cleanup.ok then Clean else Failed))
    else s
  }

  // ----- opening -----

  function TryOpen(s: State): State {
    if s.blocked || s.current.Some? then s.(opener := NotOpening)
    else s.(opener := NotOpening, current := Some(|s.tables|), tables := s.tables + [NEW_TABLE])
  }

  function Open(s: State): State {
    if !s.opener.NotOpening? then s
    else if s.closing.Some? then s.(opener := AwaitingClose(s.closing.value))
    else TryOpen(s)
  }

  /** The close that an open waited for settled. */
  function ResumeOpen(s: State): State {
    if s.opener.AwaitingClose? && s.opener.table < |s.tables| then
      match s.tables[s.opener.table].result
      case Resolved => TryOpen(s)
      case Rejected => s.(opener := NotOpening)
      case _ => s
    else s
  }

  // ----- rendering -----

  function StartRender(s: State, t: nat, offered: bool, slots: seq<Key>): State
    requires t < |s.tables|
  {
    var table := s.tables[t];
    if s.blocked || table.closed || !table.render.Idle? then s
    else SetTable(s, t, table.(render := Rendering(offered, false, slots, Staging(0))))
  }

  predicate HasKey(s: State, es: seq<nat>, key: Key) {
    exists i :: 0 <= i < |es| && es[i] < |s.entries| && s.entries[es[i]].key == key
  }

  function Go(table: Table, pc: Pc): Table
    requires table.render.Rendering?
  {
    table.(render := table.render.(pc := pc))
  }

  /** Something failed: every staged entry is drained before anything else happens. */
  function Recover(s: State, t: nat): State
    requires t < |s.tables| && s.tables[t].render.Rendering?
  {
    DrainAll(SetTable(s, t, Go(s.tables[t], Recovering)), s.tables[t].staged)
  }

  datatype Choice = Keep | Placeholder | BrokenPlaceholder | Load | Refuse

  function StageNew(s: State, t: nat, key: Key, mounted: Mounted, pc: Pc): State
    requires t < |s.tables| && s.tables[t].render.Rendering?
  {
    var table := s.tables[t];
    SetTable(s, t, Go(table, pc).(staged := table.staged + [|s.entries|]))
      .(entries := s.entries + [Entry(t, key, mounted, NotDrained, 0)])
  }

  /** Decides one slot: the old renderer stays, a notice stands in or fails to show, a renderer is loaded, or the offer is refused. */
  function Stage(s: State, t: nat, choice: Choice): State
    requires t < |s.tables| && s.tables[t].render.Rendering? && s.tables[t].render.pc.Staging?
  {
    var table := s.tables[t];
    var at := table.render.pc.at;
    if at >= |table.render.slots| then SetTable(s, t, Go(table, Updating(0)))
    else match choice
      case Keep =>
        if HasKey(s, table.entries, table.render.slots[at]) then SetTable(s, t, Go(table, Staging(at + 1))) else Recover(s, t)
      case Placeholder => StageNew(s, t, table.render.slots[at], Valid, Staging(at + 1))
      case BrokenPlaceholder => Recover(StageNew(s, t, table.render.slots[at], NotMounted, Staging(at + 1)), t)
      case Load => StageNew(s, t, table.render.slots[at], NotMounted, Importing(at, |s.entries|))
      case Refuse => Recover(s, t)
  }

  function Imported(s: State, t: nat, ok: bool): State
    requires t < |s.tables| && s.tables[t].render.Rendering? && s.tables[t].render.pc.Importing?
  {
    var table := s.tables[t];
    var e := table.render.pc.entry;
    if !ok || table.closed || e >= |s.entries| then Recover(s, t)
    else SetEntry(SetTable(s, t, Go(table, Mount(table.render.pc.at, e))), e, s.entries[e].(mounted := Mounting))
  }

  /** `mount` returned a lifecycle, returned something else, or threw. */
  function MountReturned(s: State, t: nat, result: Mounted): State
    requires t < |s.tables| && s.tables[t].render.Rendering? && s.tables[t].render.pc.Mount?
  {
    var table := s.tables[t];
    var e := table.render.pc.entry;
    if e >= |s.entries| then Recover(s, t)
    else
      var n := SetEntry(s, e, s.entries[e].(mounted := if result.Mounting? then NotMounted else result));
      if result.Valid? && !table.closed then SetTable(n, t, Go(table, Staging(table.render.pc.at + 1))) else Recover(n, t)
  }

  function FirstWithKey(s: State, es: seq<nat>, key: Key): Option<nat> {
    if es == [] then None
    else if es[0] < |s.entries| && s.entries[es[0]].key == key then Some(es[0])
    else FirstWithKey(s, es[1..], key)
  }

  /** Updates the renderers that stay, one after the other. */
  function Update(s: State, t: nat): State
    requires t < |s.tables| && s.tables[t].render.Rendering? && s.tables[t].render.pc.Updating?
  {
    var table := s.tables[t];
    var at := table.render.pc.at;
    if at >= |table.render.slots| then SetTable(s, t, table.(render := table.render.(pc := Replacing, replacing := true)))
    else if HasKey(s, table.staged, table.render.slots[at]) then SetTable(s, t, Go(table, Updating(at + 1)))
    else
      match FirstWithKey(s, table.entries, table.render.slots[at])
      case None => Recover(s, t)
      case Some(e) =>
        SetTable(s, t, Go(table, AwaitingUpdate(at, e)))
  }

  function Updated(s: State, t: nat, ok: bool): State
    requires t < |s.tables| && s.tables[t].render.Rendering? && s.tables[t].render.pc.AwaitingUpdate?
  {
    var table := s.tables[t];
    if !ok || table.closed then Recover(s, t) else SetTable(s, t, Go(table, Updating(table.render.pc.at + 1)))
  }

  /** The first old entry that is replaced or no longer shown. */
  function FirstReplaced(s: State, es: seq<nat>, staged: seq<nat>, slots: seq<Key>): Option<nat> {
    if es == [] then None
    else if es[0] < |s.entries| && (HasKey(s, staged, s.entries[es[0]].key) || s.entries[es[0]].key !in slots) then Some(es[0])
    else FirstReplaced(s, es[1..], staged, slots)
  }

  /** Old renderers go one by one; then the staged ones are shown, unless the table closed meanwhile. */
  function Replace(s: State, t: nat, activates: bool): State
    requires t < |s.tables| && s.tables[t].render.Rendering? && s.tables[t].render.pc.Replacing?
  {
    var table := s.tables[t];
    match FirstReplaced(s, table.entries, table.staged, table.render.slots)
    case Some(e) => Drain(SetTable(s, t, Go(table, AwaitingDrain(e))), e)
    case None =>
      if table.closed then Recover(s, t)
      else
        var shown := table.(entries := table.entries + table.staged);
        if activates then SetTable(s, t, shown.(staged := [], render := Idle)) else Recover(SetTable(s, t, shown), t)
  }

  function Without(es: seq<nat>, e: nat): seq<nat> {
    if es == [] then [] else if es[0] == e then Without(es[1..], e) else [es[0]] + Without(es[1..], e)
  }

  /** The drained entry leaves the table only when its cleanup succeeded. */
  function Drained(s: State, t: nat): State
    requires t < |s.tables| && s.tables[t].render.Rendering? && s.tables[t].render.pc.AwaitingDrain?
  {
    var table := s.tables[t];
    var e := table.render.pc.entry;
    if e >= |s.entries| then Recover(s, t)
    else match s.entries[e].cleanup
      case Clean => SetTable(s, t, Go(table, Replacing).(entries := Without(table.entries, e)))
      case Failed => Recover(s, t)
      case _ => s
  }

  /** All staged entries settled: the render fails, or the accepted offer is rendered again. */
  function Recovered(s: State, t: nat): State
    requires t < |s.tables| && s.tables[t].render.Rendering? && s.tables[t].render.pc.Recovering?
  {
    var table := s.tables[t];
    if !AllSettled(s, table.staged) then s
    else if AnyFailed(s, table.staged) then SetTable(s, t, table.(staged := [], render := Idle, cleanupError := true))
    else if table.closed || !table.render.offered || table.render.replacing then SetTable(s, t, table.(staged := [], render := Idle))
    else SetTable(s, t, table.(staged := [], render := Rendering(false, false, table.render.slots, Staging(0))))
  }

  // ----- closing -----

  function Close(s: State, t: nat): State
    requires t < |s.tables|
  {
    var table := s.tables[t];
    if !table.result.NoResult? then s
    else SetTable(s, t, table.(closed := true, closing := WaitingRender, result := Pending)).(closing := Some(t))
  }

  /** After the running render, every entry of the table is drained. */
  function DrainTable(s: State, t: nat): State
    requires t < |s.tables|
  {
    var table := s.tables[t];
    if !table.closing.WaitingRender? || !table.render.Idle? then s
    else DrainAll(SetTable(s, t, table.(entries := [], closing := Draining(table.entries))), table.entries)
  }

  function FinishClose(s: State, t: nat): State
    requires t < |s.tables|
  {
    var table := s.tables[t];
    if !table.closing.Draining? || !AllSettled(s, table.closing.entries) then s
    else
      var ok := !table.cleanupError && !AnyFailed(s, table.closing.entries);
      SetTable(s, t, table.(closing := Finished(ok), result := if table.result.Pending? then if ok then Resolved else Rejected else table.result))
        .(blocked := s.blocked || (table.result.Pending? && !ok))
  }

  function TimeOut(s: State, t: nat): State
    requires t < |s.tables|
  {
    var table := s.tables[t];
    if table.result.Pending? then SetTable(s, t, table.(result := Rejected)).(blocked := true) else s
  }

  /** A resolved close gives up the document. */
  function Release(s: State, t: nat): State
    requires t < |s.tables|
  {
    if s.tables[t].result.Resolved? && s.current == Some(t) then s.(current := None, closing := None) else s
  }

  // ----- steps -----

  datatype Event =
    | Opens
    | OpenResumes
    | Renders(table: nat, offered: bool, slots: seq<Key>)
    | Continues(table: nat, choice: Choice, ok: bool, result: Mounted)
    | Closes(table: nat)
    | DrainsTable(table: nat)
    | FinishesClose(table: nat)
    | TimesOut(table: nat)
    | Releases(table: nat)
    | Disposes(entry: nat, ok: bool)
    | Settles(entry: nat)

  /** The running render of a table goes on until its next wait. */
  function Continue(s: State, t: nat, choice: Choice, ok: bool, result: Mounted): State
    requires t < |s.tables|
  {
    match s.tables[t].render
    case Idle => s
    case Rendering(_, _, _, pc) =>
      match pc
      case Staging(_) => Stage(s, t, choice)
      case Importing(_, _) => Imported(s, t, ok)
      case Mount(_, _) => MountReturned(s, t, result)
      case Updating(_) => Update(s, t)
      case AwaitingUpdate(_, _) => Updated(s, t, ok)
      case Replacing => Replace(s, t, ok)
      case AwaitingDrain(_) => Drained(s, t)
      case Recovering => Recovered(s, t)
  }

  function Next(s: State, ev: Event): State {
    match ev
    case Opens => Open(s)
    case OpenResumes => ResumeOpen(s)
    case Disposes(e, ok) => Disposed(s, e, ok)
    case Settles(e) => WorkSettled(s, e)
    case Renders(t, offered, slots) => if t < |s.tables| then StartRender(s, t, offered, slots) else s
    case Continues(t, choice, ok, result) => if t < |s.tables| then Continue(s, t, choice, ok, result) else s
    case Closes(t) => if t < |s.tables| then Close(s, t) else s
    case DrainsTable(t) => if t < |s.tables| then DrainTable(s, t) else s
    case FinishesClose(t) => if t < |s.tables| then FinishClose(s, t) else s
    case TimesOut(t) => if t < |s.tables| then TimeOut(s, t) else s
    case Releases(t) => if t < |s.tables| then Release(s, t) else s
  }

  // ----- the invariant -----

  /** The entries a table still answers for. */
  function Held(table: Table): seq<nat> {
    table.entries + table.staged + if table.closing.Draining? then table.closing.entries else []
  }

  /** A renderer is disposed at most once, and exactly when it is drained with a lifecycle. */
  predicate EntryOk(x: Entry) {
    && (x.cleanup.NotDrained? ==> x.disposals == 0)
    && (!x.cleanup.NotDrained? ==> !x.mounted.Mounting? && x.disposals == if Disposable(x.mounted) then 1 else 0)
    && (x.mounted.NoDispose? && !x.cleanup.NotDrained? ==> Bad(x.cleanup))
    && (x.cleanup.Disposing? ==> Disposable(x.mounted))
  }

  predicate PcOk(entries: seq<Entry>, pc: Pc) {
    && (pc.Importing? ==> pc.entry < |entries| && entries[pc.entry].mounted.NotMounted? && entries[pc.entry].cleanup.NotDrained?)
    && (pc.Mount? ==> pc.entry < |entries| && entries[pc.entry].mounted.Mounting?)
  }

  predicate ClosingOk(table: Table) {
    && (table.closing.NotClosing? ==> table.result.NoResult?)
    && (table.closed <==> !table.closing.NotClosing?)
    && (table.closing.Draining? || table.closing.Finished? ==> table.entries == [] && table.render.Idle?)
    && (table.result.Resolved? ==> table.closing == Finished(true))
    && (table.result.NoResult? ==> table.closing.NotClosing?)
    && (table.closing.Finished? ==> !table.result.Pending?)
  }

  /** What a table relies on. */
  ghost predicate TableOk(entries: seq<Entry>, t: nat, table: Table) {
    && (forall i | 0 <= i < |Held(table)| :: Held(table)[i] < |entries| && entries[Held(table)[i]].table == t)
    && (table.render.Idle? ==> table.staged == [])
    && (table.render.Rendering? ==> PcOk(entries, table.render.pc))
    && (table.render.Rendering? && (table.render.pc.Importing? || table.render.pc.Mount?) ==> table.render.pc.entry in table.staged)
    && ClosingOk(table)
  }

  /** An entry that is not settled is still held by its table; one being mounted is what its table waits for. */
  ghost predicate Tracked(entries: seq<Entry>, e: nat, table: Table)
    requires e < |entries|
  {
    && (Settled(entries[e].cleanup) || e in Held(table))
    && (entries[e].mounted.Mounting? ==> table.render.Rendering? && table.render.pc.Mount? && table.render.pc.entry == e)
  }

  /** The entries of table `t`. */
  ghost predicate EntriesOk(s: State, t: nat)
    requires t < |s.tables|
  {
    forall e: nat | e < |s.entries| && s.entries[e].table == t ::
      EntryOk(s.entries[e]) && Tracked(s.entries, e, s.tables[t]) && (Bad(s.entries[e].cleanup) ==> s.blocked)
  }

  ghost predicate OwnerOk(s: State) {
    && (s.current.Some? ==> s.current.value < |s.tables|)
    && (forall t: nat | t < |s.tables| :: s.current == Some(t) || s.tables[t].result.Resolved?)
  }

  ghost predicate Inv(s: State) {
    && OwnerOk(s)
    && (forall e: nat | e < |s.entries| :: s.entries[e].table < |s.tables|)
    && (forall t: nat | t < |s.tables| :: TableOk(s.entries, t, s.tables[t]) && EntriesOk(s, t))
  }

  // ----- a step of one table -----

  /** Only entries of table `t` change, what is settled stays as it is, and new entries belong to `t`. */
  ghost predicate Evolves(a: seq<Entry>, b: seq<Entry>, t: nat) {
    && |a| <= |b|
    && (forall e: nat | e < |a| :: b[e].table == a[e].table && (a[e].table != t ==> b[e] == a[e]))
    && (forall e: nat | e < |a| && Settled(a[e].cleanup) :: b[e] == a[e])
    && (forall e: nat | |a| <= e < |b| :: b[e].table == t)
  }

  ghost predicate Moves(s: State, n: State, t: nat) {
    && t < |s.tables| && |n.tables| == |s.tables| && n.tables == s.tables[t := n.tables[t]]
    && Evolves(s.entries, n.entries, t) && (s.blocked ==> n.blocked)
    && n.current == s.current && (s.tables[t].result.Resolved? ==> n.tables[t].result.Resolved?)
    && TableOk(n.entries, t, n.tables[t]) && EntriesOk(n, t)
  }

  lemma MoveKeepsInv(s: State, n: State, t: nat)
    requires Inv(s) && Moves(s, n, t)
    ensures Inv(n)
  {
    hide EntryOk, ClosingOk, Bad, Settled;
    forall u: nat | u < |n.tables|
      ensures TableOk(n.entries, u, n.tables[u]) && EntriesOk(n, u)
    {
      if u != t { OtherTable(s, n, t, u); }
    }
  }

  lemma OtherTable(s: State, n: State, t: nat, u: nat)
    requires Inv(s) && Moves(s, n, t) && u < |s.tables| && u != t
    ensures TableOk(n.entries, u, n.tables[u]) && EntriesOk(n, u)
  {
    hide EntryOk, ClosingOk, Bad, Settled, Held;
    assert n.tables[u] == s.tables[u];
    var held := Held(s.tables[u]);
    assert TableOk(s.entries, u, s.tables[u]);
    forall i | 0 <= i < |held|
      ensures held[i] < |n.entries| && n.entries[held[i]] == s.entries[held[i]]
    {
    }
    if s.tables[u].render.Rendering? && (s.tables[u].render.pc.Importing? || s.tables[u].render.pc.Mount?) {
      var e := s.tables[u].render.pc.entry;
      StagedIsHeld(s.tables[u], e);
      var i :| 0 <= i < |held| && held[i] == e;
    }
    forall e: nat | e < |n.entries| && n.entries[e].table == u
      ensures e < |s.entries| && n.entries[e] == s.entries[e]
    {
    }
  }

  lemma StagedIsHeld(table: Table, e: nat)
    requires e in table.staged
    ensures e in Held(table)
  {
  }

  // ----- draining -----

  lemma {:induction false} DrainAllEffect(s: State, es: seq<nat>)
    ensures var n := DrainAll(s, es);
            && n == s.(entries := n.entries, blocked := n.blocked) && |n.entries| == |s.entries| && (s.blocked ==> n.blocked)
            && (forall e: nat | e < |s.entries| :: n.entries[e] == if e in es then DrainEntry(s.entries[e]) else s.entries[e])
            && (forall e: nat | e < |s.entries| && Bad(n.entries[e].cleanup) && !Bad(s.entries[e].cleanup) :: n.blocked)
    decreases |es|
  {
    hide Bad;
    if es != [] {
      DrainAllEffect(Drain(s, es[0]), es[1..]);
      assert es == [es[0]] + es[1..];
      DrainTwice();
    }
  }

  lemma DrainTwice()
    ensures forall x: Entry :: DrainEntry(DrainEntry(x)) == DrainEntry(x)
  {
  }

  lemma DrainOk(x: Entry)
    requires EntryOk(x) && !x.mounted.Mounting?
    ensures EntryOk(DrainEntry(x)) && DrainEntry(x).table == x.table && DrainEntry(x).mounted == x.mounted
    ensures Settled(x.cleanup) ==> DrainEntry(x) == x
    ensures Settled(DrainEntry(x).cleanup) ==> DrainEntry(x) == x
  {
  }

  // ----- steps of one table -----

  lemma MovesTwice(s: State, m: State, n: State, t: nat)
    requires Moves(s, m, t) && Moves(m, n, t)
    ensures Moves(s, n, t)
  {
    hide TableOk, EntriesOk, Settled;
  }

  /** While nothing is being mounted or loaded, draining some entries of the table is a step of the table. */
  lemma DrainMoves(m: State, t: nat, es: seq<nat>)
    requires t < |m.tables| && TableOk(m.entries, t, m.tables[t]) && EntriesOk(m, t)
    requires m.tables[t].render.Rendering? ==> !m.tables[t].render.pc.Mount? && !m.tables[t].render.pc.Importing?
    requires forall i | 0 <= i < |es| :: es[i] < |m.entries| && m.entries[es[i]].table == t
    ensures Moves(m, DrainAll(m, es), t)
  {
    hide EntryOk, ClosingOk, Bad, Settled, Held, DrainEntry;
    var n := DrainAll(m, es);
    DrainAllEffect(m, es);
    forall e: nat | e < |m.entries|
      ensures n.entries[e].table == m.entries[e].table && (m.entries[e].table != t ==> n.entries[e] == m.entries[e])
      ensures Settled(m.entries[e].cleanup) ==> n.entries[e] == m.entries[e]
      ensures m.entries[e].table == t ==>
                EntryOk(n.entries[e]) && n.entries[e].mounted == m.entries[e].mounted && (Bad(n.entries[e].cleanup) ==> n.blocked)
      ensures Settled(n.entries[e].cleanup) ==> n.entries[e] == m.entries[e]
    {
      if e in es { assert m.entries[e].table == t; }
      if m.entries[e].table == t {
        assert Tracked(m.entries, e, m.tables[t]);
        DrainOk(m.entries[e]);
      }
    }
  }

  /** The table changes, its entries do not. */
  lemma TableMoves(s: State, n: State, t: nat)
    requires t < |s.tables| && EntriesOk(s, t) && n.entries == s.entries && (s.blocked ==> n.blocked) && n.current == s.current
    requires |n.tables| == |s.tables| && n.tables == s.tables[t := n.tables[t]]
    requires TableOk(s.entries, t, n.tables[t]) && (s.tables[t].result.Resolved? ==> n.tables[t].result.Resolved?)
    requires forall e: nat | e < |s.entries| && s.entries[e].table == t :: Tracked(s.entries, e, n.tables[t])
    ensures Moves(s, n, t)
  {
    hide EntryOk, ClosingOk, Bad, Settled, Held, Tracked, TableOk;
  }

  /** The table goes to another point of its render; what it holds stays. */
  lemma GoMoves(s: State, t: nat, render: Render)
    requires Inv(s) && t < |s.tables| && s.tables[t].render.Rendering? && render.Rendering?
    requires !s.tables[t].render.pc.Mount? && !render.pc.Mount? && !render.pc.Importing?
    ensures Moves(s, SetTable(s, t, s.tables[t].(render := render)), t)
  {
    hide EntryOk, Bad, Settled;
    var n := SetTable(s, t, s.tables[t].(render := render));
    assert TableOk(s.entries, t, s.tables[t]) && EntriesOk(s, t);
    assert Held(n.tables[t]) == Held(s.tables[t]);
    TableMoves(s, n, t);
  }

  lemma RecoverMoves(s: State, t: nat)
    requires Inv(s) && t < |s.tables| && s.tables[t].render.Rendering? && !s.tables[t].render.pc.Mount?
    ensures Moves(s, Recover(s, t), t)
  {
    hide EntryOk, Bad, Settled, DrainAll, EntriesOk, ClosingOk;
    var table := s.tables[t];
    var m := SetTable(s, t, Go(table, Recovering));
    GoMoves(s, t, table.render.(pc := Recovering));
    StagedHeld(m, t);
    DrainMoves(m, t, table.staged);
    MovesTwice(s, m, Recover(s, t), t);
  }

  lemma StagedHeld(s: State, t: nat)
    requires t < |s.tables| && TableOk(s.entries, t, s.tables[t])
    ensures forall i | 0 <= i < |s.tables[t].staged| :: s.tables[t].staged[i] < |s.entries| && s.entries[s.tables[t].staged[i]].table == t
    ensures forall i | 0 <= i < |s.tables[t].entries| :: s.tables[t].entries[i] < |s.entries| && s.entries[s.tables[t].entries[i]].table == t
  {
    var table := s.tables[t];
    assert forall i | 0 <= i < |table.entries| :: Held(table)[i] == table.entries[i];
    assert forall i | 0 <= i < |table.staged| :: Held(table)[|table.entries| + i] == table.staged[i];
  }

  lemma StageNewMoves(s: State, t: nat, key: Key, mounted: Mounted, pc: Pc)
    requires Inv(s) && t < |s.tables| && s.tables[t].render.Rendering? && s.tables[t].render.pc.Staging?
    requires mounted.Valid? || mounted.NotMounted?
    requires pc.Staging? || (mounted.NotMounted? && pc.Importing? && pc.entry == |s.entries|)
    ensures Moves(s, StageNew(s, t, key, mounted, pc), t)
  {
    hide Bad, Settled, ClosingOk, EntryOk;
    var n := StageNew(s, t, key, mounted, pc);
    var table, e := s.tables[t], |s.entries|;
    assert TableOk(s.entries, t, table) && EntriesOk(s, t);
    NewEntryOk(n.entries[e]);
    HeldAfterStaging(table, e, pc);
    RenderingIsOpen(s, t);
    assert ClosingOk(n.tables[t]) by { ClosingFrame(table, n.tables[t]); }
    forall i | 0 <= i < |Held(n.tables[t])|
      ensures Held(n.tables[t])[i] < |n.entries| && n.entries[Held(n.tables[t])[i]].table == t
    {
      var x := Held(n.tables[t])[i];
      assert x in Held(n.tables[t]);
      if x != e { var k :| 0 <= k < |Held(table)| && Held(table)[k] == x; }
    }
  }

  lemma NewEntryOk(x: Entry)
    requires x.cleanup.NotDrained? && x.disposals == 0
    ensures EntryOk(x) && !Bad(x.cleanup) && !Settled(x.cleanup)
  {
  }

  lemma HeldAfterStaging(table: Table, e: nat, pc: Pc)
    requires table.render.Rendering?
    ensures forall x :: x in Held(Go(table, pc).(staged := table.staged + [e])) <==> x == e || x in Held(table)
  {
  }

  lemma ClosingFrame(a: Table, b: Table)
    requires ClosingOk(a) && b.closed == a.closed && b.closing == a.closing && b.result == a.result
    requires a.closing.NotClosing? || a.closing.WaitingRender? || (b.entries == a.entries && b.render == a.render)
    ensures ClosingOk(b)
  {
  }

  lemma RenderingIsOpen(s: State, t: nat)
    requires Inv(s) && t < |s.tables| && s.tables[t].render.Rendering?
    ensures s.tables[t].closing.NotClosing? || s.tables[t].closing.WaitingRender?
  {
    hide EntriesOk;
    assert TableOk(s.entries, t, s.tables[t]);
  }

  /** The notice that failed to show is drained with the other staged entries; it has nothing to dispose. */
  lemma BrokenPlaceholderMoves(s: State, t: nat)
    requires Inv(s) && t < |s.tables| && s.tables[t].render.Rendering? && s.tables[t].render.pc.Staging?
    requires s.tables[t].render.pc.at < |s.tables[t].render.slots|
    ensures Moves(s, Stage(s, t, BrokenPlaceholder), t)
  {
    hide Inv, Moves, Recover;
    var table := s.tables[t];
    var at := table.render.pc.at;
    var m := StageNew(s, t, table.render.slots[at], NotMounted, Staging(at + 1));
    StageNewMoves(s, t, table.render.slots[at], NotMounted, Staging(at + 1));
    MoveKeepsInv(s, m, t);
    RecoverMoves(m, t);
    MovesTwice(s, m, Recover(m, t), t);
  }

  lemma StageMoves(s: State, t: nat, choice: Choice)
    requires Inv(s) && t < |s.tables| && s.tables[t].render.Rendering? && s.tables[t].render.pc.Staging?
    ensures Moves(s, Stage(s, t, choice), t)
  {
    hide Inv, Moves, Recover, StageNew, HasKey;
    var table := s.tables[t];
    var at := table.render.pc.at;
    RecoverMoves(s, t);
    GoMoves(s, t, table.render.(pc := Updating(0)));
    GoMoves(s, t, table.render.(pc := Staging(at + 1)));
    if at < |table.render.slots| {
      StageNewMoves(s, t, table.render.slots[at], Valid, Staging(at + 1));
      StageNewMoves(s, t, table.render.slots[at], NotMounted, Importing(at, |s.entries|));
      BrokenPlaceholderMoves(s, t);
    }
  }

  lemma ImportedMoves(s: State, t: nat, ok: bool)
    requires Inv(s) && t < |s.tables| && s.tables[t].render.Rendering? && s.tables[t].render.pc.Importing?
    ensures Moves(s, Imported(s, t, ok), t)
  {
    hide Bad, Settled, Recover;
    var table := s.tables[t];
    var e := table.render.pc.entry;
    RecoverMoves(s, t);
    assert TableOk(s.entries, t, table) && EntriesOk(s, t);
    if ok && !table.closed {
      var n := Imported(s, t, ok);
      StagedIsHeld(table, e);
      var i :| 0 <= i < |Held(table)| && Held(table)[i] == e;
      assert Held(n.tables[t]) == Held(table);
      assert Tracked(s.entries, e, table);
      MountingOk(s.entries[e], n.entries[e]);
    }
  }

  lemma MountingOk(x: Entry, y: Entry)
    requires EntryOk(x) && x.cleanup.NotDrained? && y == x.(mounted := y.mounted)
    ensures EntryOk(y) && !Settled(y.cleanup) && !Bad(y.cleanup)
  {
  }

  /** The entry whose `mount` returned is no longer being mounted, and the table goes on. */
  lemma MountEntryMoves(s: State, t: nat, mounted: Mounted, pc: Pc)
    requires Inv(s) && t < |s.tables| && s.tables[t].render.Rendering? && s.tables[t].render.pc.Mount?
    requires !mounted.Mounting? && !pc.Mount? && !pc.Importing?
    ensures s.tables[t].render.pc.entry < |s.entries|
    ensures var e := s.tables[t].render.pc.entry;
            Moves(s, SetEntry(SetTable(s, t, Go(s.tables[t], pc)), e, s.entries[e].(mounted := mounted)), t)
  {
    hide Bad, Settled;
    var table := s.tables[t];
    var e := table.render.pc.entry;
    assert TableOk(s.entries, t, table) && EntriesOk(s, t);
    StagedIsHeld(table, e);
    var i :| 0 <= i < |Held(table)| && Held(table)[i] == e;
    var n := SetEntry(SetTable(s, t, Go(table, pc)), e, s.entries[e].(mounted := mounted));
    assert Held(n.tables[t]) == Held(table);
    assert Tracked(s.entries, e, table) && EntryOk(s.entries[e]);
    MountingOk(s.entries[e], n.entries[e]);
  }

  lemma MountReturnedMoves(s: State, t: nat, result: Mounted)
    requires Inv(s) && t < |s.tables| && s.tables[t].render.Rendering? && s.tables[t].render.pc.Mount?
    ensures Moves(s, MountReturned(s, t, result), t)
  {
    hide EntryOk, Bad, Settled, DrainAll, ClosingOk, EntriesOk;
    var table := s.tables[t];
    var e := table.render.pc.entry;
    var mounted := if result.Mounting? then NotMounted else result;
    MountEntryMoves(s, t, mounted, Staging(table.render.pc.at + 1));
    MountEntryMoves(s, t, mounted, Recovering);
    if !(result.Valid? && !table.closed) {
      var m := SetEntry(SetTable(s, t, Go(table, Recovering)), e, s.entries[e].(mounted := mounted));
      StagedHeld(m, t);
      DrainMoves(m, t, table.staged);
      MovesTwice(s, m, DrainAll(m, table.staged), t);
    }
  }

  lemma UpdateMoves(s: State, t: nat)
    requires Inv(s) && t < |s.tables| && s.tables[t].render.Rendering? && s.tables[t].render.pc.Updating?
    ensures Moves(s, Update(s, t), t)
  {
    hide Inv, Moves, Recover, HasKey;
    var table := s.tables[t];
    var at := table.render.pc.at;
    RecoverMoves(s, t);
    GoMoves(s, t, table.render.(pc := Replacing, replacing := true));
    GoMoves(s, t, table.render.(pc := Updating(at + 1)));
    if at < |table.render.slots| {
      var first := FirstWithKey(s, table.entries, table.render.slots[at]);
      if first.Some? { GoMoves(s, t, table.render.(pc := AwaitingUpdate(at, first.value))); }
    }
  }

  lemma UpdatedMoves(s: State, t: nat, ok: bool)
    requires Inv(s) && t < |s.tables| && s.tables[t].render.Rendering? && s.tables[t].render.pc.AwaitingUpdate?
    ensures Moves(s, Updated(s, t, ok), t)
  {
    hide Inv, Moves, Recover;
    RecoverMoves(s, t);
    GoMoves(s, t, s.tables[t].render.(pc := Updating(s.tables[t].render.pc.at + 1)));
  }

  lemma {:induction false} FirstReplacedIs(s: State, es: seq<nat>, staged: seq<nat>, slots: seq<Key>)
    ensures FirstReplaced(s, es, staged, slots).Some? ==> FirstReplaced(s, es, staged, slots).value in es
  {
    if es != [] {
      FirstReplacedIs(s, es[1..], staged, slots);
    }
  }

  lemma DrainOneIsAll(s: State, e: nat)
    ensures Drain(s, e) == DrainAll(s, [e])
  {
    assert [e][1..] == [];
  }

  lemma ReplaceMoves(s: State, t: nat, activates: bool)
    requires Inv(s) && t < |s.tables| && s.tables[t].render.Rendering? && s.tables[t].render.pc.Replacing?
    ensures Moves(s, Replace(s, t, activates), t)
  {
    hide EntryOk, Bad, Settled, DrainAll, ClosingOk, EntriesOk, Recover, Drain, FirstReplaced;
    var table := s.tables[t];
    RecoverMoves(s, t);
    FirstReplacedIs(s, table.entries, table.staged, table.render.slots);
    match FirstReplaced(s, table.entries, table.staged, table.render.slots)
    case Some(e) =>
      var m := SetTable(s, t, Go(table, AwaitingDrain(e)));
      GoMoves(s, t, table.render.(pc := AwaitingDrain(e)));
      StagedHeld(m, t);
      var i :| 0 <= i < |table.entries| && table.entries[i] == e;
      DrainMoves(m, t, [e]);
      DrainOneIsAll(m, e);
      MovesTwice(s, m, DrainAll(m, [e]), t);
    case None =>
      if !table.closed {
        if activates { CommitMoves(s, t); } else { FailedCommitMoves(s, t); }
      }
  }

  lemma HeldAfterCommit(table: Table, render: Render, staged: seq<nat>)
    requires staged == [] || staged == table.staged
    ensures forall x :: x in Held(table.(entries := table.entries + table.staged, staged := staged, render := render)) <==> x in Held(table)
  {
  }

  lemma HeldValid(entries: seq<Entry>, t: nat, a: Table, b: Table)
    requires forall i | 0 <= i < |Held(a)| :: Held(a)[i] < |entries| && entries[Held(a)[i]].table == t
    requires forall x | x in Held(b) :: x in Held(a)
    ensures forall i | 0 <= i < |Held(b)| :: Held(b)[i] < |entries| && entries[Held(b)[i]].table == t
  {
    hide Held;
    forall i | 0 <= i < |Held(b)|
      ensures Held(b)[i] < |entries| && entries[Held(b)[i]].table == t
    {
      var x := Held(b)[i];
      assert x in Held(b);
      var k :| 0 <= k < |Held(a)| && Held(a)[k] == x;
    }
  }

  /** The staged renderers become the table's own and the render ends, or recovers while it still counts them as staged. */
  lemma CommittedMoves(s: State, t: nat, render: Render, staged: seq<nat>)
    requires Inv(s) && t < |s.tables| && s.tables[t].render.Rendering? && s.tables[t].render.pc.Replacing? && !s.tables[t].closed
    requires (render.Idle? && staged == []) || (render.Rendering? && render.pc.Recovering? && staged == s.tables[t].staged)
    ensures var table := s.tables[t];
            Moves(s, SetTable(s, t, table.(entries := table.entries + table.staged, staged := staged, render := render)), t)
  {
    hide EntryOk, Bad, Settled, Held;
    var table := s.tables[t];
    assert TableOk(s.entries, t, table) && EntriesOk(s, t);
    RenderingIsOpen(s, t);
    var next := table.(entries := table.entries + table.staged, staged := staged, render := render);
    HeldAfterCommit(table, render, staged);
    HeldValid(s.entries, t, table, next);
    TableMoves(s, SetTable(s, t, next), t);
  }

  lemma CommitMoves(s: State, t: nat)
    requires Inv(s) && t < |s.tables| && s.tables[t].render.Rendering? && s.tables[t].render.pc.Replacing? && !s.tables[t].closed
    ensures var table := s.tables[t];
            Moves(s, SetTable(s, t, table.(entries := table.entries + table.staged).(staged := [], render := Idle)), t)
  {
    hide Inv, Moves;
    CommittedMoves(s, t, Idle, []);
  }

  lemma FailedCommitMoves(s: State, t: nat)
    requires Inv(s) && t < |s.tables| && s.tables[t].render.Rendering? && s.tables[t].render.pc.Replacing? && !s.tables[t].closed
    ensures var table := s.tables[t];
            Moves(s, Recover(SetTable(s, t, table.(entries := table.entries + table.staged)), t), t)
  {
    hide EntryOk, Bad, Settled, DrainAll, ClosingOk, EntriesOk, Inv;
    var table := s.tables[t];
    CommittedMoves(s, t, table.render.(pc := Recovering), table.staged);
    var m := SetTable(s, t, table.(entries := table.entries + table.staged, staged := table.staged, render := table.render.(pc := Recovering)));
    StagedHeld(m, t);
    DrainMoves(m, t, table.staged);
    MovesTwice(s, m, DrainAll(m, table.staged), t);
    var shown := SetTable(s, t, table.(entries := table.entries + table.staged));
    assert SetTable(shown, t, Go(shown.tables[t], Recovering)) == m;
  }

  lemma {:induction false} WithoutMembers(es: seq<nat>, e: nat)
    ensures forall x :: x in Without(es, e) <==> x in es && x != e
  {
    if es != [] {
      WithoutMembers(es[1..], e);
      assert es == [es[0]] + es[1..];
    }
  }

  lemma HeldAfterDrain(table: Table, e: nat, render: Render)
    ensures forall x :: x in Held(table.(entries := Without(table.entries, e), render := render)) ==> x in Held(table)
    ensures forall x :: x in Held(table) ==> x == e || x in Held(table.(entries := Without(table.entries, e), render := render))
  {
    WithoutMembers(table.entries, e);
  }

  lemma DrainedMoves(s: State, t: nat)
    requires Inv(s) && t < |s.tables| && s.tables[t].render.Rendering? && s.tables[t].render.pc.AwaitingDrain?
    ensures Moves(s, Drained(s, t), t)
  {
    hide EntryOk, Bad, Held, Recover, Without;
    var table := s.tables[t];
    var e := table.render.pc.entry;
    RecoverMoves(s, t);
    assert TableOk(s.entries, t, table) && EntriesOk(s, t);
    RenderingIsOpen(s, t);
    if e < |s.entries| && s.entries[e].cleanup.Clean? {
      var next := Go(table, Replacing).(entries := Without(table.entries, e));
      HeldAfterDrain(table, e, table.render.(pc := Replacing));
      HeldValid(s.entries, t, table, next);
      TableMoves(s, SetTable(s, t, next), t);
    } else if e < |s.entries| && !s.entries[e].cleanup.Failed? {
      TableMoves(s, s, t);
    }
  }

  lemma HeldAfterRecovery(table: Table, render: Render, cleanupError: bool)
    ensures forall x :: x in Held(table.(staged := [], render := render, cleanupError := cleanupError)) ==> x in Held(table)
    ensures forall x :: x in Held(table) ==> x in table.staged || x in Held(table.(staged := [], render := render, cleanupError := cleanupError))
  {
  }

  lemma RecoveredMoves(s: State, t: nat)
    requires Inv(s) && t < |s.tables| && s.tables[t].render.Rendering? && s.tables[t].render.pc.Recovering?
    ensures Moves(s, Recovered(s, t), t)
  {
    hide EntryOk, Bad, Held, Settled, AnyFailed;
    var table := s.tables[t];
    assert TableOk(s.entries, t, table) && EntriesOk(s, t);
    RenderingIsOpen(s, t);
    var n := Recovered(s, t);
    var next := n.tables[t];
    if AllSettled(s, table.staged) {
      HeldAfterRecovery(table, next.render, next.cleanupError);
      HeldValid(s.entries, t, table, next);
      forall x | x in table.staged
        ensures x < |s.entries| && Settled(s.entries[x].cleanup)
      {
        var i :| 0 <= i < |table.staged| && table.staged[i] == x;
      }
    }
    TableMoves(s, n, t);
  }

  lemma StartRenderMoves(s: State, t: nat, offered: bool, slots: seq<Key>)
    requires Inv(s) && t < |s.tables|
    ensures Moves(s, StartRender(s, t, offered, slots), t)
  {
    hide EntryOk, Bad, Settled;
    var n := StartRender(s, t, offered, slots);
    assert TableOk(s.entries, t, s.tables[t]) && EntriesOk(s, t);
    assert Held(n.tables[t]) == Held(s.tables[t]);
    TableMoves(s, n, t);
  }

  lemma CloseMoves(s: State, t: nat)
    requires Inv(s) && t < |s.tables|
    ensures Moves(s, Close(s, t), t)
  {
    hide EntryOk, Bad, Settled;
    var n := Close(s, t);
    assert TableOk(s.entries, t, s.tables[t]) && EntriesOk(s, t);
    assert Held(n.tables[t]) == Held(s.tables[t]);
    TableMoves(s, n, t);
  }

  lemma DrainTableMoves(s: State, t: nat)
    requires Inv(s) && t < |s.tables|
    ensures Moves(s, DrainTable(s, t), t)
  {
    hide EntryOk, Bad, Settled, DrainAll;
    var table := s.tables[t];
    assert TableOk(s.entries, t, table) && EntriesOk(s, t);
    if table.closing.WaitingRender? && table.render.Idle? {
      var m := SetTable(s, t, table.(entries := [], closing := Draining(table.entries)));
      assert Held(m.tables[t]) == Held(table);
      TableMoves(s, m, t);
      StagedHeld(s, t);
      DrainMoves(m, t, table.entries);
      MovesTwice(s, m, DrainAll(m, table.entries), t);
    } else {
      TableMoves(s, s, t);
    }
  }

  lemma FinishCloseMoves(s: State, t: nat)
    requires Inv(s) && t < |s.tables|
    ensures Moves(s, FinishClose(s, t), t)
  {
    hide EntryOk, Bad, Settled, AnyFailed;
    var table := s.tables[t];
    assert TableOk(s.entries, t, table) && EntriesOk(s, t);
    var n := FinishClose(s, t);
    if table.closing.Draining? && AllSettled(s, table.closing.entries) {
      assert Held(table) == table.closing.entries && Held(n.tables[t]) == [];
      forall x | x in table.closing.entries
        ensures x < |s.entries| && Settled(s.entries[x].cleanup)
      {
        var i :| 0 <= i < |table.closing.entries| && table.closing.entries[i] == x;
      }
    }
    TableMoves(s, n, t);
  }

  lemma TimeOutMoves(s: State, t: nat)
    requires Inv(s) && t < |s.tables|
    ensures Moves(s, TimeOut(s, t), t)
  {
    hide EntryOk, Bad, Settled;
    var n := TimeOut(s, t);
    assert TableOk(s.entries, t, s.tables[t]) && EntriesOk(s, t);
    assert Held(n.tables[t]) == Held(s.tables[t]);
    TableMoves(s, n, t);
  }

  /** The cleanup of one entry advances. */
  lemma EntryMoves(s: State, n: State, e: nat)
    requires Inv(s) && e < |s.entries| && |n.entries| == |s.entries| && n == SetEntry(s, e, n.entries[e]).(blocked := n.blocked)
    requires (s.blocked ==> n.blocked) && EntryOk(n.entries[e]) && !Settled(s.entries[e].cleanup) && (Bad(n.entries[e].cleanup) ==> n.blocked)
    requires n.entries[e] == s.entries[e].(cleanup := n.entries[e].cleanup) && !s.entries[e].cleanup.NotDrained?
    ensures s.entries[e].table < |s.tables| && Moves(s, n, s.entries[e].table)
  {
    hide EntryOk, Bad, Settled, Held, ClosingOk;
    var t := s.entries[e].table;
    assert TableOk(s.entries, t, s.tables[t]) && EntriesOk(s, t);
    assert Tracked(s.entries, e, s.tables[t]) && EntryOk(s.entries[e]);
    DrainedNotMounting(s.entries[e]);
    assert n.tables[t] == s.tables[t];
  }

  lemma DrainedNotMounting(x: Entry)
    requires EntryOk(x) && !x.cleanup.NotDrained?
    ensures !x.mounted.Mounting?
  {
  }

  lemma EntryStepsKeep(s: State, e: nat, ok: bool)
    requires Inv(s)
    ensures Inv(Disposed(s, e, ok)) && Inv(WorkSettled(s, e))
  {
    hide Held, ClosingOk, Moves;
    if e < |s.entries| {
      assert EntriesOk(s, s.entries[e].table);
      if s.entries[e].cleanup.Disposing? {
        EntryMoves(s, Disposed(s, e, ok), e);
        MoveKeepsInv(s, Disposed(s, e, ok), s.entries[e].table);
      }
      if s.entries[e].cleanup.Finishing? {
        EntryMoves(s, WorkSettled(s, e), e);
        MoveKeepsInv(s, WorkSettled(s, e), s.entries[e].table);
      }
    }
  }

  // ----- opening and releasing -----

  lemma OwnerFrame(s: State, n: State)
    requires Inv(s) && n.tables == s.tables && n.entries == s.entries && n.blocked == s.blocked && OwnerOk(n)
    ensures Inv(n)
  {
    hide EntryOk, Bad, Settled, Held, ClosingOk, Tracked;
    forall t: nat | t < |n.tables|
      ensures TableOk(n.entries, t, n.tables[t]) && EntriesOk(n, t)
    {
      assert TableOk(s.entries, t, s.tables[t]) && EntriesOk(s, t);
    }
  }

  lemma TryOpenKeeps(s: State)
    requires Inv(s)
    ensures Inv(TryOpen(s))
  {
    hide EntryOk, Bad, Settled, Tracked;
    var n := TryOpen(s);
    if n.tables == s.tables {
      OwnerFrame(s, n);
    } else {
      forall t: nat | t < |n.tables|
        ensures TableOk(n.entries, t, n.tables[t]) && EntriesOk(n, t)
      {
        if t < |s.tables| { assert TableOk(s.entries, t, s.tables[t]) && EntriesOk(s, t); }
      }
    }
  }

  lemma ContinueMoves(s: State, t: nat, choice: Choice, ok: bool, result: Mounted)
    requires Inv(s) && t < |s.tables|
    ensures Moves(s, Continue(s, t, choice, ok, result), t)
  {
    hide Inv, Moves, Stage, Imported, MountReturned, Update, Updated, Replace, Drained, Recovered;
    match s.tables[t].render
    case Idle => SameMoves(s, t);
    case Rendering(_, _, _, pc) =>
      match pc
      case Staging(_) => StageMoves(s, t, choice);
      case Importing(_, _) => ImportedMoves(s, t, ok);
      case Mount(_, _) => MountReturnedMoves(s, t, result);
      case Updating(_) => UpdateMoves(s, t);
      case AwaitingUpdate(_, _) => UpdatedMoves(s, t, ok);
      case Replacing => ReplaceMoves(s, t, ok);
      case AwaitingDrain(_) => DrainedMoves(s, t);
      case Recovering => RecoveredMoves(s, t);
  }

  lemma SameMoves(s: State, t: nat)
    requires Inv(s) && t < |s.tables|
    ensures Moves(s, s, t)
  {
    hide EntryOk, Bad, Settled, Held, ClosingOk, Tracked;
    assert TableOk(s.entries, t, s.tables[t]) && EntriesOk(s, t);
    assert s.tables[t := s.tables[t]] == s.tables;
  }

  lemma NextKeepsInv(s: State, ev: Event)
    requires Inv(s)
    ensures Inv(Next(s, ev))
  {
    hide Moves, StartRender, Continue, Close, DrainTable, FinishClose, TimeOut, TryOpen, Disposed, WorkSettled;
    match ev
    case Opens => OwnerFrame(s, if s.closing.Some? then s.(opener := AwaitingClose(s.closing.value)) else s); TryOpenKeeps(s);
    case OpenResumes => TryOpenKeeps(s); OwnerFrame(s, s.(opener := NotOpening));
    case Disposes(e, ok) => EntryStepsKeep(s, e, ok);
    case Settles(e) => EntryStepsKeep(s, e, true);
    case Renders(t, offered, slots) => if t < |s.tables| { StartRenderMoves(s, t, offered, slots); MoveKeepsInv(s, Next(s, ev), t); }
    case Continues(t, choice, ok, result) => if t < |s.tables| { ContinueMoves(s, t, choice, ok, result); MoveKeepsInv(s, Next(s, ev), t); }
    case Closes(t) => if t < |s.tables| { CloseMoves(s, t); MoveKeepsInv(s, Next(s, ev), t); }
    case DrainsTable(t) => if t < |s.tables| { DrainTableMoves(s, t); MoveKeepsInv(s, Next(s, ev), t); }
    case FinishesClose(t) => if t < |s.tables| { FinishCloseMoves(s, t); MoveKeepsInv(s, Next(s, ev), t); }
    case TimesOut(t) => if t < |s.tables| { TimeOutMoves(s, t); MoveKeepsInv(s, Next(s, ev), t); }
    case Releases(t) => if t < |s.tables| { ReleaseKeeps(s, t); }
  }

  lemma ReleaseKeeps(s: State, t: nat)
    requires Inv(s) && t < |s.tables|
    ensures Inv(Release(s, t))
  {
    hide TableOk, EntriesOk;
    OwnerFrame(s, Release(s, t));
  }

  // ----- whole runs -----

  ghost predicate IsRun(states: seq<State>, events: seq<Event>) {
    && |states| == |events| + 1 && states[0] == INITIAL
    && (forall i {:trigger events[i]} | 0 <= i < |events| :: states[i + 1] == Next(states[i], events[i]))
  }

  lemma {:induction false} RunKeepsInv(states: seq<State>, events: seq<Event>, i: nat)
    requires IsRun(states, events) && i < |states|
    ensures Inv(states[i])
  {
    hide Inv, Next;
    if i == 0 {
      InitialInv();
    } else {
      RunKeepsInv(states, events, i - 1);
      NextKeepsInv(states[i - 1], events[i - 1]);
    }
  }

  lemma InitialInv()
    ensures Inv(INITIAL)
  {
  }

  /** A table whose close resolved answers for nothing any more: all its entries are settled. */
  lemma ResolvedIsSettled(s: State, t: nat)
    requires Inv(s) && t < |s.tables| && s.tables[t].result.Resolved?
    ensures forall e: nat | e < |s.entries| && s.entries[e].table == t :: Settled(s.entries[e].cleanup)
  {
    hide EntryOk, Bad, Settled;
    assert TableOk(s.entries, t, s.tables[t]) && EntriesOk(s, t);
    assert Held(s.tables[t]) == [];
    forall e: nat | e < |s.entries| && s.entries[e].table == t
      ensures Settled(s.entries[e].cleanup)
    {
      assert Tracked(s.entries, e, s.tables[t]);
    }
  }

  /**
   A new table opens only when every renderer any earlier table ever mounted (staged,
   replaced, rejected or retained) was disposed, once, and cleanly.
   */
  lemma OpensOnlyAfterCleanDisposal(states: seq<State>, events: seq<Event>, i: nat)
    requires IsRun(states, events) && i < |events| && |states[i + 1].tables| > |states[i].tables|
    ensures !states[i].blocked && states[i].current.None?
    ensures forall e: nat | e < |states[i].entries| ::
              && states[i].entries[e].cleanup.Clean? && !states[i].entries[e].mounted.NoDispose? && !states[i].entries[e].mounted.Mounting?
              && states[i].entries[e].disposals == if Disposable(states[i].entries[e].mounted) then 1 else 0
  {
    hide Inv, Next;
    var s := states[i];
    RunKeepsInv(states, events, i);
    TablesGrowByOpening(s, events[i]);
    UnblockedIsClean(s);
  }

  lemma UnblockedIsClean(s: State)
    requires Inv(s) && !s.blocked && s.current.None?
    ensures forall e: nat | e < |s.entries| ::
              && s.entries[e].cleanup.Clean? && !s.entries[e].mounted.NoDispose? && !s.entries[e].mounted.Mounting?
              && s.entries[e].disposals == if Disposable(s.entries[e].mounted) then 1 else 0
  {
    hide TableOk, Tracked;
    forall e: nat | e < |s.entries|
      ensures Settled(s.entries[e].cleanup) && EntryOk(s.entries[e]) && !Bad(s.entries[e].cleanup)
    {
      var t := s.entries[e].table;
      ResolvedIsSettled(s, t);
      assert EntriesOk(s, t);
    }
  }

  lemma TablesGrowByOpening(s: State, ev: Event)
    requires Inv(s) && |Next(s, ev).tables| > |s.tables|
    ensures !s.blocked && s.current.None?
  {
    hide StartRender, Continue, Close, DrainTable, FinishClose, TimeOut, Inv, Moves;
    match ev
    case Renders(t, offered, slots) => if t < |s.tables| { StartRenderMoves(s, t, offered, slots); MovesTables(s, Next(s, ev), t); }
    case Continues(t, choice, ok, result) => if t < |s.tables| { ContinueMoves(s, t, choice, ok, result); MovesTables(s, Next(s, ev), t); }
    case Closes(t) => if t < |s.tables| { CloseMoves(s, t); MovesTables(s, Next(s, ev), t); }
    case DrainsTable(t) => if t < |s.tables| { DrainTableMoves(s, t); MovesTables(s, Next(s, ev), t); }
    case FinishesClose(t) => if t < |s.tables| { FinishCloseMoves(s, t); MovesTables(s, Next(s, ev), t); }
    case TimesOut(t) => if t < |s.tables| { TimeOutMoves(s, t); MovesTables(s, Next(s, ev), t); }
    case _ =>
  }

  lemma MovesTables(s: State, n: State, t: nat)
    requires Moves(s, n, t)
    ensures |n.tables| == |s.tables| && (s.blocked ==> n.blocked)
  {
    hide TableOk, EntriesOk, Evolves;
  }

  /** The renderer's `dispose` is called at most once, in every state. */
  lemma DisposedAtMostOnce(states: seq<State>, events: seq<Event>, i: nat, e: nat)
    requires IsRun(states, events) && i < |states| && e < |states[i].entries|
    ensures states[i].entries[e].disposals <= 1
  {
    hide Next, TableOk, Tracked;
    RunKeepsInv(states, events, i);
    assert EntriesOk(states[i], states[i].entries[e].table);
  }

  lemma BlockedStays(s: State, ev: Event)
    requires Inv(s) && s.blocked
    ensures Next(s, ev).blocked && |Next(s, ev).tables| == |s.tables|
  {
    hide StartRender, Continue, Close, DrainTable, FinishClose, TimeOut, Inv, Moves;
    match ev
    case Renders(t, offered, slots) => if t < |s.tables| { StartRenderMoves(s, t, offered, slots); MovesTables(s, Next(s, ev), t); }
    case Continues(t, choice, ok, result) => if t < |s.tables| { ContinueMoves(s, t, choice, ok, result); MovesTables(s, Next(s, ev), t); }
    case Closes(t) => if t < |s.tables| { CloseMoves(s, t); MovesTables(s, Next(s, ev), t); }
    case DrainsTable(t) => if t < |s.tables| { DrainTableMoves(s, t); MovesTables(s, Next(s, ev), t); }
    case FinishesClose(t) => if t < |s.tables| { FinishCloseMoves(s, t); MovesTables(s, Next(s, ev), t); }
    case TimesOut(t) => if t < |s.tables| { TimeOutMoves(s, t); MovesTables(s, Next(s, ev), t); }
    case _ =>
  }

  /** Once a cleanup failed or took too long, no table ever opens again. */
  lemma {:induction false} NeverOpensAfterFailure(states: seq<State>, events: seq<Event>, i: nat, j: nat)
    requires IsRun(states, events) && i <= j < |states|
    requires states[i].blocked || exists e: nat :: e < |states[i].entries| && Bad(states[i].entries[e].cleanup)
    ensures states[j].blocked && |states[j].tables| == |states[i].tables|
  {
    hide Next, Bad;
    if i == j {
      RunKeepsInv(states, events, i);
      BadBlocks(states[i]);
    } else {
      hide Inv;
      NeverOpensAfterFailure(states, events, i, j - 1);
      RunKeepsInv(states, events, j - 1);
      BlockedStays(states[j - 1], events[j - 1]);
    }
  }

  lemma BadBlocks(s: State)
    requires Inv(s)
    ensures forall e: nat | e < |s.entries| && Bad(s.entries[e].cleanup) :: s.blocked
  {
    hide TableOk, Tracked, Bad, EntryOk;
    forall e: nat | e < |s.entries| && Bad(s.entries[e].cleanup)
      ensures s.blocked
    {
      assert EntriesOk(s, s.entries[e].table);
    }
  }

  // ----- the document's renderers as the program keeps them -----

  class Renderers {
    var current: Option<nat>
    var closing: Option<nat>
    var opener: Opener
    var blocked: bool
    var tables: seq<Table>
    var entries: seq<Entry>

    function View(): State
      reads this
    {
      State(current, closing, opener, blocked, tables, entries)
    }

    constructor ()
      ensures View() == INITIAL
    {
      current, closing, opener, blocked, tables, entries := None, None, NotOpening, false, [], [];
    }

    method DrainOne(e: nat)
      modifies this
      ensures View() == Drain(old(View()), e)
    {
      if e >= |entries| { return; }
      var before := entries[e];
      if !before.cleanup.NotDrained? { return; }
      match before.mounted
      case Valid | NoUpdate => entries := entries[e := before.(cleanup := Disposing, disposals := before.disposals + 1)];
      case NoDispose =>
        entries := entries[e := before.(cleanup := Finishing(false))];
        blocked := true;
      case _ => entries := entries[e := before.(cleanup := Finishing(true))];
    }

    method DrainMany(es: seq<nat>)
      modifies this
      ensures View() == DrainAll(old(View()), es)
    {
      hide Drain;
      var rest := es;
      while rest != []
        invariant DrainAll(View(), rest) == DrainAll(old(View()), es)
        decreases |rest|
      {
        DrainOne(rest[0]);
        rest := rest[1..];
      }
    }

    method DisposeReturned(e: nat, ok: bool)
      modifies this
      ensures View() == Disposed(old(View()), e, ok)
    {
      if e < |entries| && entries[e].cleanup.Disposing? {
        entries := entries[e := entries[e].(cleanup := Finishing(ok))];
        if !ok { blocked := true; }
      }
    }

    method WorkReturned(e: nat)
      modifies this
      ensures View() == WorkSettled(old(View()), e)
    {
      if e < |entries| && entries[e].cleanup.Finishing? {
        entries := entries[e := entries[e].(cleanup := if entries[e].cleanup.ok then Clean else Failed)];
      }
    }

    method TryOpening()
      modifies this
      ensures View() == TryOpen(old(View()))
    {
      opener := NotOpening;
      if blocked || current.Some? { return; }
      current := Some(|tables|);
      tables := tables + [NEW_TABLE];
    }

    method OpenTable()
      modifies this
      ensures View() == Open(old(View()))
    {
      hide TryOpen;
      if !opener.NotOpening? { return; }
      if closing.Some? { opener := AwaitingClose(closing.value); } else { TryOpening(); }
    }

    method ResumeOpening()
      modifies this
      ensures View() == ResumeOpen(old(View()))
    {
      hide TryOpen;
      if !opener.AwaitingClose? || opener.table >= |tables| { return; }
      match tables[opener.table].result
      case Resolved => TryOpening();
      case Rejected => opener := NotOpening;
      case _ =>
    }

    method ChangeTable(t: nat, table: Table)
      requires t < |tables|
      modifies this
      ensures View() == SetTable(old(View()), t, table)
    {
      tables := tables[t := table];
    }

    method RenderOffer(t: nat, offered: bool, slots: seq<Key>)
      requires t < |tables|
      modifies this
      ensures View() == StartRender(old(View()), t, offered, slots)
    {
      if blocked || tables[t].closed || !tables[t].render.Idle? { return; }
      ChangeTable(t, tables[t].(render := Rendering(offered, false, slots, Staging(0))));
    }

    method RecoverStaged(t: nat)
      requires t < |tables| && tables[t].render.Rendering?
      modifies this
      ensures View() == Recover(old(View()), t)
    {
      hide DrainAll;
      var staged := tables[t].staged;
      ChangeTable(t, Go(tables[t], Recovering));
      DrainMany(staged);
    }

    method StageSlot(t: nat, choice: Choice)
      requires t < |tables| && tables[t].render.Rendering? && tables[t].render.pc.Staging?
      modifies this
      ensures View() == Stage(old(View()), t, choice)
    {
      hide Recover, HasKey;
      var table := tables[t];
      var at := table.render.pc.at;
      if at >= |table.render.slots| {
        ChangeTable(t, Go(table, Updating(0)));
        return;
      }
      var key := table.render.slots[at];
      match choice
      case Keep => if HasKey(View(), table.entries, key) { ChangeTable(t, Go(table, Staging(at + 1))); } else { RecoverStaged(t); }
      case Placeholder =>
        ChangeTable(t, Go(table, Staging(at + 1)).(staged := table.staged + [|entries|]));
        entries := entries + [Entry(t, key, Valid, NotDrained, 0)];
      case BrokenPlaceholder =>
        ChangeTable(t, Go(table, Staging(at + 1)).(staged := table.staged + [|entries|]));
        entries := entries + [Entry(t, key, NotMounted, NotDrained, 0)];
        RecoverStaged(t);
      case Load =>
        ChangeTable(t, Go(table, Importing(at, |entries|)).(staged := table.staged + [|entries|]));
        entries := entries + [Entry(t, key, NotMounted, NotDrained, 0)];
      case Refuse => RecoverStaged(t);
    }

    method ImportReturned(t: nat, ok: bool)
      requires t < |tables| && tables[t].render.Rendering? && tables[t].render.pc.Importing?
      modifies this
      ensures View() == Imported(old(View()), t, ok)
    {
      hide Recover;
      var table := tables[t];
      var e := table.render.pc.entry;
      if !ok || table.closed || e >= |entries| {
        RecoverStaged(t);
      } else {
        ChangeTable(t, Go(table, Mount(table.render.pc.at, e)));
        entries := entries[e := entries[e].(mounted := Mounting)];
      }
    }

    method MountCallReturned(t: nat, result: Mounted)
      requires t < |tables| && tables[t].render.Rendering? && tables[t].render.pc.Mount?
      modifies this
      ensures View() == MountReturned(old(View()), t, result)
    {
      hide Recover;
      var table := tables[t];
      var e := table.render.pc.entry;
      if e < |entries| {
        entries := entries[e := entries[e].(mounted := if result.Mounting? then NotMounted else result)];
        if result.Valid? && !table.closed {
          ChangeTable(t, Go(table, Staging(table.render.pc.at + 1)));
          return;
        }
      }
      RecoverStaged(t);
    }

    method UpdateNext(t: nat)
      requires t < |tables| && tables[t].render.Rendering? && tables[t].render.pc.Updating?
      modifies this
      ensures View() == Update(old(View()), t)
    {
      hide Recover, HasKey, FirstWithKey;
      var table := tables[t];
      var at := table.render.pc.at;
      if at >= |table.render.slots| {
        ChangeTable(t, table.(render := table.render.(pc := Replacing, replacing := true)));
      } else if HasKey(View(), table.staged, table.render.slots[at]) {
        ChangeTable(t, Go(table, Updating(at + 1)));
      } else {
        var e := FirstWithKey(View(), table.entries, table.render.slots[at]);
        if e.Some? { ChangeTable(t, Go(table, AwaitingUpdate(at, e.value))); } else { RecoverStaged(t); }
      }
    }

    method UpdateReturned(t: nat, ok: bool)
      requires t < |tables| && tables[t].render.Rendering? && tables[t].render.pc.AwaitingUpdate?
      modifies this
      ensures View() == Updated(old(View()), t, ok)
    {
      hide Recover;
      var table := tables[t];
      if !ok || table.closed { RecoverStaged(t); } else { ChangeTable(t, Go(table, Updating(table.render.pc.at + 1))); }
    }

    method ReplaceNext(t: nat, activates: bool)
      requires t < |tables| && tables[t].render.Rendering? && tables[t].render.pc.Replacing?
      modifies this
      ensures View() == Replace(old(View()), t, activates)
    {
      hide Recover, Drain, FirstReplaced;
      var table := tables[t];
      var old_ := FirstReplaced(View(), table.entries, table.staged, table.render.slots);
      if old_.Some? {
        ChangeTable(t, Go(table, AwaitingDrain(old_.value)));
        DrainOne(old_.value);
      } else if table.closed {
        RecoverStaged(t);
      } else if activates {
        ChangeTable(t, table.(entries := table.entries + table.staged, staged := [], render := Idle));
      } else {
        ChangeTable(t, table.(entries := table.entries + table.staged));
        RecoverStaged(t);
      }
    }

    method DrainReturned(t: nat)
      requires t < |tables| && tables[t].render.Rendering? && tables[t].render.pc.AwaitingDrain?
      modifies this
      ensures View() == Drained(old(View()), t)
    {
      hide Recover;
      var table := tables[t];
      var e := table.render.pc.entry;
      if e >= |entries| {
        RecoverStaged(t);
        return;
      }
      match entries[e].cleanup
      case Clean => ChangeTable(t, Go(table, Replacing).(entries := Without(table.entries, e)));
      case Failed => RecoverStaged(t);
      case _ =>
    }

    method RecoveryReturned(t: nat)
      requires t < |tables| && tables[t].render.Rendering? && tables[t].render.pc.Recovering?
      modifies this
      ensures View() == Recovered(old(View()), t)
    {
      hide AllSettled, AnyFailed;
      var table := tables[t];
      if !AllSettled(View(), table.staged) { return; }
      if AnyFailed(View(), table.staged) {
        ChangeTable(t, table.(staged := [], render := Idle, cleanupError := true));
      } else if table.closed || !table.render.offered || table.render.replacing {
        ChangeTable(t, table.(staged := [], render := Idle));
      } else {
        ChangeTable(t, table.(staged := [], render := Rendering(false, false, table.render.slots, Staging(0))));
      }
    }

    method CloseTable(t: nat)
      requires t < |tables|
      modifies this
      ensures View() == Close(old(View()), t)
    {
      if !tables[t].result.NoResult? { return; }
      ChangeTable(t, tables[t].(closed := true, closing := WaitingRender, result := Pending));
      closing := Some(t);
    }

    method DrainClosing(t: nat)
      requires t < |tables|
      modifies this
      ensures View() == DrainTable(old(View()), t)
    {
      hide DrainAll;
      var table := tables[t];
      if !table.closing.WaitingRender? || !table.render.Idle? { return; }
      ChangeTable(t, table.(entries := [], closing := Draining(table.entries)));
      DrainMany(table.entries);
    }

    method FinishClosing(t: nat)
      requires t < |tables|
      modifies this
      ensures View() == FinishClose(old(View()), t)
    {
      hide AllSettled, AnyFailed;
      var table := tables[t];
      if !table.closing.Draining? || !AllSettled(View(), table.closing.entries) { return; }
      var ok := !table.cleanupError && !AnyFailed(View(), table.closing.entries);
      var result := table.result;
      if result.Pending? {
        result := if ok then Resolved else Rejected;
        if !ok { blocked := true; }
      }
      ChangeTable(t, table.(closing := Finished(ok), result := result));
    }

    method TimeOutClosing(t: nat)
      requires t < |tables|
      modifies this
      ensures View() == TimeOut(old(View()), t)
    {
      if tables[t].result.Pending? {
        ChangeTable(t, tables[t].(result := Rejected));
        blocked := true;
      }
    }

    method ReleaseDocument(t: nat)
      requires t < |tables|
      modifies this
      ensures View() == Release(old(View()), t)
    {
      if tables[t].result.Resolved? && current == Some(t) { current, closing := None, None; }
    }
  }
}
