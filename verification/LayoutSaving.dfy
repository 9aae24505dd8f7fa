/**
 Layout intents while they are being saved one at a time: the user keeps adding intents
 between the start of a save, its commit and its completion, and a save may fail.
 */
module LayoutSaving {
  import opened Wrappers
  import opened Layouts
  import opened LayoutEdits

  datatype Save = Idle | Saving(entry: Entry, committed: bool)

  /** `asked` is the layout that every intent so far asks for, one after the other. */
  datatype State = State(edits: Edits, stored: Layout, save: Save, asked: Layout)

  datatype Event = Adds(intent: Intent) | Starts | Commits | Completes | Stops

  function Next(s: State, ev: Event): State
    requires ev.Adds? ==> IntentOk(ev.intent)
  {
    match ev
    case Adds(intent) => s.(edits := Add(s.edits, intent), asked := Step(s.asked, intent))
    case Starts => if s.save.Idle? && s.edits.entries != [] then s.(save := Saving(s.edits.entries[0], false)) else s
    case Commits =>
      if s.save.Saving? && !s.save.committed then
        match Apply(s.stored, s.save.entry.intent)
        case Some(next) => s.(stored := next, save := Saving(s.save.entry, true))
        case None => s.(save := Idle)
      else s
    case Completes => if s.save.Saving? && s.save.committed then s.(edits := Saved(s.edits, s.save.entry), save := Idle) else s
    case Stops => s.(save := Idle)
  }

  // ----- the invariant -----

  /** Applying the intent first makes no difference to what the entries give. */
  ghost predicate Absorbs(entries: seq<Entry>, intent: Intent) {
    && EntriesOk(entries) && IntentOk(intent)
    && forall l: Layout :: Canonical(l) ==> Replay(Step(l, intent), entries) == Replay(l, entries)
  }

  /** The entry being saved is still in front, or no entry carries its object any more. */
  ghost predicate OnlyFirst(entries: seq<Entry>, entry: Entry) {
    forall i | 0 <= i < |entries| && entries[i].token == entry.token :: i == 0 && entries[0] == entry
  }

  ghost predicate SaveOk(s: State) {
    s.save.Saving? ==>
      && EntryOk(s.save.entry) && Absorbs(s.edits.entries, s.save.entry.intent)
      && s.save.entry.token < s.edits.made
      && OnlyFirst(s.edits.entries, s.save.entry)
      && (s.save.committed ==> Step(s.stored, s.save.entry.intent) == s.stored)
  }

  /** What is stored, followed by what is kept, is what was asked for. */
  ghost predicate Inv(s: State) {
    && WellFormed(s.edits) && Canonical(s.stored)
    && Replay(s.stored, s.edits.entries) == s.asked
    && SaveOk(s)
  }

  lemma {:induction false} ReplayFirst(l: Layout, entries: seq<Entry>)
    requires EntriesOk(entries) && entries != []
    ensures Replay(l, entries) == Replay(Step(l, entries[0].intent), entries[1..])
  {
    hide EntryOk, IntentOk, Step;
    var n := |entries| - 1;
    if n == 0 {
      assert entries[..0] == [];
    } else {
      ReplayFirst(l, entries[..n]);
      assert entries[..n][1..] == entries[1..][..n - 1];
    }
  }

  lemma StepCanonical(l: Layout, intent: Intent)
    requires Canonical(l) && IntentOk(intent)
    ensures Canonical(Step(l, intent))
  {
    hide Canonical, Apply, Step, IntentOk;
    PatchDistinct(intent);
    ApplyMeaning(l, intent);
  }

  /** An intent applied twice in a row is the same as applied once. */
  lemma StepTwice(l: Layout, e: Entry)
    requires Canonical(l) && EntryOk(e)
    ensures Step(Step(l, e.intent), e.intent) == Step(l, e.intent)
  {
    hide Canonical, EntryOk, Step, IntentOk;
    EntryIntent(e);
    StepCanonical(l, e.intent);
    CanonicalShape(l);
    if e.key == ResetKey {
      ResetAlways(l, e);
      ResetAlways(Step(l, e.intent), e);
    } else {
      ReplayPut(l, [e], e);
      One(l, e);
      WithoutOne(e);
    }
  }

  lemma ResetAlways(l: Layout, e: Entry)
    requires EntryOk(e) && e.key == ResetKey
    ensures Step(l, e.intent) == DEFAULT_LAYOUT
  {
  }

  lemma WithoutOne(e: Entry)
    ensures Without([e], e.key) + [e] == [e]
  {
    assert [e][..0] == [];
    assert Without([], e.key) == [];
  }

  lemma One(l: Layout, e: Entry)
    requires EntryOk(e)
    ensures EntriesOk([e]) && Replay(l, [e]) == Step(l, e.intent)
  {
    assert [e][..0] == [];
    assert Replay(l, []) == l;
  }

  lemma StartAbsorbs(edits: Edits)
    requires WellFormed(edits) && edits.entries != []
    ensures Absorbs(edits.entries, edits.entries[0].intent)
  {
    hide Canonical, EntryOk, Step, IntentOk, Replay, Expands, DistinctKeys, ResetFirst;
    var e := edits.entries[0];
    EntryIntent(e);
    forall l: Layout | Canonical(l)
      ensures Replay(Step(l, e.intent), edits.entries) == Replay(l, edits.entries)
    {
      ReplayFirst(l, edits.entries);
      ReplayFirst(Step(l, e.intent), edits.entries);
      StepTwice(l, e);
    }
  }

  lemma AddAbsorbs(edits: Edits, intent: Intent, saving: Intent)
    requires WellFormed(edits) && IntentOk(intent) && Absorbs(edits.entries, saving)
    ensures WellFormed(Add(edits, intent)) && Absorbs(Add(edits, intent).entries, saving)
  {
    hide Canonical, EntryOk, Step, IntentOk, Replay, WellFormed, Add;
    DefaultCanonical();
    AddMeaning(DEFAULT_LAYOUT, edits, intent);
    FormedEntries(Add(edits, intent));
    forall l: Layout | Canonical(l)
      ensures Replay(Step(l, saving), Add(edits, intent).entries) == Replay(l, Add(edits, intent).entries)
    {
      StepCanonical(l, saving);
      AddMeaning(l, edits, intent);
      AddMeaning(Step(l, saving), edits, intent);
    }
  }

  lemma {:induction false} WithoutKeepsFirst(entries: seq<Entry>, key: Key, entry: Entry)
    requires OnlyFirst(entries, entry)
    ensures OnlyFirst(Without(entries, key), entry)
  {
    if |entries| > 1 {
      var n := |entries| - 1;
      WithoutKeepsFirst(entries[..n], key, entry);
      assert entries[n].token != entry.token;
    } else if |entries| == 1 {
      assert entries[..0] == [];
      assert Without(entries[..0], key) == [];
    }
  }

  lemma {:induction false} FieldsKeepFirst(edits: Edits, fields: seq<(Field, Value)>, entry: Entry)
    requires OnlyFirst(edits.entries, entry) && entry.token < edits.made
    ensures OnlyFirst(PutFields(edits, fields).entries, entry) && entry.token < PutFields(edits, fields).made
  {
    if fields != [] {
      var n := |fields| - 1;
      FieldsKeepFirst(edits, fields[..n], entry);
      WithoutKeepsFirst(PutFields(edits, fields[..n]).entries, FieldKey(fields[n].0), entry);
    }
  }

  /** Adding an intent never gives a new entry the identity of the one being saved, nor moves that one. */
  lemma AddKeepsFirst(edits: Edits, intent: Intent, entry: Entry)
    requires OnlyFirst(edits.entries, entry) && entry.token < edits.made
    ensures OnlyFirst(Add(edits, intent).entries, entry) && entry.token < Add(edits, intent).made
  {
    match intent
    case Reset => assert Without([], ResetKey) == [];
    case Patch(fields) => FieldsKeepFirst(edits, fields, entry);
    case Expand(id, expanded) =>
      WithoutKeepsFirst(edits.entries, WorkspaceKey(id), entry);
      var put := Put(edits, WorkspaceKey(id), intent);
      assert OnlyFirst(put.entries, entry);
      var workspaces := Expands(put.entries);
      if |workspaces| > MAXIMUM_WORKSPACES { WithoutKeepsFirst(put.entries, WorkspaceKey(workspaces[0].id), entry); }
  }

  lemma {:induction false} WithoutHead(entries: seq<Entry>)
    requires DistinctKeys(entries) && entries != []
    ensures Without(entries, entries[0].key) == entries[1..]
  {
    var n := |entries| - 1;
    if n == 0 {
      assert entries[..0] == [];
      assert Without(entries[..0], entries[0].key) == [];
    } else {
      WithoutHead(entries[..n]);
      assert entries[n].key != entries[0].key;
      assert entries[..n][1..] + [entries[n]] == entries[1..];
    }
  }

  lemma SavedFormed(edits: Edits, entry: Entry)
    requires WellFormed(edits)
    ensures WellFormed(Saved(edits, entry))
  {
    hide EntryOk;
    WithoutOk(edits.entries, entry.key);
    WithoutKeeps(edits.entries, entry.key);
    WithoutTokens(edits.entries, entry.key, edits.made);
    ExpandsWithout(edits.entries, entry.key);
    if entry.key.WorkspaceKey? { DropMembers(Expands(edits.entries), entry.key.id); }
  }

  lemma InvIntent(s: State)
    requires Inv(s)
    ensures s.save.Saving? ==> IntentOk(s.save.entry.intent)
  {
  }

  lemma NextKeepsInv(s: State, ev: Event)
    requires Inv(s) && (ev.Adds? ==> IntentOk(ev.intent))
    ensures Inv(Next(s, ev))
  {
    hide Canonical, EntryOk, Step, IntentOk, Replay, WellFormed, Add, Absorbs, OnlyFirst, Saved, Apply;
    InvIntent(s);
    match ev
    case Adds(intent) =>
      AddMeaning(s.stored, s.edits, intent);
      if s.save.Saving? {
        AddAbsorbs(s.edits, intent, s.save.entry.intent);
        AddKeepsFirst(s.edits, intent, s.save.entry);
      }
    case Starts => if s.save.Idle? && s.edits.entries != [] { StartKeeps(s); }
    case Commits =>
      if s.save.Saving? && !s.save.committed {
        PatchDistinct(s.save.entry.intent);
        ApplyMeaning(s.stored, s.save.entry.intent);
        CommitKeeps(s);
      }
    case Completes => if s.save.Saving? && s.save.committed { CompleteKeeps(s); }
    case Stops =>
  }

  lemma StartKeeps(s: State)
    requires Inv(s) && s.edits.entries != []
    ensures Inv(s.(save := Saving(s.edits.entries[0], false)))
  {
    hide Canonical, EntryOk, Step, IntentOk, Replay, Expands, Absorbs;
    StartAbsorbs(s.edits);
  }

  lemma CommitKeeps(s: State)
    requires Inv(s) && s.save.Saving? && IntentOk(s.save.entry.intent)
    ensures Inv(s.(stored := Step(s.stored, s.save.entry.intent), save := Saving(s.save.entry, true)))
  {
    hide Canonical, EntryOk, Step, IntentOk, Replay, WellFormed, OnlyFirst;
    StepCanonical(s.stored, s.save.entry.intent);
    StepTwice(s.stored, s.save.entry);
  }

  lemma CompleteKeeps(s: State)
    requires Inv(s) && s.save.Saving? && s.save.committed
    ensures Inv(s.(edits := Saved(s.edits, s.save.entry), save := Idle))
  {
    hide Canonical, EntryOk, Step, IntentOk, Replay, Expands, Absorbs;
    SavedFormed(s.edits, s.save.entry);
    if s.save.entry in s.edits.entries {
      var i :| 0 <= i < |s.edits.entries| && s.edits.entries[i] == s.save.entry;
      assert s.edits.entries[0] == s.save.entry;
      WithoutHead(s.edits.entries);
      ReplayFirst(s.stored, s.edits.entries);
    }
  }

  // ----- whole runs -----

  ghost predicate IsRun(states: seq<State>, events: seq<Event>) {
    && |states| == |events| + 1
    && (forall i | 0 <= i < |events| ::
          && (events[i].Adds? ==> IntentOk(events[i].intent))
          && states[i + 1] == Next(states[i], events[i]))
  }

  /** The intents the user made during the first `n` events. */
  function Made(events: seq<Event>, n: nat): seq<Intent>
    requires n <= |events|
  {
    if n == 0 then []
    else if events[n - 1].Adds? then Made(events, n - 1) + [events[n - 1].intent]
    else Made(events, n - 1)
  }

  ghost predicate Starting(s: State, base: Layout) {
    Canonical(base) && s == State(EMPTY, base, Idle, base)
  }

  lemma {:induction false} RunKeepsInv(states: seq<State>, events: seq<Event>, base: Layout, i: nat)
    requires IsRun(states, events) && Starting(states[0], base) && i < |states|
    ensures Inv(states[i])
    ensures ReplayAll(base, Made(events, i)) == Some(states[i].asked) && Canonical(states[i].asked)
  {
    hide Canonical, Inv, Next, Apply, Step, IntentOk;
    if i == 0 {
      StartingInv(states[0], base);
    } else {
      RunKeepsInv(states, events, base, i - 1);
      NextKeepsInv(states[i - 1], events[i - 1]);
      AskedStep(states[i - 1], events[i - 1], base, Made(events, i - 1));
      var made := Made(events, i - 1);
      if events[i - 1].Adds? { assert (made + [events[i - 1].intent])[..|made|] == made; }
    }
  }

  lemma AskedStep(s: State, ev: Event, base: Layout, made: seq<Intent>)
    requires Canonical(s.asked) && (ev.Adds? ==> IntentOk(ev.intent))
    ensures Canonical(Next(s, ev).asked)
    ensures if ev.Adds? then Apply(s.asked, ev.intent) == Some(Next(s, ev).asked) else Next(s, ev).asked == s.asked
  {
    hide Canonical, Apply, Step, IntentOk, Add, Saved;
    if ev.Adds? {
      PatchDistinct(ev.intent);
      ApplyMeaning(s.asked, ev.intent);
    }
  }

  lemma StartingInv(s: State, base: Layout)
    requires Starting(s, base)
    ensures Inv(s)
  {
    hide Canonical;
    EmptyFormed();
  }

  /**
   No intent is lost: in every state of every run the stored layout followed by the kept
   entries gives the layout all intents so far ask for, so once nothing is kept exactly
   that layout is stored, however saves were interleaved with new intents or failed.
   */
  lemma NothingIsLost(states: seq<State>, events: seq<Event>, base: Layout, i: nat)
    requires IsRun(states, events) && Starting(states[0], base) && i < |states|
    ensures EntriesOk(states[i].edits.entries)
    ensures ReplayAll(base, Made(events, i)) == Some(Replay(states[i].stored, states[i].edits.entries))
    ensures states[i].edits.entries == [] ==> ReplayAll(base, Made(events, i)) == Some(states[i].stored)
    ensures |states[i].edits.entries| <= 23
  {
    hide Canonical, Next, Apply, Step, IntentOk, WellFormed;
    RunKeepsInv(states, events, base, i);
    FormedEntries(states[i].edits);
    KeptStaysSmall(states[i].edits);
  }
}
