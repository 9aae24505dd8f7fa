/**
 The local draft editor. Typing is synchronous; saves and updates are serialised
 through one work queue; a conflict resolution runs beside that queue. Each function
 below is the code between two awaits.
 */
module DraftEditor {
  import opened Wrappers
  import opened DraftRecords
  import opened DraftStore
  import DraftRuns

  datatype Task = SaveTask | UpdateTask

  /** A reply is absent while its transaction is in flight; `Some(None)` is a rejection. */
  type Reply = Option<Option<Record>>

  datatype Running =
    | Idle
    | Saving(revision: nat, expected: Record, sent: Content, reply: Reply)
    | Updating(revision: nat, reply: Reply)

  datatype Resolving =
    | NotResolving
    | AwaitingWork(useSaved: bool, tasks: nat)
    | Fetched(useSaved: bool, saved: Option<Record>)
    | Ensuring(useSaved: bool, header: string, creation: Option<Creation>)
    | Loaded(useSaved: bool, replacement: Record)
    | Flushing(tasks: nat)

  datatype State = State(
    record: Record, local: Content, revision: nat, dirty: bool, failed: bool, saving: bool,
    transferring: bool, queue: seq<Task>, running: Running, resolving: Resolving)

  function WithReply(running: Running, reply: Reply): Running {
    match running
    case Idle => Idle
    case Saving(revision, expected, sent, _) => Saving(revision, expected, sent, reply)
    case Updating(revision, _) => Updating(revision, reply)
  }

  // ----- synchronous segments -----

  function Pump(s: State): State {
    if s.saving || !s.dirty || s.failed then s
    else s.(saving := true, queue := s.queue + [SaveTask])
  }

  function Type(s: State, content: Content): State {
    if s.transferring || !ValidContent(content) then s
    else Pump(s.(local := content, revision := s.revision + 1, dirty := true))
  }

  function RequestUpdate(s: State): State {
    if s.transferring then s else s.(queue := s.queue + [UpdateTask])
  }

  function PendingTasks(s: State): nat {
    |s.queue| + if s.running.Idle? then 0 else 1
  }

  /** The running task is over: whoever awaited the queue is one task closer. */
  function TaskDone(s: State): State {
    var one := (n: nat) => if n == 0 then 0 else n - 1;
    s.(running := Idle,
       resolving := match s.resolving
                    case AwaitingWork(u, n) => AwaitingWork(u, one(n))
                    case Flushing(n) => Flushing(one(n))
                    case r => r)
  }

  /** The head of the save loop. */
  function SaveLoop(s: State): State {
    if s.dirty && !s.failed then s.(running := Saving(s.revision, s.record, s.local, None)) else TaskDone(s)
  }

  function StartTask(s: State): State {
    if !s.running.Idle? || s.queue == [] then s
    else
      var rest := s.(queue := s.queue[1..]);
      match s.queue[0]
      case SaveTask => SaveLoop(rest)
      case UpdateTask => rest.(running := Updating(s.revision, None))
  }

  function DeliverSave(s: State): State
    requires s.running.Saving? && s.running.reply.Some?
  {
    match s.running.reply.value
    case None => TaskDone(s.(failed := true))
    case Some(record) => SaveLoop(s.(record := record, dirty := s.dirty && s.revision != s.running.revision))
  }

  function DeliverUpdate(s: State): State
    requires s.running.Updating? && s.running.reply.Some?
  {
    match s.running.reply.value
    case None => TaskDone(s.(failed := true))
    case Some(record) =>
      TaskDone(s.(record := record,
                  local := if !s.dirty && s.revision == s.running.revision then ContentOf(record) else s.local))
  }

  function Deliver(s: State): State {
    match s.running
    case Saving(_, _, _, Some(_)) => DeliverSave(s)
    case Updating(_, Some(_)) => DeliverUpdate(s)
    case _ => s
  }

  function ClearSaving(s: State): State {
    if s.running.Saving? || SaveTask in s.queue then s else s.(saving := false)
  }

  function RequestResolve(s: State, useSaved: bool): State {
    if s.transferring || !s.resolving.NotResolving? then s
    else s.(resolving := AwaitingWork(useSaved, PendingTasks(s)))
  }

  function FinishResolve(s: State, useSaved: bool, saved: Record): State {
    var adopted := s.(record := saved,
                      local := if useSaved then ContentOf(saved) else s.local,
                      dirty := !useSaved,
                      failed := false);
    var pumped := Pump(adopted);
    pumped.(resolving := Flushing(PendingTasks(pumped)))
  }

  /** The resolution continues after a storage reply. */
  function ContinueResolve(s: State): State {
    match s.resolving
    case Fetched(useSaved, saved) =>
      if s.record.pending.Some? && (saved.None? || saved.value.incarnation != s.record.incarnation) then
        s.(resolving := NotResolving)
      else if saved.Some? then FinishResolve(s, useSaved, saved.value)
      else s.(resolving := Ensuring(useSaved, s.record.header, if s.record.everDispatched then None else s.record.creation))
    case Loaded(useSaved, saved) => FinishResolve(s, useSaved, saved)
    case Flushing(n) => if n == 0 then s.(resolving := NotResolving) else s
    case _ => s
  }

  function StartTransfer(s: State): State {
    if s.transferring || !s.resolving.NotResolving? then s else s.(transferring := true)
  }

  /** `flush` resolves rather than throws exactly in such a state. */
  predicate FlushSucceeds(s: State) {
    !s.failed && !s.dirty
  }

  // ----- the editor beside the shared store -----

  /** `history` holds every version of this draft that was ever committed. */
  datatype System = System(db: Database, namespace: Namespace, key: Key, history: set<Record>, editor: State)

  datatype Event =
    | Types(content: Content)
    | RequestsUpdate
    | Starts
    | SaveCommits
    | UpdateCommits(op: Op)
    | StoreAborts
    | Delivers
    | ClearsSaving
    | RequestsResolve(useSaved: bool)
    | ResolveReads
    | ResolveEnsures(incarnation: string)
    | ResolveAborts
    | Continues
    | StartsTransfer
    | EndsTransfer
    | Faults
    | Foreign(other: DraftRuns.Event)

  function Commit(sys: System, e: DraftRuns.Event): System {
    var db := DraftRuns.Step(sys.db, e);
    sys.(db := db, history := sys.history + if sys.key in db.drafts then {db.drafts[sys.key]} else {})
  }

  /** The reply of a transaction on this draft: the committed record, or a rejection. */
  function ReplyOf(sys: System, e: DraftRuns.Event): Reply {
    Some(if DraftRuns.Succeeds(sys.db, e) then DraftRuns.At(DraftRuns.Step(sys.db, e), sys.key) else None)
  }

  /** Updates rewrite this draft in place; removal and moves go through other calls. */
  predicate IsUpdate(op: Op, key: Key) {
    KeysOf(op) == [key] && !op.Ensure? && !op.RemoveEmpty?
  }

  function Next(sys: System, ev: Event): System {
    var s := sys.editor;
    match ev
    case Types(content) => sys.(editor := Type(s, content))
    case RequestsUpdate => sys.(editor := RequestUpdate(s))
    case Starts => sys.(editor := StartTask(s))
    case SaveCommits =>
      if s.running.Saving? && s.running.reply.None? then
        var e := DraftRuns.Event(sys.namespace, Edit(s.running.expected, s.running.sent));
        Commit(sys, e).(editor := s.(running := WithReply(s.running, ReplyOf(sys, e))))
      else sys
    case UpdateCommits(op) =>
      if s.running.Updating? && s.running.reply.None? && IsUpdate(op, sys.key) then
        var e := DraftRuns.Event(sys.namespace, op);
        Commit(sys, e).(editor := s.(running := WithReply(s.running, ReplyOf(sys, e))))
      else sys
    case StoreAborts =>
      if !s.running.Idle? && s.running.reply.None? then sys.(editor := s.(running := WithReply(s.running, Some(None)))) else sys
    case Delivers => sys.(editor := Deliver(s))
    case ClearsSaving => sys.(editor := ClearSaving(s))
    case RequestsResolve(useSaved) => sys.(editor := RequestResolve(s, useSaved))
    case ResolveReads =>
      if s.resolving.AwaitingWork? && s.resolving.tasks == 0 then
        sys.(editor := s.(resolving := Fetched(s.resolving.useSaved, DraftRuns.At(sys.db, sys.key))))
      else sys
    case ResolveEnsures(incarnation) =>
      if s.resolving.Ensuring? then
        var e := DraftRuns.Event(sys.namespace, Ensure(sys.key, s.resolving.header, s.resolving.creation, incarnation));
        match ReplyOf(sys, e).value
        case None => Commit(sys, e).(editor := s.(resolving := NotResolving))
        case Some(saved) => Commit(sys, e).(editor := s.(resolving := Loaded(s.resolving.useSaved, saved)))
      else sys
    case ResolveAborts =>
      if (s.resolving.AwaitingWork? && s.resolving.tasks == 0) || s.resolving.Ensuring? then sys.(editor := s.(resolving := NotResolving)) else sys
    case Continues => sys.(editor := ContinueResolve(s))
    case StartsTransfer => sys.(editor := StartTransfer(s))
    case EndsTransfer => sys.(editor := s.(transferring := false))
    case Faults => sys.(editor := s.(failed := true))
    case Foreign(e) => Commit(sys, e)
  }

  ghost predicate IsRun(states: seq<System>, events: seq<Event>) {
    && |states| == |events| + 1
    && (forall i {:trigger events[i]} | 0 <= i < |events| :: states[i + 1] == Next(states[i], events[i]))
  }

  /** A fresh editor over a committed record. */
  ghost predicate Initial(sys: System) {
    && Consistent(sys.db)
    && sys.key in sys.db.drafts
    && sys.history == {sys.db.drafts[sys.key]}
    && sys.editor == State(sys.db.drafts[sys.key], ContentOf(sys.db.drafts[sys.key]), 0, false, false, false, false, [], Idle, NotResolving)
  }

  /** The saved version that the resolution adopts when it continues. */
  function Adopted(s: State): Option<Record> {
    match s.resolving
    case Fetched(true, Some(saved)) =>
      if s.record.pending.Some? && saved.incarnation != s.record.incarnation then None else Some(saved)
    case Loaded(true, saved) => Some(saved)
    case _ => None
  }

  /** This step lets a resolution replace the text by the saved version. */
  predicate AdoptsSaved(s: State, ev: Event) {
    ev.Continues? && Adopted(s).Some?
  }

  /** A save is in flight, or an update that the user has typed over. */
  predicate Unsettled(s: State) {
    s.running.Saving? || (s.running.Updating? && s.running.revision != s.revision)
  }

  predicate Faithful(s: State) {
    !s.dirty ==> s.local == ContentOf(s.record)
  }

  /** A record arrives from such a task, in an editor with nothing to save that shows something else. */
  predicate Clobbers(s: State, ev: Event) {
    && ev.Delivers? && !s.dirty && Unsettled(s)
    && s.running.reply.Some? && s.running.reply.value.Some?
    && ContentOf(s.running.reply.value.value) != s.local
  }

  // ----- what every run keeps -----

  /** A save stores what is shown, unless the saved version was adopted over it; then the resolution still waits for it. */
  predicate SaveInv(s: State) {
    s.running.Saving? ==>
      && s.running.revision <= s.revision
      && (s.running.reply.Some? && s.running.reply.value.Some? ==> ContentOf(s.running.reply.value.value) == s.running.sent)
      && (s.revision == s.running.revision ==>
            s.local == s.running.sent || (!s.dirty && s.resolving.Flushing? && s.resolving.tasks > 0))
  }

  /** The editor's own part of the invariant, over the versions in `history`. */
  predicate EditorInv(s: State, history: set<Record>) {
    && SaveInv(s)
    && (s.running.Updating? ==> s.running.revision <= s.revision)
    && s.record in history
    && (s.running.Saving? ==> s.running.expected in history)
    && (!s.running.Idle? && s.running.reply.Some? && s.running.reply.value.Some? ==> s.running.reply.value.value in history)
    && (s.resolving.Fetched? && s.resolving.saved.Some? ==> s.resolving.saved.value in history)
    && (s.resolving.Loaded? ==> s.resolving.replacement in history)
  }

  ghost predicate StoreInv(sys: System) {
    && Consistent(sys.db)
    && (sys.key in sys.db.drafts ==> sys.db.drafts[sys.key] in sys.history)
    && (forall r | r in sys.history :: r.key == sys.key)
  }

  ghost predicate Inv(sys: System) {
    EditorInv(sys.editor, sys.history) && StoreInv(sys)
  }

  lemma CommitKeepsStore(sys: System, e: DraftRuns.Event)
    requires StoreInv(sys)
    ensures StoreInv(Commit(sys, e))
    ensures sys.history <= Commit(sys, e).history
    ensures Commit(sys, e).(editor := sys.editor) == Commit(sys, e) && Commit(sys, e).key == sys.key
    ensures ReplyOf(sys, e).Some?
    ensures ReplyOf(sys, e).value.Some? ==> ReplyOf(sys, e).value.value in Commit(sys, e).history
  {
    hide Total, ValidRecord, Apply;
    ApplyKeepsConsistent(sys.db, e.namespace, e.op);
  }

  lemma EditReply(sys: System, expected: Record, sent: Content)
    requires expected.key == sys.key
    ensures var reply := ReplyOf(sys, DraftRuns.Event(sys.namespace, Edit(expected, sent))).value;
            reply.Some? ==> ContentOf(reply.value) == sent
  {
    hide Apply;
    DraftRuns.StepAt(sys.db, DraftRuns.Event(sys.namespace, Edit(expected, sent)), sys.key);
  }

  lemma TypeKeeps(s: State, content: Content, history: set<Record>)
    requires EditorInv(s, history)
    ensures EditorInv(Type(s, content), history)
  {
    hide ValidContent;
  }

  lemma StartKeeps(s: State, history: set<Record>)
    requires EditorInv(s, history)
    ensures EditorInv(StartTask(s), history)
  {
  }

  lemma DeliverKeeps(s: State, history: set<Record>)
    requires EditorInv(s, history)
    ensures EditorInv(Deliver(s), history)
  {
    hide DeliverSave, DeliverUpdate, EditorInv;
    match s.running
    case Saving(_, _, _, Some(_)) => DeliverSaveKeeps(s, history);
    case Updating(_, Some(_)) => DeliverUpdateKeeps(s, history);
    case _ =>
  }

  lemma DeliverSaveKeeps(s: State, history: set<Record>)
    requires EditorInv(s, history) && s.running.Saving? && s.running.reply.Some?
    ensures EditorInv(DeliverSave(s), history)
  {
  }

  lemma DeliverUpdateKeeps(s: State, history: set<Record>)
    requires EditorInv(s, history) && s.running.Updating? && s.running.reply.Some?
    ensures EditorInv(DeliverUpdate(s), history)
  {
  }

  lemma ContinueKeeps(s: State, history: set<Record>)
    requires EditorInv(s, history)
    ensures EditorInv(ContinueResolve(s), history)
  {
    hide FinishResolve;
    match s.resolving
    case Fetched(useSaved, Some(saved)) => FinishResolveKeeps(s, useSaved, saved, history);
    case Loaded(useSaved, saved) => FinishResolveKeeps(s, useSaved, saved, history);
    case _ =>
  }

  lemma FinishResolveKeeps(s: State, useSaved: bool, saved: Record, history: set<Record>)
    requires EditorInv(s, history) && saved in history && !s.resolving.Flushing?
    ensures EditorInv(FinishResolve(s, useSaved, saved), history)
  {
  }

  lemma ReplyKeeps(s: State, reply: Option<Record>, history: set<Record>, more: set<Record>)
    requires EditorInv(s, history) && history <= more
    requires reply.Some? ==> reply.value in more
    requires reply.Some? && s.running.Saving? ==> ContentOf(reply.value) == s.running.sent
    ensures EditorInv(s.(running := WithReply(s.running, Some(reply))), more)
  {
  }

  /** The step commits a transaction. */
  predicate Stores(ev: Event) {
    ev.SaveCommits? || ev.UpdateCommits? || ev.ResolveEnsures? || ev.Foreign?
  }

  lemma LocalStepKeepsInv(sys: System, ev: Event)
    requires Inv(sys) && !Stores(ev)
    ensures Inv(Next(sys, ev)) && Next(sys, ev).history == sys.history
  {
    hide Consistent, Apply, ValidContent, Type, StartTask, Deliver, ContinueResolve, WithReply, Commit, ReplyOf;
    var s := sys.editor;
    assert EditorInv(s, sys.history);
    match ev
    case Types(content) => TypeKeeps(s, content, sys.history);
    case Starts => StartKeeps(s, sys.history);
    case StoreAborts => ReplyKeeps(s, None, sys.history, sys.history);
    case Delivers => DeliverKeeps(s, sys.history);
    case Continues => ContinueKeeps(s, sys.history);
    case _ =>
  }

  lemma SaveCommitKeepsInv(sys: System)
    requires Inv(sys)
    ensures Inv(Next(sys, SaveCommits)) && sys.history <= Next(sys, SaveCommits).history
  {
    hide Consistent, WithReply, Commit, ReplyOf;
    var s := sys.editor;
    assert EditorInv(s, sys.history);
    if s.running.Saving? && s.running.reply.None? {
      var e := DraftRuns.Event(sys.namespace, Edit(s.running.expected, s.running.sent));
      CommitKeepsStore(sys, e);
      EditReply(sys, s.running.expected, s.running.sent);
      ReplyKeeps(s, ReplyOf(sys, e).value, sys.history, Commit(sys, e).history);
    }
  }

  lemma UpdateCommitKeepsInv(sys: System, op: Op)
    requires Inv(sys)
    ensures Inv(Next(sys, UpdateCommits(op))) && sys.history <= Next(sys, UpdateCommits(op)).history
  {
    hide Consistent, WithReply, Commit, ReplyOf, IsUpdate;
    var s := sys.editor;
    assert EditorInv(s, sys.history);
    if s.running.Updating? {
      var e := DraftRuns.Event(sys.namespace, op);
      CommitKeepsStore(sys, e);
      ReplyKeeps(s, ReplyOf(sys, e).value, sys.history, Commit(sys, e).history);
    }
  }

  lemma EnsureKeepsInv(sys: System, incarnation: string)
    requires Inv(sys)
    ensures Inv(Next(sys, ResolveEnsures(incarnation))) && sys.history <= Next(sys, ResolveEnsures(incarnation)).history
  {
    hide Consistent, Commit, ReplyOf;
    var s := sys.editor;
    if s.resolving.Ensuring? {
      CommitKeepsStore(sys, DraftRuns.Event(sys.namespace, Ensure(sys.key, s.resolving.header, s.resolving.creation, incarnation)));
    }
  }

  lemma StoreStepKeepsInv(sys: System, ev: Event)
    requires Inv(sys) && Stores(ev)
    ensures Inv(Next(sys, ev)) && sys.history <= Next(sys, ev).history
  {
    hide Consistent, WithReply, Commit, ReplyOf, IsUpdate, SaveInv;
    match ev
    case SaveCommits => SaveCommitKeepsInv(sys);
    case UpdateCommits(op) => UpdateCommitKeepsInv(sys, op);
    case ResolveEnsures(incarnation) => EnsureKeepsInv(sys, incarnation);
    case Foreign(e) => CommitKeepsStore(sys, e);
  }

  lemma NextKeepsInv(sys: System, ev: Event)
    requires Inv(sys)
    ensures Inv(Next(sys, ev))
    ensures sys.history <= Next(sys, ev).history
  {
    hide Inv, Next;
    if Stores(ev) { StoreStepKeepsInv(sys, ev); } else { LocalStepKeepsInv(sys, ev); }
  }

  lemma {:induction false} RunKeepsInv(states: seq<System>, events: seq<Event>, i: nat)
    requires IsRun(states, events) && Initial(states[0]) && i < |states|
    ensures Inv(states[i])
  {
    hide Consistent, Next, Inv;
    if i == 0 {
      InitialInv(states[0]);
    } else {
      RunKeepsInv(states, events, i - 1);
      NextKeepsInv(states[i - 1], events[i - 1]);
    }
  }

  lemma InitialInv(sys: System)
    requires Initial(sys)
    ensures Inv(sys) && Faithful(sys.editor)
  {
    hide Total, ValidRecord;
  }

  // ----- when the editor shows the record -----

  /** A step can make a faithful editor unfaithful only by clobbering, and clobbering always does. */
  lemma FaithfulStep(sys: System, ev: Event)
    requires Inv(sys)
    ensures Faithful(sys.editor) && !Clobbers(sys.editor, ev) ==> Faithful(Next(sys, ev).editor)
    ensures Clobbers(sys.editor, ev) ==> !Faithful(Next(sys, ev).editor)
  {
    hide StoreInv, ValidContent, DraftRuns.Step, DraftRuns.Succeeds, IsUpdate;
  }

  /**
   In every run, whatever was resolved when: an editor that is not dirty shows its record in
   all states exactly if no record arrives from a save, or from an update typed over, in an
   editor with nothing to save that shows something else.
   */
  lemma FaithfulExactly(states: seq<System>, events: seq<Event>)
    requires IsRun(states, events) && Initial(states[0])
    ensures (forall i | 0 <= i < |states| :: Faithful(states[i].editor)) <==>
            (forall i | 0 <= i < |events| :: !Clobbers(states[i].editor, events[i]))
  {
    hide Next, Initial, Inv, Faithful, Clobbers;
    if forall i | 0 <= i < |states| :: Faithful(states[i].editor) {
      forall i | 0 <= i < |events|
        ensures !Clobbers(states[i].editor, events[i])
      {
        RunKeepsInv(states, events, i);
        FaithfulStep(states[i], events[i]);
        assert Faithful(states[i + 1].editor);
      }
    }
    if forall i | 0 <= i < |events| :: !Clobbers(states[i].editor, events[i]) {
      forall i | 0 <= i < |states|
        ensures Faithful(states[i].editor)
      {
        FaithfulUpTo(states, events, i);
      }
    }
  }

  lemma {:induction false} FaithfulUpTo(states: seq<System>, events: seq<Event>, i: nat)
    requires IsRun(states, events) && Initial(states[0]) && i < |states|
    requires forall j | 0 <= j < i :: !Clobbers(states[j].editor, events[j])
    ensures Faithful(states[i].editor)
  {
    hide Next, Initial, Inv, Faithful, Clobbers;
    if i == 0 {
      InitialInv(states[0]);
    } else {
      FaithfulUpTo(states, events, i - 1);
      RunKeepsInv(states, events, i - 1);
      FaithfulStep(states[i - 1], events[i - 1]);
    }
  }

  /** While nothing was clobbered, an editor that flush accepts shows exactly a committed version of the draft. */
  lemma FlushMeansStored(states: seq<System>, events: seq<Event>, i: nat)
    requires IsRun(states, events) && Initial(states[0]) && i < |states|
    requires forall j | 0 <= j < i :: !Clobbers(states[j].editor, events[j])
    requires FlushSucceeds(states[i].editor)
    ensures states[i].editor.record in states[i].history
    ensures states[i].editor.local == ContentOf(states[i].editor.record)
  {
    hide Consistent, Next, Clobbers;
    RunKeepsInv(states, events, i);
    FaithfulUpTo(states, events, i);
  }

  // ----- resolutions that start from a failure -----

  /** Every resolution is requested from a failed editor. */
  ghost predicate ResolvesFailures(states: seq<System>, events: seq<Event>) {
    IsRun(states, events) && forall i | 0 <= i < |events| && events[i].RequestsResolve? :: states[i].editor.failed
  }

  /** A resolution that has stopped waiting for the queue runs in a failed editor with no save in flight. */
  predicate ResolveInv(s: State) {
    && (s.running.Saving? ==> s.dirty)
    && match s.resolving
       case AwaitingWork(_, n) => s.failed && (s.running.Saving? ==> n > 0)
       case Fetched(_, _) => s.failed && !s.running.Saving?
       case Ensuring(_, _, _) => s.failed && !s.running.Saving?
       case Loaded(_, _) => s.failed && !s.running.Saving?
       case _ => true
  }

  lemma ResolveStart(s: State)
    requires ResolveInv(s)
    ensures ResolveInv(StartTask(s))
  {
  }

  lemma ResolveDeliver(s: State)
    requires ResolveInv(s)
    ensures ResolveInv(Deliver(s))
  {
  }

  lemma ResolveContinue(s: State)
    requires ResolveInv(s)
    ensures ResolveInv(ContinueResolve(s))
  {
  }

  lemma ResolveStep(sys: System, ev: Event)
    requires ResolveInv(sys.editor) && (ev.RequestsResolve? ==> sys.editor.failed)
    ensures ResolveInv(Next(sys, ev).editor)
  {
    hide ValidContent, DraftRuns.Step, DraftRuns.Succeeds, IsUpdate, StartTask, Deliver, ContinueResolve;
    ResolveStart(sys.editor);
    ResolveDeliver(sys.editor);
    ResolveContinue(sys.editor);
  }

  lemma {:induction false} ResolvesKeepInv(states: seq<System>, events: seq<Event>, i: nat)
    requires ResolvesFailures(states, events) && Initial(states[0]) && i < |states|
    ensures ResolveInv(states[i].editor)
  {
    hide Next, Consistent, ResolveInv;
    if i == 0 {
      assert ResolveInv(states[0].editor) by { InitialResolve(states[0]); }
    } else {
      ResolvesKeepInv(states, events, i - 1);
      ResolveStep(states[i - 1], events[i - 1]);
    }
  }

  lemma InitialResolve(sys: System)
    requires Initial(sys)
    ensures ResolveInv(sys.editor)
  {
    hide Consistent;
  }

  /** The successful reply of an update, typed over meanwhile, reaches a clean editor that shows something else. */
  predicate OvertakenReply(s: State, ev: Event) {
    && ev.Delivers? && !s.dirty && s.running.Updating? && s.running.revision != s.revision
    && s.running.reply.Some? && s.running.reply.value.Some?
    && ContentOf(s.running.reply.value.value) != s.local
  }

  /**
   If resolutions start only from failures, the editor is faithful in all states exactly if
   no successful reply of an overtaken update reaches a clean editor that shows other content.
   */
  lemma FaithfulWhenResolvingFailures(states: seq<System>, events: seq<Event>)
    requires ResolvesFailures(states, events) && Initial(states[0])
    ensures (forall i | 0 <= i < |states| :: Faithful(states[i].editor)) <==>
            (forall i | 0 <= i < |events| :: !OvertakenReply(states[i].editor, events[i]))
  {
    hide Next, Initial, Faithful;
    FaithfulExactly(states, events);
    forall i | 0 <= i < |events|
      ensures Clobbers(states[i].editor, events[i]) <==> OvertakenReply(states[i].editor, events[i])
    {
      ResolvesKeepInv(states, events, i);
    }
  }

  // ----- what a resolution can check before it adopts -----

  /** The saved version is never adopted while a save or an overtaken update is in flight. */
  ghost predicate CarefulRun(states: seq<System>, events: seq<Event>) {
    IsRun(states, events) && forall i | 0 <= i < |events| && AdoptsSaved(states[i].editor, events[i]) :: !Unsettled(states[i].editor)
  }

  /** Saving, or typing over an update, keeps the editor dirty until that task is over. */
  predicate UnsettledIsDirty(s: State) {
    Unsettled(s) ==> s.dirty
  }

  lemma CarefulStep(sys: System, ev: Event)
    requires Inv(sys) && UnsettledIsDirty(sys.editor) && (AdoptsSaved(sys.editor, ev) ==> !Unsettled(sys.editor))
    ensures UnsettledIsDirty(Next(sys, ev).editor)
    ensures !Clobbers(sys.editor, ev)
  {
    hide StoreInv, ValidContent, DraftRuns.Step, DraftRuns.Succeeds, IsUpdate;
  }

  lemma {:induction false} CarefulKeepsDirty(states: seq<System>, events: seq<Event>, i: nat)
    requires CarefulRun(states, events) && Initial(states[0]) && i < |states|
    ensures UnsettledIsDirty(states[i].editor)
  {
    hide Next, Consistent, Inv, Adopted;
    if i > 0 {
      CarefulKeepsDirty(states, events, i - 1);
      RunKeepsInv(states, events, i - 1);
      CarefulStep(states[i - 1], events[i - 1]);
    }
  }

  /** The check suffices: in every run in which each adoption makes it, the editor is faithful in all states. */
  lemma CarefulIsFaithful(states: seq<System>, events: seq<Event>)
    requires CarefulRun(states, events) && Initial(states[0])
    ensures forall i | 0 <= i < |events| :: !Clobbers(states[i].editor, events[i])
    ensures forall i | 0 <= i < |states| :: Faithful(states[i].editor)
  {
    hide Next, Initial, Inv, Faithful, Clobbers, AdoptsSaved;
    forall i | 0 <= i < |events|
      ensures !Clobbers(states[i].editor, events[i])
    {
      RunKeepsInv(states, events, i);
      CarefulKeepsDirty(states, events, i);
      assert AdoptsSaved(states[i].editor, events[i]) ==> !Unsettled(states[i].editor);
      CarefulStep(states[i], events[i]);
    }
    FaithfulExactly(states, events);
  }

  /** `commit` is what has still to happen for the running task to have `r` as its reply. */
  predicate Answers(sys: System, commit: seq<Event>, r: Record) {
    var s := sys.editor;
    if commit == [] then !s.running.Idle? && s.running.reply == Some(Some(r))
    else
      && |commit| == 1 && !s.running.Idle? && s.running.reply.None?
      && match commit[0]
         case SaveCommits =>
           s.running.Saving? && ReplyOf(sys, DraftRuns.Event(sys.namespace, Edit(s.running.expected, s.running.sent))) == Some(Some(r))
         case UpdateCommits(op) =>
           s.running.Updating? && IsUpdate(op, sys.key) && ReplyOf(sys, DraftRuns.Event(sys.namespace, op)) == Some(Some(r))
         case _ => false
  }

  /** Adopting changes only the editor, and leaves the running task as it is. */
  lemma AdoptingStep(sys: System)
    requires Adopted(sys.editor).Some?
    ensures var next := Next(sys, Continues);
            && next == sys.(editor := next.editor) && next.editor.running == sys.editor.running
            && next.editor.revision == sys.editor.revision
            && next.editor.local == ContentOf(Adopted(sys.editor).value) && !next.editor.dirty && !next.editor.failed
  {
  }

  lemma AnsweringStep(sys: System, ev: Event, r: Record)
    requires Answers(sys, [ev], r)
    ensures Next(sys, ev).editor == sys.editor.(running := WithReply(sys.editor.running, Some(Some(r))))
  {
    hide ReplyOf, Commit, IsUpdate;
  }

  /**
   The check is needed: from any state in which the saved version is adopted while a save or
   an overtaken update is in flight, and that task has or can still get a reply with other
   content, the run ends with nothing reported unsaved while text and record differ.
   */
  lemma AdoptingUnsettledIsUnsafe(sys: System, commit: seq<Event>, r: Record) returns (states: seq<System>)
    requires Adopted(sys.editor).Some? && Unsettled(sys.editor) && Answers(sys, commit, r)
    requires ContentOf(r) != ContentOf(Adopted(sys.editor).value)
    ensures IsRun(states, [Continues] + commit + [Delivers]) && states[0] == sys
    ensures FlushSucceeds(states[|states| - 1].editor) && !Faithful(states[|states| - 1].editor)
  {
    hide Next, ReplyOf, Adopted, Answers;
    var adopted := Next(sys, Continues);
    AdoptingStep(sys);
    if commit == [] {
      AnsweredAlready(sys, r);
      ClobberingStep(adopted, r);
      states := [sys, adopted, Next(adopted, Delivers)];
    } else {
      AnswersAfterAdopting(sys, commit, r);
      assert commit == [commit[0]];
      AnsweringStep(adopted, commit[0], r);
      var answered := Next(adopted, commit[0]);
      ClobberingStep(answered, r);
      states := [sys, adopted, answered, Next(answered, Delivers)];
    }
  }

  lemma AnsweredAlready(sys: System, r: Record)
    requires Answers(sys, [], r)
    ensures !sys.editor.running.Idle? && sys.editor.running.reply == Some(Some(r))
  {
  }

  lemma AnswersAfterAdopting(sys: System, commit: seq<Event>, r: Record)
    requires Adopted(sys.editor).Some? && commit != [] && Answers(sys, commit, r)
    ensures |commit| == 1 && Answers(Next(sys, Continues), commit, r)
  {
    hide IsUpdate, Next;
    AdoptingStep(sys);
  }

  lemma ClobberingStep(sys: System, r: Record)
    requires Unsettled(sys.editor) && sys.editor.running.reply == Some(Some(r)) && ContentOf(r) != sys.editor.local
    requires !sys.editor.dirty && !sys.editor.failed
    ensures FlushSucceeds(Next(sys, Delivers).editor) && !Faithful(Next(sys, Delivers).editor)
  {
  }

  // ----- typing is not lost -----

  /** The user types valid text into an editor that is not moving. */
  predicate TypesText(s: State, ev: Event) {
    ev.Types? && ValidContent(ev.content) && !s.transferring
  }

  /** The user replaced the text, by typing again or by choosing the saved version. */
  predicate Replaces(s: State, ev: Event) {
    TypesText(s, ev) || AdoptsSaved(s, ev)
  }

  /** The versions that were the stored draft at some step after `i`, up to step `k`. */
  ghost function StoredAfter(states: seq<System>, i: nat, k: nat): set<Record>
    requires k < |states|
  {
    set m | i < m <= k && DraftRuns.At(states[m].db, states[m].key).Some? :: DraftRuns.At(states[m].db, states[m].key).value
  }

  predicate HasContent(versions: set<Record>, content: Content) {
    exists r | r in versions :: ContentOf(r) == content
  }

  predicate Replied(running: Running) {
    !running.Idle? && running.reply.Some? && running.reply.value.Some?
  }

  /** What holds after typing `content` as revision `v`, until the user replaces it; `since` are the versions stored since. */
  predicate TypedOk(s: State, since: set<Record>, v: nat, content: Content) {
    && s.revision == v
    && ((s.dirty && s.local == content) || HasContent(since, content))
    && (s.running.Saving? ==> s.dirty)
    && (s.running.Saving? && s.running.revision == v && Replied(s.running) ==> s.running.reply.value.value in since)
    && (!s.dirty ==> s.record in since && s.local == ContentOf(s.record))
    && (!s.dirty && s.running.Updating? ==> s.running.revision == v && (Replied(s.running) ==> s.running.reply.value.value in since))
  }

  lemma TypedStart(s: State, ev: Event, since: set<Record>)
    requires SaveInv(s) && TypesText(s, ev)
    ensures TypedOk(Type(s, ev.content), since, s.revision + 1, ev.content)
  {
    hide ValidContent;
  }

  lemma TypedMore(s: State, since: set<Record>, more: set<Record>, v: nat, content: Content)
    requires TypedOk(s, since, v, content) && since <= more
    ensures TypedOk(s, more, v, content)
  {
  }

  lemma TypedTask(s: State, since: set<Record>, v: nat, content: Content)
    requires TypedOk(s, since, v, content) && SaveInv(s)
    ensures TypedOk(StartTask(s), since, v, content)
  {
    hide HasContent;
  }

  lemma TypedDeliver(s: State, since: set<Record>, v: nat, content: Content)
    requires TypedOk(s, since, v, content) && SaveInv(s)
    ensures TypedOk(Deliver(s), since, v, content)
  {
    if s.running.Saving? && Replied(s.running) && s.revision == s.running.revision { StoredContent(since, s.running.reply.value.value); }
    hide HasContent;
  }

  lemma StoredContent(since: set<Record>, r: Record)
    requires r in since
    ensures HasContent(since, ContentOf(r))
  {
  }

  lemma TypedContinue(s: State, since: set<Record>, v: nat, content: Content)
    requires TypedOk(s, since, v, content) && Adopted(s).None?
    ensures TypedOk(ContinueResolve(s), since, v, content)
  {
    hide HasContent;
  }

  /** A reply is what the draft is right after the transaction. */
  lemma TypedReply(s: State, reply: Option<Record>, since: set<Record>, v: nat, content: Content)
    requires TypedOk(s, since, v, content) && (reply.Some? ==> reply.value in since)
    ensures TypedOk(s.(running := WithReply(s.running, Some(reply))), since, v, content)
  {
    hide HasContent;
  }

  /** A step in which the user replaces nothing and no transaction commits. */
  lemma TypedLocalStep(sys: System, ev: Event, since: set<Record>, v: nat, content: Content)
    requires Inv(sys) && !Stores(ev) && !Replaces(sys.editor, ev) && TypedOk(sys.editor, since, v, content)
    ensures TypedOk(Next(sys, ev).editor, since, v, content)
  {
    hide StoreInv, ValidContent, HasContent, StartTask, Deliver, ContinueResolve, WithReply;
    var s := sys.editor;
    match ev
    case Types(text) =>
    case Starts => TypedTask(s, since, v, content);
    case StoreAborts => TypedReply(s, None, since, v, content);
    case Delivers => TypedDeliver(s, since, v, content);
    case Continues => TypedContinue(s, since, v, content);
    case _ =>
  }

  /** A commit gives at most the running task a reply, and that is what is stored then. */
  lemma TypedStoreStep(sys: System, ev: Event, since: set<Record>, v: nat, content: Content)
    requires Stores(ev) && TypedOk(sys.editor, since, v, content)
    requires DraftRuns.At(Next(sys, ev).db, sys.key).Some? ==> DraftRuns.At(Next(sys, ev).db, sys.key).value in since
    ensures TypedOk(Next(sys, ev).editor, since, v, content)
  {
    hide HasContent, WithReply, DraftRuns.Step, DraftRuns.Succeeds, IsUpdate;
    var s := sys.editor;
    match ev
    case SaveCommits =>
      if s.running.Saving? && s.running.reply.None? {
        TypedReply(s, ReplyOf(sys, DraftRuns.Event(sys.namespace, Edit(s.running.expected, s.running.sent))).value, since, v, content);
      }
    case UpdateCommits(op) =>
      if s.running.Updating? && s.running.reply.None? && IsUpdate(op, sys.key) {
        TypedReply(s, ReplyOf(sys, DraftRuns.Event(sys.namespace, op)).value, since, v, content);
      }
    case _ =>
  }

  lemma StoredGrows(states: seq<System>, i: nat, k: nat)
    requires i <= k && k + 1 < |states|
    ensures StoredAfter(states, i, k) <= StoredAfter(states, i, k + 1)
    ensures var now := DraftRuns.At(states[k + 1].db, states[k + 1].key);
            now.Some? ==> now.value in StoredAfter(states, i, k + 1)
  {
  }

  lemma KeyStays(sys: System, ev: Event)
    ensures Next(sys, ev).key == sys.key
  {
    hide DraftRuns.Step, DraftRuns.Succeeds, IsUpdate, ValidContent;
  }

  lemma {:induction false} TypedKeeps(states: seq<System>, events: seq<Event>, i: nat, j: nat)
    requires IsRun(states, events) && Initial(states[0]) && i < j < |states|
    requires TypesText(states[i].editor, events[i])
    requires forall m | i < m < j :: !Replaces(states[m].editor, events[m])
    ensures TypedOk(states[j].editor, StoredAfter(states, i, j), states[i].editor.revision + 1, events[i].content)
    decreases j
  {
    hide Next, Initial, Inv, TypedOk, Replaces, StoredAfter, Stores;
    RunKeepsInv(states, events, j - 1);
    if j == i + 1 {
      InvSaves(states[i]);
      TypedStart(states[i].editor, events[i], StoredAfter(states, i, j));
      TypesOnly(states[i], events[i]);
    } else {
      var v, content, since := states[i].editor.revision + 1, events[i].content, StoredAfter(states, i, j);
      TypedKeeps(states, events, i, j - 1);
      StoredGrows(states, i, j - 1);
      TypedMore(states[j - 1].editor, StoredAfter(states, i, j - 1), since, v, content);
      KeyStays(states[j - 1], events[j - 1]);
      if Stores(events[j - 1]) {
        TypedStoreStep(states[j - 1], events[j - 1], since, v, content);
      } else {
        TypedLocalStep(states[j - 1], events[j - 1], since, v, content);
      }
    }
  }

  lemma InvSaves(sys: System)
    requires Inv(sys)
    ensures SaveInv(sys.editor)
  {
  }

  lemma TypesOnly(sys: System, ev: Event)
    requires ev.Types?
    ensures Next(sys, ev).editor == Type(sys.editor, ev.content)
  {
  }

  /**
   Typing is never lost, in any run. Text typed at step `i` is, at any later step before the
   user replaces it, either still in the editor, unsaved and at the revision it got, or it
   was the stored draft at some step after it was typed: no settlement, update, foreign
   write or resolution that finishes meanwhile overwrites it before it is stored.
   */
  lemma TypingSurvives(states: seq<System>, events: seq<Event>, i: nat, j: nat)
    requires IsRun(states, events) && Initial(states[0]) && i < j < |states|
    requires TypesText(states[i].editor, events[i])
    requires forall m | i < m < j :: !Replaces(states[m].editor, events[m])
    ensures
      var s := states[j].editor;
      || (s.dirty && s.local == events[i].content && s.revision == states[i].editor.revision + 1)
      || exists m | i < m <= j ::
           DraftRuns.At(states[m].db, states[m].key).Some? && ContentOf(DraftRuns.At(states[m].db, states[m].key).value) == events[i].content
  {
    hide Next, Initial, Replaces;
    TypedKeeps(states, events, i, j);
  }

  /**
   If flush accepts the editor after typing, the typed text was stored after it was typed,
   and what is shown then is the content of a version that was stored after it was typed.
   */
  lemma FlushStoresTyping(states: seq<System>, events: seq<Event>, i: nat, j: nat)
    requires IsRun(states, events) && Initial(states[0]) && i < j < |states|
    requires TypesText(states[i].editor, events[i])
    requires forall m | i < m < j :: !Replaces(states[m].editor, events[m])
    requires FlushSucceeds(states[j].editor)
    ensures exists m | i < m <= j ::
              DraftRuns.At(states[m].db, states[m].key).Some? && ContentOf(DraftRuns.At(states[m].db, states[m].key).value) == events[i].content
    ensures states[j].editor.local == ContentOf(states[j].editor.record)
    ensures exists m | i < m <= j :: DraftRuns.At(states[m].db, states[m].key) == Some(states[j].editor.record)
  {
    hide Next, Initial, Replaces;
    TypedKeeps(states, events, i, j);
    assert states[j].editor.record in StoredAfter(states, i, j);
  }

  // ----- schedules that go wrong -----

  /** An idle, unfailed editor over the saved version, whose next edit would commit. */
  predicate SavedAndIdle(sys: System, content: Content) {
    && sys.editor == State(sys.editor.record, ContentOf(sys.editor.record), sys.editor.revision, false, false, false, false, [], Idle, NotResolving)
    && DraftRuns.At(sys.db, sys.key) == Some(sys.editor.record) && sys.editor.record.key == sys.key
    && ValidContent(content) && content != ContentOf(sys.editor.record)
    && DraftRuns.Succeeds(sys.db, DraftRuns.Event(sys.namespace, Edit(sys.editor.record, content)))
  }

  /** Choose the saved version, type while it loads, and let the resolution finish between the save's request and its reply. */
  function Interleaving(content: Content): seq<Event> {
    [RequestsResolve(true), ResolveReads, Types(content), Starts] + [Continues, SaveCommits, Delivers]
  }

  lemma InterleavingStart(sys: System, content: Content)
    requires SavedAndIdle(sys, content)
    ensures var s := Next(Next(Next(Next(sys, RequestsResolve(true)), ResolveReads), Types(content)), Starts);
            && s == sys.(editor := s.editor) && Adopted(s.editor) == Some(sys.editor.record) && Unsettled(s.editor)
            && s.editor.running == Saving(sys.editor.revision + 1, sys.editor.record, content, None)
  {
    hide Apply, ValidContent, DraftRuns.Succeeds;
    var a := Next(sys, RequestsResolve(true));
    var b := Next(a, ResolveReads);
    assert b == sys.(editor := sys.editor.(resolving := Fetched(true, Some(sys.editor.record))));
    var c := Next(b, Types(content));
    assert c.editor.queue == [SaveTask];
  }

  lemma SaveAnswers(sys: System, record: Record, content: Content, v: nat)
    requires record.key == sys.key && sys.editor.running == Saving(v, record, content, None)
    requires DraftRuns.Succeeds(sys.db, DraftRuns.Event(sys.namespace, Edit(record, content)))
    ensures exists r :: Answers(sys, [SaveCommits], r) && ContentOf(r) == content
  {
    hide Apply;
    var e := DraftRuns.Event(sys.namespace, Edit(record, content));
    DraftRuns.StepAt(sys.db, e, sys.key);
    EditReply(sys, record, content);
    assert Answers(sys, [SaveCommits], ReplyOf(sys, e).value.value);
  }

  /** A run goes on with another one from where it ends. */
  lemma JoinRuns(first: seq<System>, begin: seq<Event>, rest: seq<System>, end: seq<Event>)
    requires IsRun(first, begin) && IsRun(rest, end) && first[|begin|] == rest[0]
    ensures IsRun(first[..|begin|] + rest, begin + end)
  {
    hide Next;
    var states, events := first[..|begin|] + rest, begin + end;
    forall i | 0 <= i < |events|
      ensures states[i + 1] == Next(states[i], events[i])
    {
      if i < |begin| {
        assert begin[i] == events[i];
      } else {
        assert end[i - |begin|] == events[i];
      }
    }
  }

  /**
   Starting from a failure is needed: from any idle, saved, unfailed editor whose next edit
   would commit, resolving has a schedule after which the editor reports nothing unsaved
   while showing text that differs from the committed record.
   */
  lemma ResolvingWithoutFailureIsUnsafe(sys: System, content: Content) returns (states: seq<System>)
    requires SavedAndIdle(sys, content)
    ensures IsRun(states, Interleaving(content)) && states[0] == sys
    ensures FlushSucceeds(states[|states| - 1].editor) && !Faithful(states[|states| - 1].editor)
  {
    hide Next, Faithful, ValidContent, DraftRuns.Succeeds, Answers, Adopted;
    InterleavingStart(sys, content);
    var a := Next(sys, RequestsResolve(true));
    var b := Next(a, ResolveReads);
    var c := Next(b, Types(content));
    var d := Next(c, Starts);
    SaveAnswers(d, sys.editor.record, content, sys.editor.revision + 1);
    var r :| Answers(d, [SaveCommits], r) && ContentOf(r) == content;
    var rest := AdoptingUnsettledIsUnsafe(d, [SaveCommits], r);
    var first, begin := [sys, a, b, c, d], [RequestsResolve(true), ResolveReads, Types(content), Starts];
    assert IsRun(first, begin);
    JoinRuns(first, begin, rest, [Continues] + [SaveCommits] + [Delivers]);
    states := first[..4] + rest;
    assert begin + ([Continues] + [SaveCommits] + [Delivers]) == Interleaving(content);
  }

  /** An idle failed editor over the saved version, and an update whose commit would change the content. */
  predicate FailedAndIdle(sys: System, op: Op, content: Content) {
    && sys.editor == State(sys.editor.record, sys.editor.local, sys.editor.revision, sys.editor.dirty, true, false, false, [], Idle, NotResolving)
    && DraftRuns.At(sys.db, sys.key) == Some(sys.editor.record) && sys.editor.record.key == sys.key
    && ValidContent(content) && IsUpdate(op, sys.key)
    && var e := DraftRuns.Event(sys.namespace, op);
       DraftRuns.Succeeds(sys.db, e) && DraftRuns.At(DraftRuns.Step(sys.db, e), sys.key).Some?
       && ContentOf(DraftRuns.At(DraftRuns.Step(sys.db, e), sys.key).value) != ContentOf(sys.editor.record)
  }

  /** Choose the saved version after a failure; a settlement is requested and overtaken by typing while it loads. */
  function Overtaking(op: Op, content: Content): seq<Event> {
    [RequestsResolve(true), ResolveReads, RequestsUpdate, Starts, Types(content)] + [Continues, UpdateCommits(op), Delivers]
  }

  lemma OvertakingStart(sys: System, op: Op, content: Content)
    requires FailedAndIdle(sys, op, content)
    ensures var s := Next(Next(Next(Next(Next(sys, RequestsResolve(true)), ResolveReads), RequestsUpdate), Starts), Types(content));
            && s == sys.(editor := s.editor) && Adopted(s.editor) == Some(sys.editor.record) && Unsettled(s.editor)
            && s.editor.running == Updating(sys.editor.revision, None)
  {
    hide DraftRuns.Step, DraftRuns.Succeeds, ValidContent, IsUpdate;
    var a := Next(sys, RequestsResolve(true));
    var b := Next(a, ResolveReads);
    assert b == sys.(editor := sys.editor.(resolving := Fetched(true, Some(sys.editor.record))));
    var d := Next(Next(b, RequestsUpdate), Starts);
    assert d == b.(editor := b.editor.(running := Updating(sys.editor.revision, None)));
  }

  lemma UpdateAnswers(sys: System, op: Op, v: nat)
    requires sys.editor.running == Updating(v, None) && IsUpdate(op, sys.key)
    requires ReplyOf(sys, DraftRuns.Event(sys.namespace, op)).value.Some?
    ensures Answers(sys, [UpdateCommits(op)], ReplyOf(sys, DraftRuns.Event(sys.namespace, op)).value.value)
  {
    hide DraftRuns.Step, DraftRuns.Succeeds, IsUpdate;
  }

  /**
   Starting from a failure is not enough: from any idle failed editor and any update whose
   commit changes the content, adopting the saved version over the overtaken update ends
   with nothing reported unsaved while the text differs from the committed record.
   */
  lemma AdoptingOverUpdateIsUnsafe(sys: System, op: Op, content: Content) returns (states: seq<System>)
    requires FailedAndIdle(sys, op, content)
    ensures IsRun(states, Overtaking(op, content)) && states[0] == sys
    ensures FlushSucceeds(states[|states| - 1].editor) && !Faithful(states[|states| - 1].editor)
  {
    hide Next, Faithful, ValidContent, DraftRuns.Succeeds, DraftRuns.Step, IsUpdate, Answers, Adopted;
    OvertakingStart(sys, op, content);
    var a := Next(sys, RequestsResolve(true));
    var b := Next(a, ResolveReads);
    var c := Next(b, RequestsUpdate);
    var d := Next(c, Starts);
    var e := Next(d, Types(content));
    UpdateAnswers(e, op, sys.editor.revision);
    var rest := AdoptingUnsettledIsUnsafe(e, [UpdateCommits(op)], ReplyOf(e, DraftRuns.Event(e.namespace, op)).value.value);
    var first, begin := [sys, a, b, c, d, e], [RequestsResolve(true), ResolveReads, RequestsUpdate, Starts, Types(content)];
    assert IsRun(first, begin);
    JoinRuns(first, begin, rest, [Continues] + [UpdateCommits(op)] + [Delivers]);
    states := first[..5] + rest;
    assert begin + ([Continues] + [UpdateCommits(op)] + [Delivers]) == Overtaking(op, content);
  }

  // ----- the editor as the program runs it -----

  class Editor {
    var record: Record
    var text: string
    var images: seq<Image>
    var references: seq<Reference>
    var revision: nat
    var dirty: bool
    var failed: bool
    var saving: bool
    var transferring: bool
    var queue: seq<Task>
    var running: Running
    var resolving: Resolving

    function View(): State
      reads this
    {
      State(record, Content(text, images, references), revision, dirty, failed, saving, transferring, queue, running, resolving)
    }

    constructor (record: Record)
      ensures View() == State(record, ContentOf(record), 0, false, false, false, false, [], Idle, NotResolving)
    {
      this.record := record;
      text, images, references := record.text, record.images, record.references;
      revision, dirty, failed, saving, transferring := 0, false, false, false, false;
      queue, running, resolving := [], Idle, NotResolving;
    }

    method PumpSaves()
      modifies this
      ensures View() == Pump(old(View()))
    {
      if saving || !dirty || failed { return; }
      saving := true;
      queue := queue + [SaveTask];
    }

    method Edit(content: Content)
      modifies this
      ensures View() == Type(old(View()), content)
    {
      if transferring || !ValidContent(content) { return; }
      text, images, references := content.text, content.images, content.references;
      revision := revision + 1;
      dirty := true;
      PumpSaves();
    }

    method Update()
      modifies this
      ensures View() == RequestUpdate(old(View()))
    {
      if transferring { return; }
      queue := queue + [UpdateTask];
    }

    method FinishTask()
      modifies this
      ensures View() == TaskDone(old(View()))
    {
      running := Idle;
      match resolving
      case AwaitingWork(useSaved, n) => resolving := AwaitingWork(useSaved, if n == 0 then 0 else n - 1);
      case Flushing(n) => resolving := Flushing(if n == 0 then 0 else n - 1);
      case _ =>
    }

    method ContinueSaving()
      modifies this
      ensures View() == SaveLoop(old(View()))
    {
      if dirty && !failed {
        running := Saving(revision, record, Content(text, images, references), None);
      } else {
        FinishTask();
      }
    }

    method RunNext()
      modifies this
      ensures View() == StartTask(old(View()))
    {
      if !running.Idle? || queue == [] { return; }
      var task := queue[0];
      queue := queue[1..];
      match task
      case SaveTask => ContinueSaving();
      case UpdateTask => running := Updating(revision, None);
    }

    /** The reply of the store reaches the task that awaits it. */
    method Receive()
      modifies this
      ensures View() == Deliver(old(View()))
    {
      match running
      case Saving(sent, _, _, Some(reply)) =>
        if reply.None? {
          failed := true;
          FinishTask();
        } else {
          record := reply.value;
          if revision == sent { dirty := false; }
          ContinueSaving();
        }
      case Updating(started, Some(reply)) =>
        if reply.None? {
          failed := true;
        } else {
          record := reply.value;
          if !dirty && revision == started {
            text, images, references := record.text, record.images, record.references;
          }
        }
        FinishTask();
      case _ =>
    }

    method Resolve(useSaved: bool)
      modifies this
      ensures View() == RequestResolve(old(View()), useSaved)
    {
      if transferring || !resolving.NotResolving? { return; }
      resolving := AwaitingWork(useSaved, |queue| + if running.Idle? then 0 else 1);
    }

    method Adopt(useSaved: bool, saved: Record)
      modifies this
      ensures View() == FinishResolve(old(View()), useSaved, saved)
    {
      record := saved;
      if useSaved {
        text, images, references := saved.text, saved.images, saved.references;
        dirty := false;
      } else {
        dirty := true;
      }
      failed := false;
      PumpSaves();
      resolving := Flushing(|queue| + if running.Idle? then 0 else 1);
    }

    method ResumeResolve()
      modifies this
      ensures View() == ContinueResolve(old(View()))
    {
      match resolving
      case Fetched(useSaved, saved) =>
        if record.pending.Some? && (saved.None? || saved.value.incarnation != record.incarnation) {
          resolving := NotResolving;
        } else if saved.Some? {
          Adopt(useSaved, saved.value);
        } else {
          resolving := Ensuring(useSaved, record.header, if record.everDispatched then None else record.creation);
        }
      case Loaded(useSaved, saved) => Adopt(useSaved, saved);
      case Flushing(n) => if n == 0 { resolving := NotResolving; }
      case _ =>
    }

    method Transfer()
      modifies this
      ensures View() == StartTransfer(old(View()))
    {
      if transferring || !resolving.NotResolving? { return; }
      transferring := true;
    }
  }
}
