/**
 The resident manager of the browser listener: concurrent launch, stop and status tasks
 under a creation lock, a browser lock and a generation fence. Each step is what a task
 does between two waits, or between two accesses to the shared generation.
 */
module Resident {
  import opened Wrappers

  datatype Health = Running | SelfStopped | Closed | Unclean

  /** A listener and the launch task that started it. */
  datatype Listener = Listener(health: Health, launch: nat)

  datatype Task =
    | LaunchWaiting(gen: nat)                 // for the creation lock
    | LaunchChecking(gen: nat)
    | LaunchLooking(gen: nat, again: bool)    // for the browser lock
    | LaunchClosingOld(gen: nat, listener: nat)
    | LaunchAdopting(gen: nat, listener: nat) // holds the browser lock while minting a ticket
    | LaunchStarting(gen: nat)
    | LaunchMinting(gen: nat, listener: nat)
    | LaunchPublishing(gen: nat, listener: nat)
    | LaunchConfirming(gen: nat, listener: nat)
    | LaunchStoring(gen: nat, listener: nat)
    | LaunchDiscarding(gen: nat, listener: nat)
    | LaunchDone(gen: nat, ready: Option<nat>)
    | StopWaiting(gen: nat)
    | StopTaking(gen: nat)
    | StopClosing(gen: nat, listener: nat)
    | StopDone(gen: nat, ok: bool)
    | StatusWaiting
    | StatusClosing(listener: nat)
    | StatusDone

  datatype State = State(
    generation: nat, creation: Option<nat>, browser: Option<nat>, slot: Option<nat>,
    listeners: seq<Listener>, tasks: seq<Task>)

  const INITIAL := State(0, None, None, None, [], [])

  // ----- steps -----

  predicate Done(task: Task) {
    task.LaunchDone? || task.StopDone? || task.StatusDone?
  }

  predicate NeedsCreation(task: Task) {
    task.LaunchWaiting? || task.StopWaiting?
  }

  predicate NeedsBrowser(task: Task) {
    task.LaunchLooking? || task.LaunchPublishing? || task.StopTaking? || task.StatusWaiting?
  }

  predicate Enabled(s: State, t: nat) {
    && t < |s.tasks| && !Done(s.tasks[t])
    && (NeedsCreation(s.tasks[t]) ==> s.creation.None?)
    && (NeedsBrowser(s.tasks[t]) ==> s.browser.None?)
  }

  function To(s: State, t: nat, task: Task): State
    requires t < |s.tasks|
  {
    s.(tasks := s.tasks[t := task])
  }

  /** A launch returns: it lets go of every lock it holds. */
  function Return(s: State, t: nat, gen: nat, ready: Option<nat>): State
    requires t < |s.tasks|
  {
    To(s, t, LaunchDone(gen, ready)).(creation := None, browser := if s.browser == Some(t) then None else s.browser)
  }

  /** Disposing a listener ends it, cleanly or not. */
  function Dispose(s: State, l: nat, clean: bool): State {
    if l < |s.listeners| then s.(listeners := s.listeners[l := s.listeners[l].(health := if clean then Closed else Unclean)]) else s
  }

  predicate SlotStopped(s: State) {
    s.slot.Some? && s.slot.value < |s.listeners| && s.listeners[s.slot.value].health.SelfStopped?
  }

  /** The step of a launch that looks at the browser slot; `conflict` says the running listener has another port or source. */
  function Look(s: State, t: nat, gen: nat, again: bool, conflict: bool): State
    requires t < |s.tasks|
  {
    if !again && SlotStopped(s) then To(s, t, LaunchClosingOld(gen, s.slot.value)).(slot := None)
    else if s.slot.None? then To(s, t, LaunchStarting(gen))
    else if conflict then Return(s, t, gen, None)
    else To(s, t, LaunchAdopting(gen, s.slot.value)).(browser := Some(t))
  }

  /** One step of task `t`; `ok` is the outcome of what it was waiting for. */
  function Step(s: State, t: nat, ok: bool, conflict: bool): State
    requires Enabled(s, t)
  {
    match s.tasks[t]
    case LaunchWaiting(gen) => To(s, t, LaunchChecking(gen)).(creation := Some(t))
    case LaunchChecking(gen) => if gen != s.generation then Return(s, t, gen, None) else To(s, t, LaunchLooking(gen, false))
    case LaunchLooking(gen, again) => Look(s, t, gen, again, conflict)
    case LaunchClosingOld(gen, l) =>
      if ok then To(Dispose(s, l, true), t, LaunchLooking(gen, true)) else Return(Dispose(s, l, false), t, gen, None)
    case LaunchAdopting(gen, l) => Return(s, t, gen, if ok && gen == s.generation then Some(l) else None)
    case LaunchStarting(gen) =>
      if ok then To(s, t, LaunchMinting(gen, |s.listeners|)).(listeners := s.listeners + [Listener(Running, t)])
      else Return(s, t, gen, None)
    case LaunchMinting(gen, l) => To(s, t, if ok then LaunchPublishing(gen, l) else LaunchDiscarding(gen, l))
    case LaunchPublishing(gen, l) => To(s, t, LaunchConfirming(gen, l)).(browser := Some(t))
    case LaunchConfirming(gen, l) =>
      if gen != s.generation then To(s, t, LaunchDiscarding(gen, l)).(browser := None) else To(s, t, LaunchStoring(gen, l))
    case LaunchStoring(gen, l) => Return(s.(slot := Some(l)), t, gen, Some(l))
    case LaunchDiscarding(gen, l) => Return(Dispose(s, l, ok), t, gen, None)
    case StopWaiting(gen) => To(s, t, StopTaking(gen)).(creation := Some(t))
    case StopTaking(gen) =>
      if s.slot.Some? then To(s, t, StopClosing(gen, s.slot.value)).(slot := None)
      else To(s, t, StopDone(gen, true)).(creation := None)
    case StopClosing(gen, l) => To(Dispose(s, l, ok), t, StopDone(gen, ok)).(creation := None)
    case StatusWaiting =>
      if SlotStopped(s) then To(s, t, StatusClosing(s.slot.value)).(slot := None) else To(s, t, StatusDone)
    case StatusClosing(l) => To(Dispose(s, l, ok), t, StatusDone)
    case _ => s
  }

  datatype Event =
    | BeginLaunch
    | BeginStop
    | BeginStatus
    | Steps(task: nat, ok: bool, conflict: bool)
    | StopsItself(listener: nat)

  function Next(s: State, ev: Event): State {
    match ev
    case BeginLaunch => s.(tasks := s.tasks + [LaunchWaiting(s.generation)])
    case BeginStop => s.(generation := s.generation + 1, tasks := s.tasks + [StopWaiting(s.generation + 1)])
    case BeginStatus => s.(tasks := s.tasks + [StatusWaiting])
    case Steps(t, ok, conflict) => if Enabled(s, t) then Step(s, t, ok, conflict) else s
    case StopsItself(l) =>
      if l < |s.listeners| && s.listeners[l].health.Running?
      then s.(listeners := s.listeners[l := s.listeners[l].(health := SelfStopped)]) else s
  }

  // ----- the invariant -----

  predicate HoldsCreation(task: Task) {
    match task
    case LaunchWaiting(_) => false
    case LaunchDone(_, _) => false
    case StopWaiting(_) => false
    case StopDone(_, _) => false
    case StatusWaiting => false
    case StatusClosing(_) => false
    case StatusDone => false
    case _ => true
  }

  predicate HoldsBrowser(task: Task) {
    task.LaunchAdopting? || task.LaunchConfirming? || task.LaunchStoring?
  }

  /** The listener a task has in hand, outside the slot. */
  function Owned(task: Task): Option<nat> {
    match task
    case LaunchClosingOld(_, l) => Some(l)
    case LaunchMinting(_, l) => Some(l)
    case LaunchPublishing(_, l) => Some(l)
    case LaunchConfirming(_, l) => Some(l)
    case LaunchStoring(_, l) => Some(l)
    case LaunchDiscarding(_, l) => Some(l)
    case StopClosing(_, l) => Some(l)
    case StatusClosing(l) => Some(l)
    case _ => None
  }

  function Generation(task: Task): Option<nat> {
    match task
    case StatusWaiting => None
    case StatusClosing(_) => None
    case StatusDone => None
    case LaunchLooking(gen, _) => Some(gen)
    case LaunchClosingOld(gen, _) => Some(gen)
    case LaunchAdopting(gen, _) => Some(gen)
    case LaunchMinting(gen, _) => Some(gen)
    case LaunchPublishing(gen, _) => Some(gen)
    case LaunchConfirming(gen, _) => Some(gen)
    case LaunchStoring(gen, _) => Some(gen)
    case LaunchDiscarding(gen, _) => Some(gen)
    case LaunchDone(gen, _) => Some(gen)
    case StopClosing(gen, _) => Some(gen)
    case StopDone(gen, _) => Some(gen)
    case LaunchWaiting(gen) => Some(gen)
    case LaunchChecking(gen) => Some(gen)
    case LaunchStarting(gen) => Some(gen)
    case StopWaiting(gen) => Some(gen)
    case StopTaking(gen) => Some(gen)
  }

  predicate IsStop(task: Task) {
    task.StopWaiting? || task.StopTaking? || task.StopClosing? || task.StopDone?
  }

  /** A launch that saw its generation unchanged while holding the creation lock. */
  predicate PassedCheck(task: Task) {
    HoldsCreation(task) && !IsStop(task) && !task.LaunchChecking?
  }

  predicate Alive(h: Health) {
    h.Running? || h.SelfStopped?
  }

  ghost predicate LocksOk(s: State) {
    && (forall t: nat | t < |s.tasks| :: HoldsCreation(s.tasks[t]) <==> s.creation == Some(t))
    && (forall t: nat | t < |s.tasks| :: HoldsBrowser(s.tasks[t]) <==> s.browser == Some(t))
    && (s.creation.Some? ==> s.creation.value < |s.tasks|)
    && (s.browser.Some? ==> s.browser.value < |s.tasks|)
  }

  /** A task begun after a stop loaded a later generation than one begun before it. */
  ghost predicate GenerationsOk(s: State) {
    && (forall t: nat | t < |s.tasks| && Generation(s.tasks[t]).Some? :: Generation(s.tasks[t]).value <= s.generation)
    && (forall u: nat, t: nat | u < t < |s.tasks| && IsStop(s.tasks[t]) && Generation(s.tasks[u]).Some? ::
          Generation(s.tasks[u]).value < Generation(s.tasks[t]).value)
  }

  /** A listener is in the slot, or in one task's hands, or closed; what runs is where the creation lock protects it. */
  ghost predicate HandsOk(s: State) {
    && (s.slot.Some? ==> s.slot.value < |s.listeners| && Alive(s.listeners[s.slot.value].health))
    && (forall t: nat | t < |s.tasks| && Owned(s.tasks[t]).Some? ::
          var l := Owned(s.tasks[t]).value;
          && l < |s.listeners| && Alive(s.listeners[l].health) && s.slot != Some(l)
          && (s.tasks[t].LaunchClosingOld? || s.tasks[t].StatusClosing? ==> s.listeners[l].health.SelfStopped?)
          && (PassedCheck(s.tasks[t]) && !s.tasks[t].LaunchClosingOld? ==> s.listeners[l].launch == t))
    && (forall t: nat, u: nat | t < u < |s.tasks| && Owned(s.tasks[t]).Some? :: Owned(s.tasks[t]) != Owned(s.tasks[u]))
  }

  ghost predicate RunningKept(s: State) {
    forall l: nat | l < |s.listeners| && s.listeners[l].health.Running? ::
      s.slot == Some(l) || (s.creation.Some? && s.creation.value < |s.tasks| && Owned(s.tasks[s.creation.value]) == Some(l))
  }

  /** What a returned stop fences off: launches begun before it neither run a listener nor are past their check. */
  ghost predicate Fenced(s: State) {
    forall t: nat | t < |s.tasks| && s.tasks[t].StopDone? ::
      && (forall u: nat | u < |s.tasks| && PassedCheck(s.tasks[u]) :: t < u)
      && (forall l: nat | l < |s.listeners| && s.listeners[l].health.Running? :: t < s.listeners[l].launch)
  }

  /** From here on a task with the creation lock relies on an empty slot. */
  predicate ReliesOnEmpty(task: Task) {
    (HoldsCreation(task) && Owned(task).Some?) || task.LaunchStarting? || (task.LaunchLooking? && task.again)
  }

  ghost predicate SlotOk(s: State) {
    forall t: nat | t < |s.tasks| ::
      && (ReliesOnEmpty(s.tasks[t]) ==> s.slot.None?)
      && (s.tasks[t].LaunchAdopting? ==> s.slot == Some(s.tasks[t].listener))
  }

  ghost predicate Inv(s: State) {
    SlotOk(s) && LocksOk(s) && GenerationsOk(s) && HandsOk(s) && RunningKept(s) && Fenced(s)
  }

  // ----- one task changes -----

  predicate Mine(lock: Option<nat>, t: nat) {
    lock == None || lock == Some(t)
  }

  predicate SameTasks(s: State, n: State, t: nat) {
    && t < |s.tasks| && |n.tasks| == |s.tasks| && n.tasks == s.tasks[t := n.tasks[t]]
    && n.generation == s.generation
    && Generation(n.tasks[t]) == Generation(s.tasks[t]) && IsStop(n.tasks[t]) == IsStop(s.tasks[t])
  }

  predicate LockMoves(s: State, n: State, t: nat)
    requires t < |n.tasks|
  {
    && (HoldsCreation(n.tasks[t]) <==> n.creation == Some(t)) && (n.creation == s.creation || (Mine(s.creation, t) && Mine(n.creation, t)))
    && (HoldsBrowser(n.tasks[t]) <==> n.browser == Some(t)) && (n.browser == s.browser || (Mine(s.browser, t) && Mine(n.browser, t)))
  }

  /** Nothing moves. */
  predicate Stays(s: State, n: State, a: Task, b: Task) {
    n.slot == s.slot && n.listeners == s.listeners && Owned(b) == Owned(a)
  }

  /** The task takes the listener out of the slot. */
  predicate TakesSlot(s: State, n: State, a: Task, b: Task) {
    && s.slot.Some? && n.slot.None? && n.listeners == s.listeners && Owned(a).None? && Owned(b) == s.slot
    && s.browser.None?
  }

  /** The task puts its listener into the empty slot. */
  predicate FillsSlot(s: State, n: State, t: nat, a: Task, b: Task) {
    && s.slot.None? && n.slot.Some? && n.slot == Owned(a) && n.listeners == s.listeners && Owned(b).None?
    && s.creation == Some(t) && n.creation == None
  }

  predicate Disposes(s: State, n: State, a: Task, b: Task) {
    && n.slot == s.slot && Owned(a).Some? && Owned(b).None? && Owned(a).value < |s.listeners|
    && |n.listeners| == |s.listeners| && n.listeners == s.listeners[Owned(a).value := n.listeners[Owned(a).value]]
    && !Alive(n.listeners[Owned(a).value].health)
  }

  predicate Starts(s: State, n: State, t: nat, a: Task, b: Task) {
    && n.slot == s.slot && Owned(a).None? && Owned(b) == Some(|s.listeners|)
    && n.listeners == s.listeners + [Listener(Running, t)] && PassedCheck(a)
  }

  predicate ListenerMoves(s: State, n: State, t: nat)
    requires t < |s.tasks| && t < |n.tasks|
  {
    var a, b := s.tasks[t], n.tasks[t];
    Stays(s, n, a, b) || TakesSlot(s, n, a, b) || FillsSlot(s, n, t, a, b) || Disposes(s, n, a, b) || Starts(s, n, t, a, b)
  }

  /** What the new state of the task promises about the listener it has. */
  predicate HandOk(n: State, t: nat)
    requires t < |n.tasks|
  {
    var b := n.tasks[t];
    && (ReliesOnEmpty(b) ==> n.slot.None?)
    && (b.LaunchAdopting? ==> n.slot == Some(b.listener))
    && (Owned(b).Some? && Owned(b).value < |n.listeners| ==>
          var l := n.listeners[Owned(b).value];
          && (b.LaunchClosingOld? || b.StatusClosing? ==> l.health.SelfStopped?)
          && (PassedCheck(b) && !b.LaunchClosingOld? ==> l.launch == t)
          && (l.health.Running? ==> n.creation == Some(t)))
  }

  /** A task passes its check only with the current generation, and a stop ends only with the slot empty. */
  predicate FenceMoves(s: State, n: State, t: nat)
    requires t < |s.tasks| && t < |n.tasks|
  {
    var a, b := s.tasks[t], n.tasks[t];
    && (PassedCheck(b) && !PassedCheck(a) ==> !IsStop(a) && Generation(a) == Some(s.generation))
    && (b.StopDone? && !a.StopDone? ==> s.creation == Some(t) && n.creation == None && n.slot.None? && Owned(b).None?)
  }

  predicate Moves(s: State, n: State, t: nat) {
    SameTasks(s, n, t) && LockMoves(s, n, t) && ListenerMoves(s, n, t) && HandOk(n, t) && FenceMoves(s, n, t)
  }

  lemma LocksKept(s: State, n: State, t: nat)
    requires LocksOk(s) && SameTasks(s, n, t) && LockMoves(s, n, t)
    ensures LocksOk(n)
  {
    hide HoldsCreation, HoldsBrowser, Generation, IsStop;
  }

  lemma GenerationsKept(s: State, n: State, t: nat)
    requires GenerationsOk(s) && SameTasks(s, n, t)
    ensures GenerationsOk(n)
  {
    hide Generation, IsStop;
    forall u: nat | u < |n.tasks|
      ensures Generation(n.tasks[u]) == Generation(s.tasks[u]) && IsStop(n.tasks[u]) == IsStop(s.tasks[u])
    {
    }
  }

  /** A task that needs the slot as it is holds one of the locks. */
  lemma NeedsLock(task: Task)
    ensures ReliesOnEmpty(task) ==> HoldsCreation(task)
    ensures task.LaunchAdopting? ==> HoldsCreation(task) && HoldsBrowser(task)
  {
  }

  lemma SlotKept(s: State, n: State, t: nat)
    requires SlotOk(s) && LocksOk(s) && Moves(s, n, t)
    ensures SlotOk(n)
  {
    hide HoldsCreation, HoldsBrowser, Generation, IsStop, PassedCheck, Owned, ReliesOnEmpty;
    forall u: nat | u < |n.tasks|
      ensures (ReliesOnEmpty(n.tasks[u]) ==> n.slot.None?) && (n.tasks[u].LaunchAdopting? ==> n.slot == Some(n.tasks[u].listener))
    {
      NeedsLock(s.tasks[u]);
      if u != t { assert n.tasks[u] == s.tasks[u]; }
    }
  }

  lemma HandsKept(s: State, n: State, t: nat)
    requires HandsOk(s) && Moves(s, n, t)
    ensures HandsOk(n)
  {
    hide HoldsCreation, HoldsBrowser, Generation, IsStop, PassedCheck, Owned, ReliesOnEmpty, FenceMoves, LockMoves;
    assert forall u: nat | u < |n.tasks| && u != t :: n.tasks[u] == s.tasks[u];
    assert Owned(s.tasks[t]).Some? ==> Owned(s.tasks[t]).value < |s.listeners|;
  }

  lemma RunningStaysKept(s: State, n: State, t: nat)
    requires RunningKept(s) && LocksOk(s) && HandsOk(s) && Moves(s, n, t)
    ensures RunningKept(n)
  {
    hide HoldsCreation, HoldsBrowser, Generation, IsStop, PassedCheck, Owned, ReliesOnEmpty, FenceMoves;
    assert forall u: nat | u < |n.tasks| && u != t :: n.tasks[u] == s.tasks[u];
    forall l: nat | l < |n.listeners| && n.listeners[l].health.Running?
      ensures n.slot == Some(l) || (n.creation.Some? && n.creation.value < |n.tasks| && Owned(n.tasks[n.creation.value]) == Some(l))
    {
      if l < |s.listeners| { assert s.listeners[l].health.Running?; }
    }
  }

  lemma StopsDoNotPass(task: Task)
    ensures PassedCheck(task) ==> HoldsCreation(task) && !IsStop(task) && !task.StopDone?
    ensures task.StopDone? ==> IsStop(task) && Generation(task).Some?
  {
  }

  lemma FenceKept(s: State, n: State, t: nat)
    requires Fenced(s) && LocksOk(s) && GenerationsOk(s) && HandsOk(s) && Moves(s, n, t) && RunningKept(n)
    ensures Fenced(n)
  {
    hide HoldsCreation, HoldsBrowser, Generation, IsStop, PassedCheck, Owned, ReliesOnEmpty;
    assert forall u: nat | u < |n.tasks| && u != t :: n.tasks[u] == s.tasks[u];
    forall d: nat | d < |n.tasks| && n.tasks[d].StopDone?
      ensures forall u: nat | u < |n.tasks| && PassedCheck(n.tasks[u]) :: d < u
      ensures forall l: nat | l < |n.listeners| && n.listeners[l].health.Running? :: d < n.listeners[l].launch
    {
      StopsDoNotPass(n.tasks[d]);
      StopsDoNotPass(s.tasks[d]);
      if s.tasks[d].StopDone? {
        forall u: nat | u < |n.tasks| && PassedCheck(n.tasks[u])
          ensures d < u
        {
          StopsDoNotPass(n.tasks[u]);
        }
      } else {
        forall u: nat | u < |n.tasks| && PassedCheck(n.tasks[u])
          ensures false
        {
          StopsDoNotPass(n.tasks[u]);
        }
      }
    }
  }

  lemma MoveKeepsInv(s: State, n: State, t: nat)
    requires Inv(s) && Moves(s, n, t)
    ensures Inv(n)
  {
    hide LocksOk, GenerationsOk, SlotOk, HandsOk, RunningKept, Fenced, LockMoves, ListenerMoves, HandOk, FenceMoves, SameTasks;
    LocksKept(s, n, t);
    GenerationsKept(s, n, t);
    SlotKept(s, n, t);
    HandsKept(s, n, t);
    RunningStaysKept(s, n, t);
    FenceKept(s, n, t);
  }

  // ----- every step keeps the invariant -----

  /** Beginning a task changes nothing for the others. */
  lemma BeginKeeps(s: State, task: Task, generation: nat)
    requires Inv(s) && !HoldsCreation(task) && !HoldsBrowser(task) && Owned(task).None? && !task.StopDone?
    requires generation >= s.generation
    requires Generation(task).Some? ==> Generation(task).value <= generation
    requires IsStop(task) ==> Generation(task) == Some(s.generation + 1)
    ensures Inv(s.(generation := generation, tasks := s.tasks + [task]))
  {
    var n := s.(generation := generation, tasks := s.tasks + [task]);
    BeginKeepsLocks(s, n, task);
    BeginKeepsOrder(s, n, task);
    BeginKeepsHands(s, n, task);
    BeginKeepsFence(s, n, task);
  }

  lemma BeginKeepsLocks(s: State, n: State, task: Task)
    requires LocksOk(s) && SlotOk(s) && n == s.(generation := n.generation, tasks := s.tasks + [task])
    requires !HoldsCreation(task) && !HoldsBrowser(task)
    ensures LocksOk(n) && SlotOk(n)
  {
    hide HoldsCreation, HoldsBrowser, Owned, ReliesOnEmpty;
    NeedsLock(task);
  }

  lemma BeginKeepsOrder(s: State, n: State, task: Task)
    requires GenerationsOk(s) && n == s.(generation := n.generation, tasks := s.tasks + [task]) && n.generation >= s.generation
    requires Generation(task).Some? ==> Generation(task).value <= n.generation
    requires IsStop(task) ==> Generation(task) == Some(s.generation + 1)
    ensures GenerationsOk(n)
  {
    hide Generation, IsStop;
  }

  lemma BeginKeepsHands(s: State, n: State, task: Task)
    requires HandsOk(s) && RunningKept(s) && n == s.(generation := n.generation, tasks := s.tasks + [task]) && Owned(task).None?
    ensures HandsOk(n) && RunningKept(n)
  {
    hide HoldsCreation, PassedCheck, Owned;
  }

  lemma BeginKeepsFence(s: State, n: State, task: Task)
    requires Fenced(s) && n == s.(generation := n.generation, tasks := s.tasks + [task])
    requires !HoldsCreation(task) && !task.StopDone?
    ensures Fenced(n)
  {
    hide PassedCheck;
    StopsDoNotPass(task);
  }

  lemma StopsItselfKeeps(s: State, l: nat)
    requires Inv(s) && l < |s.listeners| && s.listeners[l].health.Running?
    ensures Inv(s.(listeners := s.listeners[l := s.listeners[l].(health := SelfStopped)]))
  {
    hide HoldsCreation, HoldsBrowser, Generation, IsStop, PassedCheck, Owned, ReliesOnEmpty;
  }

  /** What the invariant says about one task. */
  lemma TaskFacts(s: State, t: nat)
    requires Inv(s) && t < |s.tasks|
    ensures var a := s.tasks[t];
            && (HoldsCreation(a) <==> s.creation == Some(t)) && (HoldsBrowser(a) <==> s.browser == Some(t))
            && (ReliesOnEmpty(a) ==> s.slot.None?) && (a.LaunchAdopting? ==> s.slot == Some(a.listener))
            && (s.slot.Some? ==> s.slot.value < |s.listeners|)
            && (Owned(a).Some? ==>
                  && Owned(a).value < |s.listeners|
                  && var l := s.listeners[Owned(a).value];
                     && Alive(l.health) && (a.LaunchClosingOld? || a.StatusClosing? ==> l.health.SelfStopped?)
                     && (PassedCheck(a) && !a.LaunchClosingOld? ==> l.launch == t))
  {
    hide HoldsCreation, HoldsBrowser, Generation, IsStop, PassedCheck, Owned, ReliesOnEmpty;
  }

  lemma WaitingMoves(s: State, t: nat, ok: bool, conflict: bool)
    requires Inv(s) && Enabled(s, t) && (s.tasks[t].LaunchWaiting? || s.tasks[t].StopWaiting?)
    ensures Moves(s, Step(s, t, ok, conflict), t)
  {
    hide Inv;
    TaskFacts(s, t);
  }

  lemma CheckingMoves(s: State, t: nat, ok: bool, conflict: bool)
    requires Inv(s) && Enabled(s, t) && s.tasks[t].LaunchChecking?
    ensures Moves(s, Step(s, t, ok, conflict), t)
  {
    hide Inv;
    TaskFacts(s, t);
  }

  lemma LookingMoves(s: State, t: nat, ok: bool, conflict: bool)
    requires Inv(s) && Enabled(s, t) && s.tasks[t].LaunchLooking?
    ensures Moves(s, Step(s, t, ok, conflict), t)
  {
    hide Inv;
    TaskFacts(s, t);
  }

  lemma ClosingOldMoves(s: State, t: nat, ok: bool, conflict: bool)
    requires Inv(s) && Enabled(s, t) && s.tasks[t].LaunchClosingOld?
    ensures Moves(s, Step(s, t, ok, conflict), t)
  {
    hide Inv;
    TaskFacts(s, t);
  }

  lemma AdoptingMoves(s: State, t: nat, ok: bool, conflict: bool)
    requires Inv(s) && Enabled(s, t) && s.tasks[t].LaunchAdopting?
    ensures Moves(s, Step(s, t, ok, conflict), t)
  {
    hide Inv;
    TaskFacts(s, t);
  }

  lemma StartingMoves(s: State, t: nat, ok: bool, conflict: bool)
    requires Inv(s) && Enabled(s, t) && s.tasks[t].LaunchStarting?
    ensures Moves(s, Step(s, t, ok, conflict), t)
  {
    hide Inv;
    TaskFacts(s, t);
  }

  lemma PublishingMoves(s: State, t: nat, ok: bool, conflict: bool)
    requires Inv(s) && Enabled(s, t) && (s.tasks[t].LaunchMinting? || s.tasks[t].LaunchPublishing?)
    ensures Moves(s, Step(s, t, ok, conflict), t)
  {
    hide Inv;
    TaskFacts(s, t);
  }

  lemma ConfirmingMoves(s: State, t: nat, ok: bool, conflict: bool)
    requires Inv(s) && Enabled(s, t) && s.tasks[t].LaunchConfirming?
    ensures Moves(s, Step(s, t, ok, conflict), t)
  {
    hide Inv;
    TaskFacts(s, t);
  }

  lemma StoringMoves(s: State, t: nat, ok: bool, conflict: bool)
    requires Inv(s) && Enabled(s, t) && s.tasks[t].LaunchStoring?
    ensures Moves(s, Step(s, t, ok, conflict), t)
  {
    hide Inv;
    TaskFacts(s, t);
  }

  lemma DiscardingMoves(s: State, t: nat, ok: bool, conflict: bool)
    requires Inv(s) && Enabled(s, t) && s.tasks[t].LaunchDiscarding?
    ensures Moves(s, Step(s, t, ok, conflict), t)
  {
    hide Inv;
    TaskFacts(s, t);
  }

  lemma TakingMoves(s: State, t: nat, ok: bool, conflict: bool)
    requires Inv(s) && Enabled(s, t) && s.tasks[t].StopTaking?
    ensures Moves(s, Step(s, t, ok, conflict), t)
  {
    hide Inv;
    TaskFacts(s, t);
  }

  lemma StopClosingMoves(s: State, t: nat, ok: bool, conflict: bool)
    requires Inv(s) && Enabled(s, t) && s.tasks[t].StopClosing?
    ensures Moves(s, Step(s, t, ok, conflict), t)
  {
    hide Inv;
    TaskFacts(s, t);
  }

  lemma StatusMoves(s: State, t: nat, ok: bool, conflict: bool)
    requires Inv(s) && Enabled(s, t) && (s.tasks[t].StatusWaiting? || s.tasks[t].StatusClosing?)
    ensures Moves(s, Step(s, t, ok, conflict), t)
  {
    hide Inv;
    TaskFacts(s, t);
  }

  lemma NextKeepsInv(s: State, ev: Event)
    requires Inv(s)
    ensures Inv(Next(s, ev))
  {
    hide Inv, Step;
    match ev
    case BeginLaunch => BeginKeeps(s, LaunchWaiting(s.generation), s.generation);
    case BeginStop => BeginKeeps(s, StopWaiting(s.generation + 1), s.generation + 1);
    case BeginStatus => BeginKeeps(s, StatusWaiting, s.generation);
    case StopsItself(l) => if l < |s.listeners| && s.listeners[l].health.Running? { StopsItselfKeeps(s, l); }
    case Steps(t, ok, conflict) => if Enabled(s, t) { StepKeepsInv(s, t, ok, conflict); }
  }

  lemma StepMoves(s: State, t: nat, ok: bool, conflict: bool)
    requires Inv(s) && Enabled(s, t)
    ensures Moves(s, Step(s, t, ok, conflict), t)
  {
    hide Inv, Step, Moves;
    match s.tasks[t]
    case LaunchWaiting(_) => WaitingMoves(s, t, ok, conflict);
    case StopWaiting(_) => WaitingMoves(s, t, ok, conflict);
    case LaunchChecking(_) => CheckingMoves(s, t, ok, conflict);
    case LaunchLooking(_, _) => LookingMoves(s, t, ok, conflict);
    case LaunchClosingOld(_, _) => ClosingOldMoves(s, t, ok, conflict);
    case LaunchAdopting(_, _) => AdoptingMoves(s, t, ok, conflict);
    case LaunchStarting(_) => StartingMoves(s, t, ok, conflict);
    case LaunchMinting(_, _) => PublishingMoves(s, t, ok, conflict);
    case LaunchPublishing(_, _) => PublishingMoves(s, t, ok, conflict);
    case LaunchConfirming(_, _) => ConfirmingMoves(s, t, ok, conflict);
    case LaunchStoring(_, _) => StoringMoves(s, t, ok, conflict);
    case LaunchDiscarding(_, _) => DiscardingMoves(s, t, ok, conflict);
    case StopTaking(_) => TakingMoves(s, t, ok, conflict);
    case StopClosing(_, _) => StopClosingMoves(s, t, ok, conflict);
    case StatusWaiting => StatusMoves(s, t, ok, conflict);
    case StatusClosing(_) => StatusMoves(s, t, ok, conflict);
  }

  lemma StepKeepsInv(s: State, t: nat, ok: bool, conflict: bool)
    requires Inv(s) && Enabled(s, t)
    ensures Inv(Step(s, t, ok, conflict))
  {
    hide Inv, Step, Moves, Enabled;
    StepMoves(s, t, ok, conflict);
    MoveKeepsInv(s, Step(s, t, ok, conflict), t);
  }

  // ----- whole runs -----

  ghost predicate IsRun(states: seq<State>, events: seq<Event>) {
    && |states| == |events| + 1 && states[0] == INITIAL
    && (forall i {:trigger events[i]} | 0 <= i < |events| :: states[i + 1] == Next(states[i], events[i]))
  }

  lemma {:induction false} RunKeepsInv(states: seq<State>, events: seq<Event>, i: nat)
    requires IsRun(states, events) && i < |states|
    ensures Inv(states[i])
  {
    hide Inv, Next;
    if i == 0 {
      InitialInv();
    } else {
      RunKeepsInv(states, events, i - 1);
      NextKeepsInv(states[i - 1], events[i - 1]);
    }
  }

  lemma InitialInv()
    ensures Inv(INITIAL)
  {
  }

  /**
   A stop that returned leaves no running listener of a launch begun before it, in that
   state and in every later one. (Tasks are numbered in the order they began.)
   */
  lemma ReturnedStopLeavesNothingRunning(states: seq<State>, events: seq<Event>, i: nat, j: nat, t: nat)
    requires IsRun(states, events) && i <= j < |states|
    requires t < |states[i].tasks| && states[i].tasks[t].StopDone?
    ensures forall l: nat | l < |states[j].listeners| && states[j].listeners[l].health.Running? :: t < states[j].listeners[l].launch
  {
    hide Inv, Next;
    DoneStaysDone(states, events, i, j, t);
    RunKeepsInv(states, events, j);
    FenceOf(states[j], t);
  }

  lemma FenceOf(s: State, t: nat)
    requires Inv(s) && t < |s.tasks| && s.tasks[t].StopDone?
    ensures forall l: nat | l < |s.listeners| && s.listeners[l].health.Running? :: t < s.listeners[l].launch
  {
    hide PassedCheck;
  }

  lemma {:induction false} DoneStaysDone(states: seq<State>, events: seq<Event>, i: nat, j: nat, t: nat)
    requires IsRun(states, events) && i <= j < |states|
    requires t < |states[i].tasks| && Done(states[i].tasks[t])
    ensures t < |states[j].tasks| && states[j].tasks[t] == states[i].tasks[t]
  {
    hide Next, Done;
    if i < j {
      DoneStaysDone(states, events, i, j - 1, t);
      DoneStep(states[j - 1], events[j - 1], t);
    }
  }

  /** A step changes only its own task. */
  lemma StepFrame(s: State, t: nat, ok: bool, conflict: bool)
    requires Enabled(s, t)
    ensures |Step(s, t, ok, conflict).tasks| == |s.tasks|
    ensures forall u: nat | u < |s.tasks| && u != t :: Step(s, t, ok, conflict).tasks[u] == s.tasks[u]
  {
    hide SlotStopped;
  }

  lemma DoneStep(s: State, ev: Event, t: nat)
    requires t < |s.tasks| && Done(s.tasks[t])
    ensures t < |Next(s, ev).tasks| && Next(s, ev).tasks[t] == s.tasks[t]
  {
    hide Step;
    if ev.Steps? && Enabled(s, ev.task) { StepFrame(s, ev.task, ev.ok, ev.conflict); }
  }

  /** Whenever the creation lock is free, every listener a launch started is closed, stopped, or in the slot. */
  lemma FreeCreationMeansNothingLoose(states: seq<State>, events: seq<Event>, i: nat, l: nat)
    requires IsRun(states, events) && i < |states| && states[i].creation.None?
    requires l < |states[i].listeners|
    ensures !states[i].listeners[l].health.Running? || states[i].slot == Some(l)
  {
    hide Next;
    RunKeepsInv(states, events, i);
  }

  /** No listener is disposed twice, and none is ever in two hands: a task disposes what only it holds, still alive. */
  lemma DisposedOnce(states: seq<State>, events: seq<Event>, i: nat, t: nat)
    requires IsRun(states, events) && i < |states| && t < |states[i].tasks| && Owned(states[i].tasks[t]).Some?
    ensures var s := states[i];
            var l := Owned(s.tasks[t]).value;
            && l < |s.listeners| && Alive(s.listeners[l].health) && s.slot != Some(l)
            && (forall u: nat | u < |s.tasks| && u != t :: Owned(s.tasks[u]) != Some(l))
  {
    hide Next, Owned, PassedCheck;
    RunKeepsInv(states, events, i);
    var s := states[i];
    forall u: nat | u < |s.tasks| && u != t
      ensures Owned(s.tasks[u]) != Owned(s.tasks[t])
    {
      if u < t { assert Owned(s.tasks[u]).Some? ==> Owned(s.tasks[u]) != Owned(s.tasks[t]); }
    }
  }

  // ----- the check before the slot is filled -----

  /** How many stops began among the events. */
  function Stops(events: seq<Event>): nat {
    if events == [] then 0 else Stops(events[..|events| - 1]) + if events[|events| - 1].BeginStop? then 1 else 0
  }

  lemma {:induction false} GenerationCountsStops(states: seq<State>, events: seq<Event>, i: nat)
    requires IsRun(states, events) && i < |states|
    ensures states[i].generation == Stops(events[..i])
  {
    if i > 0 {
      hide Step;
      GenerationCountsStops(states, events, i - 1);
      assert events[..i][..i - 1] == events[..i - 1];
      GenerationStep(states[i - 1], events[i - 1]);
    }
  }

  lemma GenerationStep(s: State, ev: Event)
    ensures Next(s, ev).generation == s.generation + if ev.BeginStop? then 1 else 0
  {
  }

  /** A launch confirms its listener only if no stop began since the launch loaded the generation. */
  lemma ConfirmedUnstopped(s: State, t: nat, ok: bool, conflict: bool)
    requires Enabled(s, t) && s.tasks[t].LaunchConfirming?
    ensures Step(s, t, ok, conflict).tasks[t].LaunchStoring? <==> s.tasks[t].gen == s.generation
    ensures Step(s, t, ok, conflict).tasks[t].LaunchStoring? ==> Step(s, t, ok, conflict).listeners == s.listeners
  {
  }

  /** A storing launch confirmed earlier, and the generation it confirmed is the current one unless a stop began since. */
  lemma {:induction false} StoredAfterConfirming(states: seq<State>, events: seq<Event>, j: nat, t: nat) returns (i: nat)
    requires IsRun(states, events) && j < |states| && t < |states[j].tasks| && states[j].tasks[t].LaunchStoring?
    ensures i < j && events[i].Steps? && events[i].task == t
    ensures t < |states[i].tasks| && states[i].tasks[t] == LaunchConfirming(states[j].tasks[t].gen, states[j].tasks[t].listener)
    ensures states[i].generation == states[j].tasks[t].gen
    ensures states[j].generation == states[j].tasks[t].gen <==> Stops(events[..i]) == Stops(events[..j])
  {
    hide Stops;
    i := ConfirmedBefore(states, events, j, t);
    GenerationCountsStops(states, events, i);
    GenerationCountsStops(states, events, j);
  }

  lemma {:induction false} ConfirmedBefore(states: seq<State>, events: seq<Event>, j: nat, t: nat) returns (i: nat)
    requires IsRun(states, events) && j < |states| && t < |states[j].tasks| && states[j].tasks[t].LaunchStoring?
    ensures i < j && events[i].Steps? && events[i].task == t
    ensures t < |states[i].tasks| && states[i].tasks[t] == LaunchConfirming(states[j].tasks[t].gen, states[j].tasks[t].listener)
    ensures states[i].generation == states[j].tasks[t].gen
  {
    hide Step;
    assert j > 0;
    StoringComesFrom(states[j - 1], events[j - 1], t);
    if t < |states[j - 1].tasks| && states[j - 1].tasks[t].LaunchStoring? {
      i := ConfirmedBefore(states, events, j - 1, t);
    } else {
      i := j - 1;
    }
  }

  lemma StoringComesFrom(s: State, ev: Event, t: nat)
    requires t < |Next(s, ev).tasks| && Next(s, ev).tasks[t].LaunchStoring?
    ensures t < |s.tasks|
    ensures s.tasks[t] == Next(s, ev).tasks[t] ||
            (&& ev.Steps? && ev.task == t && s.tasks[t] == LaunchConfirming(Next(s, ev).tasks[t].gen, Next(s, ev).tasks[t].listener)
             && s.generation == s.tasks[t].gen)
  {
    hide Step;
    if ev.Steps? && Enabled(s, ev.task) {
      StepFrame(s, ev.task, ev.ok, ev.conflict);
      if ev.task == t { StepToStoring(s, t, ev.ok, ev.conflict); }
    }
  }

  lemma StepToStoring(s: State, t: nat, ok: bool, conflict: bool)
    requires Enabled(s, t) && t < |Step(s, t, ok, conflict).tasks| && Step(s, t, ok, conflict).tasks[t].LaunchStoring?
    ensures s.tasks[t].LaunchConfirming? && s.generation == s.tasks[t].gen
    ensures Step(s, t, ok, conflict).tasks[t] == LaunchStoring(s.tasks[t].gen, s.tasks[t].listener)
  {
    hide SlotStopped;
  }

  /** The fence is not atomic with filling the slot: a stop may begin in between, and then closes the listener itself. */
  lemma SlotFilledAfterStopBegan() returns (states: seq<State>, events: seq<Event>)
    ensures IsRun(states, events)
    ensures var s := states[|events|];
            s.slot == Some(0) && s.generation == 1 && s.tasks == [LaunchDone(0, Some(0)), StopWaiting(1)]
  {
    var step := Steps(0, true, false);
    var s5 := FirstSteps();
    var s8 := LaterSteps(s5[5]);
    var s9 := s8[3].(generation := 1, tasks := [LaunchStoring(0, 0), StopWaiting(1)]);
    assert Next(s8[3], BeginStop) == s9;
    var s10 := State(1, None, None, Some(0), s9.listeners, [LaunchDone(0, Some(0)), StopWaiting(1)]);
    assert Next(s9, step) == s10;
    states := s5 + s8[1..] + [s9, s10];
    events := [BeginLaunch, step, step, step, step] + [step, step, step] + [BeginStop, step];
    forall i | 0 <= i < |events|
      ensures states[i + 1] == Next(states[i], events[i])
    {
      hide Next;
      if i < 5 { assert states[i] == s5[i] && states[i + 1] == s5[i + 1]; }
      else if i < 8 { assert states[i] == s8[i - 5] && states[i + 1] == s8[i - 4]; }
    }
  }

  lemma FirstSteps() returns (states: seq<State>)
    ensures |states| == 6 && states[0] == INITIAL && states[1] == Next(INITIAL, BeginLaunch)
    ensures forall i | 1 <= i < 5 :: states[i + 1] == Next(states[i], Steps(0, true, false))
    ensures states[5] == State(0, Some(0), None, None, [Listener(Running, 0)], [LaunchMinting(0, 0)])
  {
    var step := Steps(0, true, false);
    var s1 := INITIAL.(tasks := [LaunchWaiting(0)]);
    var a := State(0, Some(0), None, None, [], []);
    var s2, s3, s4 := a.(tasks := [LaunchChecking(0)]), a.(tasks := [LaunchLooking(0, false)]), a.(tasks := [LaunchStarting(0)]);
    var s5 := a.(listeners := [Listener(Running, 0)], tasks := [LaunchMinting(0, 0)]);
    assert Next(INITIAL, BeginLaunch) == s1;
    assert Next(s1, step) == s2;
    assert Next(s2, step) == s3;
    assert Next(s3, step) == s4;
    assert Next(s4, step) == s5;
    states := [INITIAL, s1, s2, s3, s4, s5];
  }

  lemma LaterSteps(s: State) returns (states: seq<State>)
    requires s == State(0, Some(0), None, None, [Listener(Running, 0)], [LaunchMinting(0, 0)])
    ensures |states| == 4 && states[0] == s
    ensures forall i | 0 <= i < 3 :: states[i + 1] == Next(states[i], Steps(0, true, false))
    ensures states[3] == s.(browser := Some(0), tasks := [LaunchStoring(0, 0)])
  {
    var step := Steps(0, true, false);
    var s1 := s.(tasks := [LaunchPublishing(0, 0)]);
    var s2 := s.(browser := Some(0), tasks := [LaunchConfirming(0, 0)]);
    var s3 := s.(browser := Some(0), tasks := [LaunchStoring(0, 0)]);
    assert Next(s, step) == s1;
    assert Next(s1, step) == s2;
    assert Next(s2, step) == s3;
    states := [s, s1, s2, s3];
  }

  // ----- progress -----

  /** Some task can always take a step until all have returned: the two locks never deadlock. */
  lemma NeverStuck(states: seq<State>, events: seq<Event>, i: nat, t: nat)
    requires IsRun(states, events) && i < |states| && t < |states[i].tasks| && !Done(states[i].tasks[t])
    ensures exists u: nat :: Enabled(states[i], u)
  {
    hide Next;
    RunKeepsInv(states, events, i);
    var s := states[i];
    if s.browser.Some? {
      assert Enabled(s, s.browser.value);
    } else if s.creation.Some? {
      assert Enabled(s, s.creation.value);
    } else {
      assert Enabled(s, t);
    }
  }

  // ----- the manager as the program runs it -----

  class Manager {
    var generation: nat
    var creation: Option<nat>
    var browser: Option<nat>
    var slot: Option<nat>
    var listeners: seq<Listener>
    var tasks: seq<Task>

    function View(): State
      reads this
    {
      State(generation, creation, browser, slot, listeners, tasks)
    }

    constructor ()
      ensures View() == INITIAL
    {
      generation, creation, browser, slot, listeners, tasks := 0, None, None, None, [], [];
    }

    method Launch() returns (t: nat)
      modifies this
      ensures View() == Next(old(View()), BeginLaunch) && t == |old(tasks)|
    {
      t := |tasks|;
      tasks := tasks + [LaunchWaiting(generation)];
    }

    method Stop() returns (t: nat)
      modifies this
      ensures View() == Next(old(View()), BeginStop) && t == |old(tasks)|
    {
      generation := generation + 1;
      t := |tasks|;
      tasks := tasks + [StopWaiting(generation)];
    }

    method Status() returns (t: nat)
      modifies this
      ensures View() == Next(old(View()), BeginStatus) && t == |old(tasks)|
    {
      t := |tasks|;
      tasks := tasks + [StatusWaiting];
    }

    method Become(t: nat, task: Task)
      requires t < |tasks|
      modifies this
      ensures View() == To(old(View()), t, task)
    {
      tasks := tasks[t := task];
    }

    method DisposeListener(l: nat, clean: bool)
      modifies this
      ensures View() == Dispose(old(View()), l, clean)
    {
      if l < |listeners| { listeners := listeners[l := listeners[l].(health := if clean then Closed else Unclean)]; }
    }

    method ReturnLaunch(t: nat, gen: nat, ready: Option<nat>)
      requires t < |tasks|
      modifies this
      ensures View() == Return(old(View()), t, gen, ready)
    {
      tasks := tasks[t := LaunchDone(gen, ready)];
      creation := None;
      if browser == Some(t) { browser := None; }
    }

    method LookAtSlot(t: nat, gen: nat, again: bool, conflict: bool)
      requires t < |tasks|
      modifies this
      ensures View() == Look(old(View()), t, gen, again, conflict)
    {
      hide Return;
      if !again && SlotStopped(View()) {
        Become(t, LaunchClosingOld(gen, slot.value));
        slot := None;
      } else if slot.None? {
        Become(t, LaunchStarting(gen));
      } else if conflict {
        ReturnLaunch(t, gen, None);
      } else {
        Become(t, LaunchAdopting(gen, slot.value));
        browser := Some(t);
      }
    }

    /** A launch goes on until its next wait. */
    method ContinueLaunch(t: nat, ok: bool, conflict: bool)
      requires Enabled(View(), t) && !IsStop(tasks[t]) && Generation(tasks[t]).Some?
      modifies this
      ensures View() == Step(old(View()), t, ok, conflict)
    {
      hide Return, Look, Dispose, SlotStopped;
      match tasks[t]
      case LaunchWaiting(gen) =>
        creation := Some(t);
        Become(t, LaunchChecking(gen));
      case LaunchChecking(gen) =>
        if gen != generation { ReturnLaunch(t, gen, None); } else { Become(t, LaunchLooking(gen, false)); }
      case LaunchLooking(gen, again) => LookAtSlot(t, gen, again, conflict);
      case LaunchClosingOld(gen, l) =>
        DisposeKeepsTasks(View(), l, ok);
        DisposeListener(l, ok);
        if ok { Become(t, LaunchLooking(gen, true)); } else { ReturnLaunch(t, gen, None); }
      case LaunchAdopting(gen, l) =>
        var ready := if ok && gen == generation then Some(l) else None;
        ReturnLaunch(t, gen, ready);
      case LaunchStarting(gen) =>
        if !ok { ReturnLaunch(t, gen, None); return; }
        Become(t, LaunchMinting(gen, |listeners|));
        listeners := listeners + [Listener(Running, t)];
      case LaunchMinting(gen, l) => if ok { Become(t, LaunchPublishing(gen, l)); } else { Become(t, LaunchDiscarding(gen, l)); }
      case LaunchPublishing(gen, l) =>
        browser := Some(t);
        Become(t, LaunchConfirming(gen, l));
      case LaunchConfirming(gen, l) =>
        if gen != generation {
          browser := None;
          Become(t, LaunchDiscarding(gen, l));
        } else {
          Become(t, LaunchStoring(gen, l));
        }
      case LaunchStoring(gen, l) =>
        slot := Some(l);
        ReturnLaunch(t, gen, Some(l));
      case LaunchDiscarding(gen, l) =>
        DisposeKeepsTasks(View(), l, ok);
        DisposeListener(l, ok);
        ReturnLaunch(t, gen, None);
    }

    /** A stop goes on until its next wait. */
    method ContinueStop(t: nat, ok: bool)
      requires Enabled(View(), t) && IsStop(tasks[t])
      modifies this
      ensures View() == Step(old(View()), t, ok, false)
    {
      hide Dispose;
      match tasks[t]
      case StopWaiting(gen) =>
        creation := Some(t);
        Become(t, StopTaking(gen));
      case StopTaking(gen) =>
        if slot.Some? {
          Become(t, StopClosing(gen, slot.value));
          slot := None;
        } else {
          Become(t, StopDone(gen, true));
          creation := None;
        }
      case StopClosing(gen, l) =>
        DisposeKeepsTasks(View(), l, ok);
        DisposeListener(l, ok);
        Become(t, StopDone(gen, ok));
        creation := None;
    }

    /** A status request goes on until its next wait. */
    method ContinueStatus(t: nat, ok: bool)
      requires Enabled(View(), t) && Generation(tasks[t]).None?
      modifies this
      ensures View() == Step(old(View()), t, ok, false)
    {
      hide Dispose, SlotStopped;
      match tasks[t]
      case StatusWaiting =>
        if SlotStopped(View()) {
          StoppedIsSome(View());
          Become(t, StatusClosing(slot.value));
          slot := None;
        } else {
          Become(t, StatusDone);
        }
      case StatusClosing(l) =>
        DisposeKeepsTasks(View(), l, ok);
        DisposeListener(l, ok);
        Become(t, StatusDone);
    }
  }

  lemma DisposeKeepsTasks(s: State, l: nat, clean: bool)
    ensures Dispose(s, l, clean) == s.(listeners := Dispose(s, l, clean).listeners)
  {
  }

  lemma StoppedIsSome(s: State)
    ensures SlotStopped(s) ==> s.slot.Some?
  {
  }
}
