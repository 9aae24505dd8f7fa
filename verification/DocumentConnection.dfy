/**
 One document connection: admission of calls by lane, a queue of resource openings that
 leaves the last ordinary slot alone, and phases of which two are final. A call counts as
 settled when it leaves the table of pending calls.
 */
module DocumentConnection {
  import opened Wrappers

  datatype Lane = Ordinary | TerminalRead | TerminalWrite | Lifecycle | ExportControl

  function Limit(lane: Lane): nat {
    match lane
    case Ordinary => 8
    case TerminalRead => 32
    case TerminalWrite => 8
    case Lifecycle => 1
    case ExportControl => 8
  }

  datatype Phase = Opening | Ready | Draining | Failed | Closed

  /** A pending call; `waiter` is the queued resource opening it was made for. */
  datatype Call = Call(id: nat, lane: Lane, waiter: Option<nat>)

  datatype Settled = CallSettled(id: nat) | WaiterSettled(waiter: nat)

  datatype InFlight = InFlight(ordinary: int, terminalRead: int, terminalWrite: int, lifecycle: int, exportControl: int)

  /** What a disconnect is waiting for. */
  datatype Task = NoTask | Authenticating | Flushing | ClosingMounts | AwaitingReceipt(id: nat) | ClosingTransport | Finished

  /** `unposted` are the calls whose message the transport refuses to take. */
  datatype State = State(
    phase: Phase, current: bool, unposted: set<nat>, pending: seq<Call>, inFlight: InFlight, nextId: nat,
    waiters: seq<nat>, nextWaiter: nat, log: seq<Settled>, task: Task)

  ghost predicate Initial(s: State) {
    s == State(Opening, true, s.unposted, [], InFlight(0, 0, 0, 0, 0), 0, [], 0, [], NoTask)
  }

  predicate Closing(s: State) {
    !s.phase.Opening? && !s.phase.Ready?
  }

  predicate Final(phase: Phase) {
    phase.Failed? || phase.Closed?
  }

  function Of(n: InFlight, lane: Lane): int {
    match lane
    case Ordinary => n.ordinary
    case TerminalRead => n.terminalRead
    case TerminalWrite => n.terminalWrite
    case Lifecycle => n.lifecycle
    case ExportControl => n.exportControl
  }

  function Plus(n: InFlight, lane: Lane, d: int): InFlight {
    match lane
    case Ordinary => n.(ordinary := n.ordinary + d)
    case TerminalRead => n.(terminalRead := n.terminalRead + d)
    case TerminalWrite => n.(terminalWrite := n.terminalWrite + d)
    case Lifecycle => n.(lifecycle := n.lifecycle + d)
    case ExportControl => n.(exportControl := n.exportControl + d)
  }

  function IndexOf(pending: seq<Call>, id: nat): (i: nat)
    ensures i <= |pending| && (i < |pending| ==> pending[i].id == id)
    ensures forall k | 0 <= k < i :: pending[k].id != id
  {
    if pending == [] || pending[0].id == id then 0 else 1 + IndexOf(pending[1..], id)
  }

  function Settlement(c: Call): seq<Settled> {
    [CallSettled(c.id)] + if c.waiter.Some? then [WaiterSettled(c.waiter.value)] else []
  }

  function Rejected(waiters: seq<nat>): seq<Settled> {
    seq(|waiters|, i requires 0 <= i < |waiters| => WaiterSettled(waiters[i]))
  }

  // ----- calls -----

  predicate Admits(s: State, lane: Lane, disconnect: bool) {
    && (!Closing(s) || (s.phase.Draining? && disconnect)) && s.current
    && Of(s.inFlight, lane) < Limit(lane)
  }

  /** Enters a call in the table before its message is posted. */
  function Enter(s: State, lane: Lane, waiter: Option<nat>): State {
    s.(pending := s.pending + [Call(s.nextId + 1, lane, waiter)], inFlight := Plus(s.inFlight, lane, 1), nextId := s.nextId + 1)
  }

  function Request(s: State, lane: Lane, disconnect: bool, waiter: Option<nat>): (r: State)
    ensures |r.waiters| <= |s.waiters| && r.phase == s.phase && r.current == s.current
    decreases |s.waiters|, 2
  {
    if !Admits(s, lane, disconnect) then
      if waiter.Some? then s.(log := s.log + [WaiterSettled(waiter.value)]) else s
    else if s.nextId + 1 in s.unposted then Take(Enter(s, lane, waiter), s.nextId + 1)
    else Enter(s, lane, waiter)
  }

  function Leave(s: State, i: nat): State
    requires i < |s.pending|
  {
    s.(pending := s.pending[..i] + s.pending[i + 1..], inFlight := Plus(s.inFlight, s.pending[i].lane, -1),
       log := s.log + Settlement(s.pending[i]))
  }

  function Take(s: State, id: nat): (r: State)
    ensures |r.waiters| <= |s.waiters| && r.phase == s.phase && r.current == s.current
    ensures Closing(s) && IndexOf(s.pending, id) < |s.pending| ==> |r.pending| < |s.pending|
    decreases |s.waiters|, 1
  {
    var i := IndexOf(s.pending, id);
    if i == |s.pending| then s
    else if s.pending[i].lane.Ordinary? then Pump(Leave(s, i))
    else Leave(s, i)
  }

  /** Starts queued resource openings, but never into the last ordinary slot. */
  function Pump(s: State): (r: State)
    ensures |r.waiters| <= |s.waiters| && r.phase == s.phase && r.current == s.current
    ensures Closing(s) ==> r.pending == s.pending
    decreases |s.waiters|, 0
  {
    if Closing(s) || !s.current then s.(waiters := [], log := s.log + Rejected(s.waiters))
    else if s.waiters != [] && s.inFlight.ordinary < Limit(Ordinary) - 1 then
      Pump(Request(s.(waiters := s.waiters[1..]), Ordinary, false, Some(s.waiters[0])))
    else s
  }

  function OpenResource(s: State): State {
    Pump(s.(waiters := s.waiters + [s.nextWaiter], nextWaiter := s.nextWaiter + 1))
  }

  function RejectPending(s: State): (r: State)
    requires Closing(s)
    ensures r.phase == s.phase && r.current == s.current
    decreases |s.pending|
  {
    if s.pending == [] then s else RejectPending(Take(s, s.pending[0].id))
  }

  // ----- phases -----

  function Enters(s: State, phase: Phase): State
    requires Final(phase)
  {
    RejectPending(Pump(s.(phase := phase)))
  }

  function Fail(s: State): State {
    if Final(s.phase) then s else Enters(s, Failed)
  }

  function Retire(s: State): State {
    if Final(s.phase) then s else Enters(s, Closed)
  }

  /** Authentication finished and the drafts are open. */
  function Authenticated(s: State): State {
    if Closing(s) || !s.current then s else s.(phase := Ready)
  }

  function Drain(s: State): State {
    Pump(s.(phase := Draining, task := Flushing))
  }

  function Disconnect(s: State): State {
    if !s.task.NoTask? || Closing(s) || !s.current then s
    else if s.phase.Opening? then s.(task := Authenticating)
    else Drain(s)
  }

  /** What a disconnect checks after every wait while draining. */
  function Continue(s: State, next: State): State {
    if !s.phase.Draining? then s.(task := Finished)
    else if !s.current then Retire(s).(task := Finished)
    else next
  }

  /** The wait of a running disconnect ends, well or badly. */
  function Resume(s: State, ok: bool): State {
    match s.task
    case Authenticating =>
      if !ok then Fail(s).(task := Finished)
      else if !s.current then Retire(s).(task := Finished)
      else if !s.phase.Ready? then s.(task := Finished)
      else Drain(s)
    case Flushing => Continue(s, if ok then s.(task := ClosingMounts) else s.(phase := Ready, task := NoTask))
    case ClosingMounts =>
      if !ok then Fail(s).(task := Finished)
      else Continue(s, AskReceipt(s))
    case AwaitingReceipt(_) =>
      if !ok then Fail(s).(task := Finished) else Continue(s, s.(task := ClosingTransport))
    case ClosingTransport =>
      if !ok then Fail(s).(task := Finished) else Continue(s, Enters(s, Closed).(task := Finished))
    case _ => s
  }

  /** Asks for the disconnect receipt; a call that is not admitted or not posted fails the connection. */
  function AskReceipt(s: State): State {
    var asked := Request(s, Lifecycle, true, None);
    if Admits(s, Lifecycle, true) && s.nextId + 1 !in s.unposted
    then asked.(task := AwaitingReceipt(s.nextId + 1))
    else Fail(asked).(task := Finished)
  }

  datatype Event =
    | Requests(lane: Lane)
    | OpensResource
    | Replies(id: nat)
    | Fails
    | Retires
    | Authenticates
    | Disconnects
    | Resumes(ok: bool)
    | Replaced

  function Next(s: State, ev: Event): State {
    match ev
    case Requests(lane) => Request(s, lane, false, None)
    case OpensResource => OpenResource(s)
    case Replies(id) => Take(s, id)
    case Fails => Fail(s)
    case Retires => Retire(s)
    case Authenticates => Authenticated(s)
    case Disconnects => Disconnect(s)
    case Resumes(ok) => Resume(s, ok)
    case Replaced => s.(current := false)
  }

  // ----- the invariant -----

  datatype Key = InLane(lane: Lane) | WithId(id: nat) | ForWaiter(waiter: nat)

  predicate Matches(c: Call, key: Key) {
    match key
    case InLane(lane) => c.lane == lane
    case WithId(id) => c.id == id
    case ForWaiter(waiter) => c.waiter == Some(waiter)
  }

  function Count(pending: seq<Call>, key: Key): nat {
    if pending == [] then 0 else (if Matches(pending[0], key) then 1 else 0) + Count(pending[1..], key)
  }

  /** Each lane counter is the number of pending calls of the lane, and within its limit. */
  ghost predicate LanesOk(s: State) {
    forall lane: Lane :: Of(s.inFlight, lane) == Count(s.pending, InLane(lane)) <= Limit(lane)
  }

  /** Every call ever entered is pending, or settled once; no other call was settled. */
  ghost predicate CallsConserved(s: State) {
    forall id: nat :: Count(s.pending, WithId(id)) + multiset(s.log)[CallSettled(id)] == One(1 <= id <= s.nextId)
  }

  function One(b: bool): nat {
    if b then 1 else 0
  }

  /** Every queued opening is waiting, or carried by one pending call, or settled once; `moving` left the queue just now. */
  ghost predicate WaitersConserved(s: State, moving: Option<nat>) {
    forall w: nat ::
      multiset(s.waiters)[w] + Count(s.pending, ForWaiter(w)) + multiset(s.log)[WaiterSettled(w)] + One(moving == Some(w)) == One(w < s.nextWaiter)
  }

  ghost predicate Core(s: State, moving: Option<nat>) {
    LanesOk(s) && CallsConserved(s) && WaitersConserved(s, moving)
  }

  /** Openings wait only while every slot they may use is taken. */
  predicate Busy(s: State) {
    !Closing(s) && s.current && s.waiters != [] ==> s.inFlight.ordinary >= Limit(Ordinary) - 1
  }

  predicate Emptied(s: State) {
    (Closing(s) ==> s.waiters == []) && (Final(s.phase) ==> s.pending == [])
  }

  ghost predicate Inv(s: State) {
    Core(s, None) && Busy(s) && Emptied(s)
  }

  // ----- calls keep the invariant -----

  lemma {:induction false} CountConcat(a: seq<Call>, b: seq<Call>, key: Key)
    ensures Count(a + b, key) == Count(a, key) + Count(b, key)
  {
    if a == [] {
      assert a + b == b;
    } else {
      assert (a + b)[1..] == a[1..] + b;
      CountConcat(a[1..], b, key);
    }
  }

  lemma CountOne(c: Call, key: Key)
    ensures Count([c], key) == One(Matches(c, key))
  {
    assert [c][1..] == [];
  }

  lemma CountWithout(pending: seq<Call>, i: nat, key: Key)
    requires i < |pending|
    ensures Count(pending, key) == Count(pending[..i] + pending[i + 1..], key) + One(Matches(pending[i], key))
  {
    assert pending == pending[..i] + ([pending[i]] + pending[i + 1..]);
    CountConcat(pending[..i], [pending[i]] + pending[i + 1..], key);
    CountConcat([pending[i]], pending[i + 1..], key);
    CountConcat(pending[..i], pending[i + 1..], key);
    CountOne(pending[i], key);
  }

  lemma EnterKeeps(s: State, lane: Lane, waiter: Option<nat>)
    requires Core(s, waiter) && Of(s.inFlight, lane) < Limit(lane)
    ensures Core(Enter(s, lane, waiter), None)
  {
    hide Count;
    var c := Call(s.nextId + 1, lane, waiter);
    forall key: Key
      ensures Count(s.pending + [c], key) == Count(s.pending, key) + One(Matches(c, key))
    {
      CountConcat(s.pending, [c], key);
      CountOne(c, key);
    }
  }

  lemma SettlementCounts(c: Call)
    ensures forall id: nat :: multiset(Settlement(c))[CallSettled(id)] == One(c.id == id)
    ensures forall w: nat :: multiset(Settlement(c))[WaiterSettled(w)] == One(c.waiter == Some(w))
  {
  }

  lemma LeaveKeeps(s: State, i: nat)
    requires Core(s, None) && i < |s.pending|
    ensures Core(Leave(s, i), None)
  {
    hide Count, Settlement;
    var c := s.pending[i];
    forall key: Key
      ensures Count(s.pending, key) == Count(Leave(s, i).pending, key) + One(Matches(c, key))
    {
      CountWithout(s.pending, i, key);
    }
    SettlementCounts(c);
    assert multiset(s.log + Settlement(c)) == multiset(s.log) + multiset(Settlement(c));
  }

  lemma {:induction false} RejectedCounts(waiters: seq<nat>)
    ensures forall id: nat :: multiset(Rejected(waiters))[CallSettled(id)] == 0
    ensures forall w: nat :: multiset(Rejected(waiters))[WaiterSettled(w)] == multiset(waiters)[w]
  {
    if waiters != [] {
      var rest := waiters[1..];
      RejectedCounts(rest);
      assert waiters == [waiters[0]] + rest;
      assert Rejected(waiters) == [WaiterSettled(waiters[0])] + Rejected(rest);
    }
  }

  lemma RejectAllKeeps(s: State)
    requires Core(s, None)
    ensures Core(s.(waiters := [], log := s.log + Rejected(s.waiters)), None)
  {
    hide Count, Rejected;
    RejectedCounts(s.waiters);
    assert multiset(s.log + Rejected(s.waiters)) == multiset(s.log) + multiset(Rejected(s.waiters));
  }

  lemma RefuseKeeps(s: State, w: nat)
    requires Core(s, Some(w))
    ensures Core(s.(log := s.log + [WaiterSettled(w)]), None)
  {
    hide Count;
    assert multiset(s.log + [WaiterSettled(w)]) == multiset(s.log) + multiset{WaiterSettled(w)};
  }

  lemma ShiftKeeps(s: State)
    requires Core(s, None) && s.waiters != []
    ensures Core(s.(waiters := s.waiters[1..]), Some(s.waiters[0]))
  {
    hide Count;
    var rest := s.waiters[1..];
    assert s.waiters == [s.waiters[0]] + rest;
    assert multiset(s.waiters) == multiset{s.waiters[0]} + multiset(rest);
  }

  lemma {:induction false} RequestKeeps(s: State, lane: Lane, disconnect: bool, waiter: Option<nat>)
    requires Core(s, waiter)
    ensures Core(Request(s, lane, disconnect, waiter), None)
    decreases |s.waiters|, 2
  {
    hide Core, Enter;
    if !Admits(s, lane, disconnect) {
      if waiter.Some? { RefuseKeeps(s, waiter.value); }
    } else {
      EnterKeeps(s, lane, waiter);
      EnterFrame(s, lane, waiter);
      if s.nextId + 1 in s.unposted { TakeKeeps(Enter(s, lane, waiter), s.nextId + 1); }
    }
  }

  lemma EnterFrame(s: State, lane: Lane, waiter: Option<nat>)
    ensures Enter(s, lane, waiter).waiters == s.waiters
  {
  }

  lemma {:induction false} TakeKeeps(s: State, id: nat)
    requires Core(s, None)
    ensures Core(Take(s, id), None)
    ensures IndexOf(s.pending, id) < |s.pending| && s.pending[IndexOf(s.pending, id)].lane.Ordinary? ==> Busy(Take(s, id))
    ensures Busy(s) ==> Busy(Take(s, id))
    decreases |s.waiters|, 1
  {
    hide Core;
    var i := IndexOf(s.pending, id);
    if i < |s.pending| {
      LeaveKeeps(s, i);
      if s.pending[i].lane.Ordinary? { PumpKeeps(Leave(s, i)); }
    }
  }

  lemma {:induction false} PumpKeeps(s: State)
    requires Core(s, None)
    ensures Core(Pump(s), None) && Busy(Pump(s))
    ensures Closing(s) || !s.current ==> Pump(s).waiters == []
    decreases |s.waiters|, 0
  {
    hide Core;
    if Closing(s) || !s.current {
      RejectAllKeeps(s);
    } else if s.waiters != [] && s.inFlight.ordinary < Limit(Ordinary) - 1 {
      ShiftKeeps(s);
      var shifted := s.(waiters := s.waiters[1..]);
      RequestKeeps(shifted, Ordinary, false, Some(s.waiters[0]));
      PumpKeeps(Request(shifted, Ordinary, false, Some(s.waiters[0])));
    }
  }

  // ----- every step keeps the invariant -----

  lemma {:induction false} RejectPendingKeeps(s: State)
    requires Closing(s) && Core(s, None)
    ensures Core(RejectPending(s), None) && RejectPending(s).pending == []
    ensures s.waiters == [] ==> RejectPending(s).waiters == []
    decreases |s.pending|
  {
    hide Core;
    if s.pending != [] {
      TakeKeeps(s, s.pending[0].id);
      RejectPendingKeeps(Take(s, s.pending[0].id));
    }
  }

  lemma EntersKeeps(s: State, phase: Phase)
    requires Core(s, None) && Final(phase)
    ensures Inv(Enters(s, phase)) && Enters(s, phase).phase == phase
  {
    hide Core, Pump, RejectPending;
    var t := s.(phase := phase);
    CoreFrame(s, t, None);
    PumpKeeps(t);
    RejectPendingKeeps(Pump(t));
  }

  lemma CoreFrame(s: State, t: State, moving: Option<nat>)
    requires Core(s, moving)
    requires s.(phase := t.phase, current := t.current, task := t.task) == t
    ensures Core(t, moving)
  {
  }

  lemma TaskKeeps(s: State, task: Task)
    requires Inv(s)
    ensures Inv(s.(task := task))
  {
    hide Core;
    CoreFrame(s, s.(task := task), None);
  }

  lemma RequestKeepsInv(s: State, lane: Lane, disconnect: bool)
    requires Inv(s)
    ensures Inv(Request(s, lane, disconnect, None))
  {
    hide Core, Take;
    RequestKeeps(s, lane, disconnect, None);
    if Admits(s, lane, disconnect) {
      EnterKeeps(s, lane, None);
      if s.nextId + 1 in s.unposted {
        var t := Enter(s, lane, None);
        IndexOfLast(s.pending, Call(s.nextId + 1, lane, None));
        assert Busy(t) by { EnterBusy(s, lane); }
        TakeKeeps(t, s.nextId + 1);
        TakeWaiters(t, s.nextId + 1);
      }
    }
  }

  lemma EnterBusy(s: State, lane: Lane)
    requires Busy(s)
    ensures Busy(Enter(s, lane, None))
  {
  }

  lemma IndexOfLast(pending: seq<Call>, c: Call)
    ensures IndexOf(pending + [c], c.id) < |pending + [c]|
  {
    assert (pending + [c])[|pending|].id == c.id;
  }

  lemma TakeWaiters(s: State, id: nat)
    ensures s.waiters == [] ==> Take(s, id).waiters == []
  {
  }

  lemma TakeKeepsInv(s: State, id: nat)
    requires Inv(s)
    ensures Inv(Take(s, id))
  {
    hide Core, Pump;
    TakeKeeps(s, id);
    TakeWaiters(s, id);
  }

  lemma OpenKeepsInv(s: State)
    requires Inv(s)
    ensures Inv(OpenResource(s))
  {
    hide Core, Pump;
    var t := s.(waiters := s.waiters + [s.nextWaiter], nextWaiter := s.nextWaiter + 1);
    QueueKeeps(s);
    PumpKeeps(t);
  }

  lemma QueueKeeps(s: State)
    requires Core(s, None)
    ensures Core(s.(waiters := s.waiters + [s.nextWaiter], nextWaiter := s.nextWaiter + 1), None)
  {
    hide Count;
    assert multiset(s.waiters + [s.nextWaiter]) == multiset(s.waiters) + multiset{s.nextWaiter};
  }

  lemma DrainKeepsInv(s: State)
    requires Inv(s) && !Closing(s)
    ensures Inv(Drain(s))
  {
    hide Core, Pump;
    var t := s.(phase := Draining, task := Flushing);
    CoreFrame(s, t, None);
    PumpKeeps(t);
  }

  lemma FailKeepsInv(s: State)
    requires Core(s, None) && (Final(s.phase) ==> Inv(s))
    ensures Inv(Fail(s)) && Inv(Retire(s))
  {
    hide Inv, Core, Enters;
    if !Final(s.phase) {
      EntersKeeps(s, Failed);
      EntersKeeps(s, Closed);
    }
  }

  lemma InvCore(s: State)
    requires Inv(s)
    ensures Core(s, None)
  {
  }

  lemma AskKeepsInv(s: State)
    requires Inv(s)
    ensures Inv(AskReceipt(s))
  {
    hide Inv, Core, Request, Fail;
    RequestKeepsInv(s, Lifecycle, true);
    var asked := Request(s, Lifecycle, true, None);
    InvCore(asked);
    FailKeepsInv(asked);
    TaskKeeps(asked, AwaitingReceipt(s.nextId + 1));
    TaskKeeps(Fail(asked), Finished);
  }

  /** The checks after a wait keep the invariant if what follows them does. */
  lemma ContinueKeepsInv(s: State, next: State)
    requires Inv(s) && (s.phase.Draining? && s.current ==> Inv(next))
    ensures Inv(Continue(s, next))
  {
    hide Inv, Core, Enters, Retire;
    InvCore(s);
    TaskKeeps(s, Finished);
    FailKeepsInv(s);
    TaskKeeps(Retire(s), Finished);
  }

  lemma ReadyAgainKeepsInv(s: State)
    requires Inv(s) && s.phase.Draining?
    ensures Inv(s.(phase := Ready, task := NoTask))
  {
    hide Core;
    CoreFrame(s, s.(phase := Ready, task := NoTask), None);
  }

  lemma ResumeKeepsInv(s: State, ok: bool)
    requires Inv(s)
    ensures Inv(Resume(s, ok))
  {
    hide Inv, Core, Enters, Retire, Fail, Drain, Continue, AskReceipt;
    InvCore(s);
    FailKeepsInv(s);
    TaskKeeps(Fail(s), Finished);
    TaskKeeps(Retire(s), Finished);
    TaskKeeps(s, Finished);
    match s.task
    case Authenticating => if s.phase.Ready? { DrainKeepsInv(s); }
    case Flushing =>
      TaskKeeps(s, ClosingMounts);
      if s.phase.Draining? { ReadyAgainKeepsInv(s); }
      ContinueKeepsInv(s, if ok then s.(task := ClosingMounts) else s.(phase := Ready, task := NoTask));
    case ClosingMounts =>
      AskKeepsInv(s);
      ContinueKeepsInv(s, AskReceipt(s));
    case AwaitingReceipt(_) =>
      TaskKeeps(s, ClosingTransport);
      ContinueKeepsInv(s, s.(task := ClosingTransport));
    case ClosingTransport =>
      EntersKeeps(s, Closed);
      TaskKeeps(Enters(s, Closed), Finished);
      ContinueKeepsInv(s, Enters(s, Closed).(task := Finished));
    case _ =>
  }

  lemma AuthenticatedKeepsInv(s: State)
    requires Inv(s)
    ensures Inv(Authenticated(s)) && Inv(s.(current := false))
  {
    hide Core;
    if !Closing(s) && s.current { CoreFrame(s, s.(phase := Ready), None); }
    CoreFrame(s, s.(current := false), None);
  }

  lemma NextKeepsInv(s: State, ev: Event)
    requires Inv(s)
    ensures Inv(Next(s, ev))
  {
    hide Inv, Core, Request, Take, OpenResource, Fail, Retire, Resume, Authenticated, Drain;
    InvCore(s);
    match ev
    case Requests(lane) => RequestKeepsInv(s, lane, false);
    case OpensResource => OpenKeepsInv(s);
    case Replies(id) => TakeKeepsInv(s, id);
    case Fails => FailKeepsInv(s);
    case Retires => FailKeepsInv(s);
    case Authenticates => AuthenticatedKeepsInv(s);
    case Disconnects =>
      TaskKeeps(s, Authenticating);
      if !Closing(s) { DrainKeepsInv(s); }
    case Resumes(ok) => ResumeKeepsInv(s, ok);
    case Replaced => AuthenticatedKeepsInv(s);
  }

  // ----- whole runs -----

  ghost predicate IsRun(states: seq<State>, events: seq<Event>) {
    && |states| == |events| + 1 && Initial(states[0])
    && (forall i {:trigger events[i]} | 0 <= i < |events| :: states[i + 1] == Next(states[i], events[i]))
  }

  lemma {:induction false} RunKeepsInv(states: seq<State>, events: seq<Event>, i: nat)
    requires IsRun(states, events) && i < |states|
    ensures Inv(states[i])
  {
    hide Inv, Next;
    if i == 0 {
      InitialInv(states[0]);
    } else {
      RunKeepsInv(states, events, i - 1);
      NextKeepsInv(states[i - 1], events[i - 1]);
    }
  }

  lemma InitialInv(s: State)
    requires Initial(s)
    ensures Inv(s)
  {
  }

  /**
   In every reachable state each call entered so far is pending or was settled, never both
   and never twice; the same holds of queued openings. Lane counters are the numbers of
   pending calls, within their limits. In a final phase everything has been settled.
   */
  lemma EveryCallSettlesOnce(states: seq<State>, events: seq<Event>, i: nat)
    requires IsRun(states, events) && i < |states|
    ensures var s := states[i];
            && CallsConserved(s) && WaitersConserved(s, None) && LanesOk(s)
            && (Final(s.phase) ==>
                  && s.pending == [] && s.waiters == []
                  && (forall id: nat | 1 <= id <= s.nextId :: multiset(s.log)[CallSettled(id)] == 1)
                  && (forall w: nat | w < s.nextWaiter :: multiset(s.log)[WaiterSettled(w)] == 1)
                  && (forall lane: Lane :: Of(s.inFlight, lane) == 0))
  {
    RunKeepsInv(states, events, i);
  }

  /** While open and current, an opening waits only if at least seven ordinary calls are in flight. */
  lemma QueueConservesWork(states: seq<State>, events: seq<Event>, i: nat)
    requires IsRun(states, events) && i < |states|
    requires !Closing(states[i]) && states[i].current && states[i].waiters != []
    ensures Count(states[i].pending, InLane(Ordinary)) >= 7
  {
    hide Count;
    RunKeepsInv(states, events, i);
    assert Of(states[i].inFlight, Ordinary) == Count(states[i].pending, InLane(Ordinary));
  }

  /** A final phase is never left, and nothing is admitted or queued in it any more. */
  lemma {:induction false} FinalStaysFinal(states: seq<State>, events: seq<Event>, i: nat, j: nat)
    requires IsRun(states, events) && i <= j < |states| && Final(states[i].phase)
    ensures states[j].phase == states[i].phase && states[j].nextId == states[i].nextId
    ensures states[j].pending == [] && states[j].waiters == []
  {
    RunKeepsInv(states, events, j);
    if i < j {
      hide Inv, Next;
      FinalStaysFinal(states, events, i, j - 1);
      FinalStep(states[j - 1], events[j - 1]);
      RunKeepsInv(states, events, j - 1);
      RunKeepsInv(states, events, i);
    }
  }

  lemma FinalStep(s: State, ev: Event)
    requires Final(s.phase) && s.pending == []
    ensures Next(s, ev).phase == s.phase && Next(s, ev).nextId == s.nextId
  {
  }

  // ----- the queue -----

  /** Some openings at the front of the queue left it; the others wait in the same order. */
  ghost predicate Served(before: seq<nat>, after: seq<nat>) {
    |after| <= |before| && after == before[|before| - |after|..]
  }

  lemma ServedTwice(a: seq<nat>, b: seq<nat>, c: seq<nat>)
    requires Served(a, b) && Served(b, c)
    ensures Served(a, c)
  {
  }

  function AtMostSeven(n: int): int {
    if n < 7 then 7 else n
  }

  /** Pumping never takes the last ordinary slot, and serves openings in the order they came. */
  lemma {:induction false} PumpLeavesSlot(s: State)
    ensures Pump(s).inFlight.ordinary <= AtMostSeven(s.inFlight.ordinary)
    ensures Served(s.waiters, Pump(s).waiters)
    decreases |s.waiters|, 0
  {
    if !Closing(s) && s.current && s.waiters != [] && s.inFlight.ordinary < Limit(Ordinary) - 1 {
      var shifted := s.(waiters := s.waiters[1..]);
      var requested := Request(shifted, Ordinary, false, Some(s.waiters[0]));
      OpeningLeavesSlot(shifted, s.waiters[0]);
      PumpLeavesSlot(requested);
      assert Served(s.waiters, shifted.waiters);
      ServedTwice(s.waiters, shifted.waiters, requested.waiters);
      ServedTwice(s.waiters, requested.waiters, Pump(requested).waiters);
    }
  }

  lemma {:induction false} OpeningLeavesSlot(s: State, w: nat)
    requires !Closing(s) && s.current && s.inFlight.ordinary < 7
    ensures Request(s, Ordinary, false, Some(w)).inFlight.ordinary <= 7
    ensures Served(s.waiters, Request(s, Ordinary, false, Some(w)).waiters)
    decreases |s.waiters|, 1
  {
    var entered := Enter(s, Ordinary, Some(w));
    var id := s.nextId + 1;
    assert entered.inFlight.ordinary <= 7 && entered.waiters == s.waiters;
    if id in s.unposted {
      assert Request(s, Ordinary, false, Some(w)) == Take(entered, id);
      var i := IndexOf(entered.pending, id);
      IndexOfLast(s.pending, Call(id, Ordinary, Some(w)));
      if entered.pending[i].lane.Ordinary? {
        assert Take(entered, id) == Pump(Leave(entered, i));
        PumpLeavesSlot(Leave(entered, i));
      } else {
        assert Take(entered, id) == Leave(entered, i);
      }
    }
  }

  // ----- the connection as the program runs it -----

  class Connection {
    var phase: Phase
    var current: bool
    var unposted: set<nat>
    var pending: seq<Call>
    var inFlight: InFlight
    var nextId: nat
    var waiters: seq<nat>
    var nextWaiter: nat
    var log: seq<Settled>
    var task: Task

    function View(): State
      reads this
    {
      State(phase, current, unposted, pending, inFlight, nextId, waiters, nextWaiter, log, task)
    }

    constructor (unposted: set<nat>)
      ensures Initial(View()) && this.unposted == unposted
    {
      phase, current, pending, inFlight := Opening, true, [], InFlight(0, 0, 0, 0, 0);
      nextId, waiters, nextWaiter, log, task := 0, [], 0, [], NoTask;
      this.unposted := unposted;
    }

    method RequestCall(lane: Lane, disconnect: bool, waiter: Option<nat>)
      modifies this
      ensures View() == Request(old(View()), lane, disconnect, waiter)
      decreases |waiters|, 2
    {
      hide Take, Pump;
      if !Admits(View(), lane, disconnect) {
        if waiter.Some? { log := log + [WaiterSettled(waiter.value)]; }
        return;
      }
      nextId := nextId + 1;
      pending := pending + [Call(nextId, lane, waiter)];
      inFlight := Plus(inFlight, lane, 1);
      if nextId in unposted { TakePending(nextId); }
    }

    method TakePending(id: nat)
      modifies this
      ensures View() == Take(old(View()), id)
      decreases |waiters|, 1
    {
      hide Pump;
      var i := IndexOf(pending, id);
      if i == |pending| { return; }
      var call := pending[i];
      pending := pending[..i] + pending[i + 1..];
      inFlight := Plus(inFlight, call.lane, -1);
      log := log + Settlement(call);
      if call.lane.Ordinary? { PumpOpenResources(); }
    }

    method PumpOpenResources()
      modifies this
      ensures View() == Pump(old(View()))
      decreases |waiters|, 0
    {
      hide Request, Rejected;
      if Closing(View()) || !current {
        log := log + Rejected(waiters);
        waiters := [];
        return;
      }
      while waiters != [] && inFlight.ordinary < Limit(Ordinary) - 1
        invariant |waiters| <= |old(waiters)| && !Closing(View()) && current
        invariant Pump(View()) == Pump(old(View()))
        decreases |waiters|
      {
        var waiter := waiters[0];
        waiters := waiters[1..];
        RequestCall(Ordinary, false, Some(waiter));
      }
    }

    method OpenResourceCall()
      modifies this
      ensures View() == OpenResource(old(View()))
    {
      hide Pump;
      waiters := waiters + [nextWaiter];
      nextWaiter := nextWaiter + 1;
      PumpOpenResources();
    }

    method RejectAllPending()
      requires Closing(View())
      modifies this
      ensures View() == RejectPending(old(View()))
    {
      hide Take;
      while pending != []
        invariant Closing(View()) && RejectPending(View()) == RejectPending(old(View()))
        decreases |pending|
      {
        TakePending(pending[0].id);
      }
    }

    method EnterFinal(next: Phase)
      requires Final(next)
      modifies this
      ensures View() == Enters(old(View()), next)
    {
      hide Pump, RejectPending;
      phase := next;
      PumpOpenResources();
      RejectAllPending();
    }

    method FailConnection()
      modifies this
      ensures View() == Fail(old(View()))
    {
      hide Enters;
      if !Final(phase) { EnterFinal(Failed); }
    }

    method RetireConnection()
      modifies this
      ensures View() == Retire(old(View()))
    {
      hide Enters;
      if !Final(phase) { EnterFinal(Closed); }
    }

    method FinishAuthentication()
      modifies this
      ensures View() == Authenticated(old(View()))
    {
      if !Closing(View()) && current { phase := Ready; }
    }

    method StartDraining()
      modifies this
      ensures View() == Drain(old(View()))
    {
      hide Pump;
      phase, task := Draining, Flushing;
      PumpOpenResources();
    }

    method DisconnectDocument()
      modifies this
      ensures View() == Disconnect(old(View()))
    {
      hide Drain;
      if !task.NoTask? || Closing(View()) || !current { return; }
      if phase.Opening? { task := Authenticating; } else { StartDraining(); }
    }

    /** Ends the task when the connection is no longer draining or was replaced. */
    method StillDraining() returns (go: bool)
      modifies this
      ensures go ==> View() == old(View())
      ensures forall next: State :: Continue(old(View()), next) == if go then next else View()
    {
      hide Enters;
      if !phase.Draining? {
        task := Finished;
        return false;
      }
      if !current {
        RetireConnection();
        task := Finished;
        return false;
      }
      return true;
    }

    method AskForReceipt()
      modifies this
      ensures View() == AskReceipt(old(View()))
    {
      hide Request, Fail;
      var id := nextId + 1;
      var admitted := Admits(View(), Lifecycle, true) && id !in unposted;
      RequestCall(Lifecycle, true, None);
      if admitted {
        task := AwaitingReceipt(id);
      } else {
        FailConnection();
        task := Finished;
      }
    }

    method ResumeDisconnect(ok: bool)
      modifies this
      ensures View() == Resume(old(View()), ok)
    {
      hide Enters, Fail, Retire, Drain, Continue, AskReceipt;
      match task
      case Authenticating =>
        if !ok { FailConnection(); task := Finished; return; }
        if !current { RetireConnection(); task := Finished; return; }
        if !phase.Ready? { task := Finished; return; }
        StartDraining();
      case Flushing =>
        var go := StillDraining();
        if !go { return; }
        if ok { task := ClosingMounts; } else { phase, task := Ready, NoTask; }
      case ClosingMounts =>
        if !ok { FailConnection(); task := Finished; return; }
        var go := StillDraining();
        if go { AskForReceipt(); }
      case AwaitingReceipt(_) =>
        if !ok { FailConnection(); task := Finished; return; }
        var go := StillDraining();
        if go { task := ClosingTransport; }
      case ClosingTransport =>
        if !ok { FailConnection(); task := Finished; return; }
        var go := StillDraining();
        if !go { return; }
        EnterFinal(Closed);
        task := Finished;
      case _ =>
    }
  }
}
