/**
 Connection-owned external drafts: a bounded store with pinned records, least recently
 used eviction, and one fenced send attempt per record revision. Records and attempts
 are objects of the program; here they are numbered in creation order.
 */
module ExternalDrafts {
  import opened Wrappers
  import opened Sums
  import opened DraftRecords

  const MAXIMUM_DRAFTS: int := 16
  const MAXIMUM_BYTES: int := 1024 * 1024

  datatype Attempt = Attempt(id: nat, epoch: nat, record: nat, revision: nat, text: string, bytes: nat)

  datatype Draft = Draft(
    id: string, text: string, bytes: nat, revision: nat, unknownRevision: Option<nat>,
    pending: Option<Attempt>, bindings: set<nat>, used: nat)

  datatype Outcome = Succeeded | UnknownOutcome | Failed

  /** `blanking` and `unbinding` are the records a running `clear` has still to visit. */
  datatype State = State(
    heap: seq<Draft>, records: map<string, nat>, epoch: nat, clock: nat, attempts: nat,
    blanking: set<nat>, unbinding: set<nat>)

  const INITIAL := State([], map[], 0, 0, 0, {}, {})

  function Weight(d: Draft): int {
    d.bytes + if d.pending.Some? && d.pending.value.revision != d.revision then d.pending.value.bytes else 0
  }

  predicate Current(s: State, r: nat) {
    r < |s.heap| && Lookup(s.records, s.heap[r].id) == Some(r)
  }

  ghost function Weights(s: State): map<string, int> {
    map id | id in s.records && s.records[id] < |s.heap| :: Weight(s.heap[s.records[id]])
  }

  // ----- eviction order -----

  predicate InHeap(heap: seq<Draft>, xs: seq<nat>) {
    forall i | 0 <= i < |xs| :: xs[i] < |heap|
  }

  predicate Evictable(d: Draft) {
    d.pending.None? && d.bindings == {}
  }

  function InsertByUse(heap: seq<Draft>, r: nat, sorted: seq<nat>): (out: seq<nat>)
    requires r < |heap| && InHeap(heap, sorted)
    ensures InHeap(heap, out)
    ensures forall x :: x in out <==> x == r || x in sorted
    ensures |out| == |sorted| + 1
  {
    if sorted == [] || heap[r].used <= heap[sorted[0]].used then [r] + sorted
    else
      assert sorted == [sorted[0]] + sorted[1..];
      [sorted[0]] + InsertByUse(heap, r, sorted[1..])
  }

  /** The evictable current records among the first `n`, least recently used first; `except` is never one of them. */
  function Victims(s: State, except: Option<nat>, n: nat): (out: seq<nat>)
    requires n <= |s.heap|
    ensures InHeap(s.heap, out)
    ensures forall x: nat :: x in out <==> x < n && Current(s, x) && Some(x) != except && Evictable(s.heap[x])
  {
    if n == 0 then []
    else
      var rest := Victims(s, except, n - 1);
      if Current(s, n - 1) && Some(n - 1) != except && Evictable(s.heap[n - 1]) then InsertByUse(s.heap, n - 1, rest) else rest
  }

  predicate Fits(size: int, total: int) {
    size <= MAXIMUM_DRAFTS && total <= MAXIMUM_BYTES
  }

  /** Takes victims in order until both bounds hold; byte pressure alone skips empty records. */
  function Choose(heap: seq<Draft>, victims: seq<nat>, size: int, total: int): Option<seq<nat>>
    requires InHeap(heap, victims)
  {
    if Fits(size, total) then Some([])
    else if victims == [] then None
    else
      var v := victims[0];
      if size <= MAXIMUM_DRAFTS && Weight(heap[v]) == 0 then Choose(heap, victims[1..], size, total)
      else
        match Choose(heap, victims[1..], size - 1, total - Weight(heap[v]))
        case None => None
        case Some(more) => Some([v] + more)
  }

  function Evict(s: State, evicted: seq<nat>): State
    requires InHeap(s.heap, evicted)
    decreases |evicted|
  {
    if evicted == [] then s
    else Evict(s.(records := s.records - {s.heap[evicted[0]].id}), evicted[1..])
  }

  ghost function Admit(s: State, record: Option<nat>, extra: int, count: int): Option<State> {
    var victims := Victims(s, record, |s.heap|);
    match Choose(s.heap, victims, |s.records| + count, Sum(Weights(s)) + extra)
    case None => None
    case Some(evicted) =>
      ChosenAmong(s.heap, victims, |s.records| + count, Sum(Weights(s)) + extra);
      Some(Evict(s, evicted))
  }

  lemma {:induction false} ChosenAmong(heap: seq<Draft>, victims: seq<nat>, size: int, total: int)
    requires InHeap(heap, victims)
    ensures Choose(heap, victims, size, total).Some? ==> InHeap(heap, Choose(heap, victims, size, total).value)
    decreases |victims|
  {
    if !Fits(size, total) && victims != [] {
      var v := victims[0];
      ChosenAmong(heap, victims[1..], size, total);
      ChosenAmong(heap, victims[1..], size - 1, total - Weight(heap[v]));
    }
  }

  // ----- operations -----

  ghost function Bind(s: State, id: string, binding: nat): (State, Option<nat>) {
    if id in s.records then
      var r := s.records[id];
      if r >= |s.heap| then (s, None) else
      (s.(clock := s.clock + 1, heap := s.heap[r := s.heap[r].(used := s.clock + 1, bindings := s.heap[r].bindings + {binding})]), Some(r))
    else
      match Admit(s, None, 0, 1)
      case None => (s, None)
      case Some(t) =>
        var draft := Draft(id, "", 0, 0, None, None, {binding}, s.clock + 1);
        (t.(clock := s.clock + 1, heap := t.heap + [draft], records := t.records[id := |t.heap|]), Some(|t.heap|))
  }

  function Unbind(s: State, r: nat, binding: nat): State {
    if r >= |s.heap| || binding !in s.heap[r].bindings then s
    else
      var left := s.heap[r].bindings - {binding};
      s.(clock := s.clock + 1,
         heap := s.heap[r := s.heap[r].(bindings := left, used := if left == {} then s.clock + 1 else s.heap[r].used)])
  }

  ghost function Edit(s: State, r: nat, text: string): (State, bool) {
    if !Current(s, r) then (s, false)
    else if s.heap[r].text == text then (s, true)
    else
      var d := s.heap[r];
      var next := Utf8(text) + if d.pending.Some? then d.pending.value.bytes else 0;
      match Admit(s, Some(r), next - Weight(d), 0)
      case None => (s, false)
      case Some(t) =>
        if r >= |t.heap| then (s, false) else
        (t.(clock := s.clock + 1,
            heap := t.heap[r := t.heap[r].(text := text, bytes := Utf8(text), revision := d.revision + 1, unknownRevision := None, used := s.clock + 1)]),
         true)
  }

  function Begin(s: State, r: nat): (State, Option<Attempt>) {
    if !Current(s, r) || s.heap[r].pending.Some? || s.heap[r].unknownRevision == Some(s.heap[r].revision) then (s, None)
    else
      var d := s.heap[r];
      var attempt := Attempt(s.attempts, s.epoch, r, d.revision, d.text, d.bytes);
      (s.(clock := s.clock + 1, attempts := s.attempts + 1, heap := s.heap[r := d.(pending := Some(attempt), used := s.clock + 1)]), Some(attempt))
  }

  predicate Effective(s: State, attempt: Attempt) {
    && attempt.epoch == s.epoch
    && Current(s, attempt.record)
    && s.heap[attempt.record].pending == Some(attempt)
  }

  function Finished(d: Draft, attempt: Attempt, outcome: Outcome): Draft {
    var idle := d.(pending := None);
    if d.revision != attempt.revision then idle
    else match outcome
      case Succeeded => idle.(text := "", bytes := 0, revision := d.revision + 1, unknownRevision := None)
      case UnknownOutcome => idle.(unknownRevision := Some(attempt.revision))
      case Failed => idle
  }

  function Finish(s: State, attempt: Attempt, outcome: Outcome): State {
    if !Effective(s, attempt) then s
    else
      var r := attempt.record;
      s.(clock := s.clock + 1, heap := s.heap[r := Finished(s.heap[r], attempt, outcome).(used := s.clock + 1)])
  }

  /** `clear` fences every old record before any callback runs. */
  function Clear(s: State): State {
    s.(epoch := s.epoch + 1, clock := s.clock + 1, records := map[], blanking := s.blanking + s.records.Values)
  }

  /** ... then visits each old record; callbacks may use the store between visits. */
  function Blank(s: State, r: nat): State {
    if r !in s.blanking || r >= |s.heap| then s
    else s.(blanking := s.blanking - {r}, unbinding := s.unbinding + {r},
            heap := s.heap[r := s.heap[r].(text := "", bytes := 0, pending := None, unknownRevision := None)])
  }

  function DropBindings(s: State, r: nat): State {
    if r !in s.unbinding || r >= |s.heap| then s
    else s.(unbinding := s.unbinding - {r}, heap := s.heap[r := s.heap[r].(bindings := {})])
  }

  datatype Event =
    | Binds(id: string, binding: nat)
    | Unbinds(record: nat, binding: nat)
    | Edits(record: nat, text: string)
    | Begins(record: nat)
    | Finishes(attempt: Attempt, outcome: Outcome)
    | Clears
    | Blanks(record: nat)
    | DropsBindings(record: nat)

  ghost function Next(s: State, ev: Event): State {
    match ev
    case Binds(id, binding) => Bind(s, id, binding).0
    case Unbinds(r, binding) => Unbind(s, r, binding)
    case Edits(r, text) => Edit(s, r, text).0
    case Begins(r) => Begin(s, r).0
    case Finishes(attempt, outcome) => Finish(s, attempt, outcome)
    case Clears => Clear(s)
    case Blanks(r) => Blank(s, r)
    case DropsBindings(r) => DropBindings(s, r)
  }

  // ----- the invariant -----

  predicate DraftOk(d: Draft, r: nat, epoch: nat, clock: nat) {
    && d.bytes == Utf8(d.text)
    && d.used <= clock
    && (d.unknownRevision.Some? ==> d.unknownRevision.value <= d.revision)
    && (d.pending.Some? ==>
          var a := d.pending.value;
          && a.record == r && a.epoch == epoch && a.revision <= d.revision && a.bytes == Utf8(a.text)
          && (a.revision == d.revision ==> a.text == d.text))
  }

  ghost predicate IndexOk(s: State) {
    && (forall id | id in s.records :: s.records[id] < |s.heap| && s.heap[s.records[id]].id == id)
    && (forall r | r in s.blanking :: r < |s.heap| && !Current(s, r))
    && (forall r | r in s.unbinding :: r < |s.heap| && !Current(s, r))
  }

  /** Sixteen records and one MiB, in-flight text that was edited over included. */
  ghost predicate Bounded(s: State) {
    |s.records| <= MAXIMUM_DRAFTS && Sum(Weights(s)) <= MAXIMUM_BYTES
  }

  ghost predicate Inv(s: State) {
    && IndexOk(s) && Bounded(s)
    && (forall r: nat | Current(s, r) :: DraftOk(s.heap[r], r, s.epoch, s.clock))
    && (forall r: nat, q: nat | Current(s, r) && Current(s, q) && r != q :: s.heap[r].used != s.heap[q].used)
  }

  // ----- eviction -----

  ghost predicate NoRepeats(xs: seq<nat>) {
    forall i, j | 0 <= i < j < |xs| :: xs[i] != xs[j]
  }

  ghost predicate SortedByUse(heap: seq<Draft>, xs: seq<nat>)
    requires InHeap(heap, xs)
  {
    forall i, j | 0 <= i < j < |xs| :: heap[xs[i]].used <= heap[xs[j]].used
  }

  lemma {:induction false} InsertNoRepeats(heap: seq<Draft>, r: nat, sorted: seq<nat>)
    requires r < |heap| && InHeap(heap, sorted) && r !in sorted && NoRepeats(sorted)
    ensures NoRepeats(InsertByUse(heap, r, sorted))
  {
    if sorted != [] && !(heap[r].used <= heap[sorted[0]].used) {
      assert sorted[0] !in sorted[1..] && sorted[0] in sorted;
      InsertNoRepeats(heap, r, sorted[1..]);
      var rest := InsertByUse(heap, r, sorted[1..]);
      assert sorted[0] !in rest;
    }
  }

  lemma {:induction false} InsertSorted(heap: seq<Draft>, r: nat, sorted: seq<nat>)
    requires r < |heap| && InHeap(heap, sorted) && SortedByUse(heap, sorted)
    ensures SortedByUse(heap, InsertByUse(heap, r, sorted))
  {
    if sorted != [] && !(heap[r].used <= heap[sorted[0]].used) {
      InsertSorted(heap, r, sorted[1..]);
      var rest := InsertByUse(heap, r, sorted[1..]);
      forall k | 0 <= k < |rest|
        ensures heap[sorted[0]].used <= heap[rest[k]].used
      {
        assert rest[k] in rest;
        if rest[k] != r { var m :| 0 <= m < |sorted[1..]| && sorted[1..][m] == rest[k]; }
      }
    }
  }

  lemma {:induction false} VictimsOrder(s: State, except: Option<nat>, n: nat)
    requires n <= |s.heap|
    ensures NoRepeats(Victims(s, except, n)) && SortedByUse(s.heap, Victims(s, except, n))
  {
    hide Current, Evictable, InsertByUse;
    if n > 0 {
      VictimsOrder(s, except, n - 1);
      if Current(s, n - 1) && Some(n - 1) != except && Evictable(s.heap[n - 1]) {
        InsertNoRepeats(s.heap, n - 1, Victims(s, except, n - 1));
        InsertSorted(s.heap, n - 1, Victims(s, except, n - 1));
      }
    }
  }

  ghost function WeightOf(heap: seq<Draft>, xs: seq<nat>): int
    requires InHeap(heap, xs)
  {
    if xs == [] then 0 else Weight(heap[xs[0]]) + WeightOf(heap, xs[1..])
  }

  lemma {:induction false} WeightOfNonNegative(heap: seq<Draft>, xs: seq<nat>)
    requires InHeap(heap, xs)
    ensures WeightOf(heap, xs) >= 0
  {
    if xs != [] {
      WeightOfNonNegative(heap, xs[1..]);
    }
  }

  /**
   Admission is refused exactly when evicting every evictable record still would not fit.
   */
  lemma {:induction false} ChooseRefusesOnlyWhenFull(heap: seq<Draft>, victims: seq<nat>, size: int, total: int)
    requires InHeap(heap, victims)
    ensures Choose(heap, victims, size, total).Some? <==> Fits(size - |victims|, total - WeightOf(heap, victims))
    decreases |victims|
  {
    WeightOfNonNegative(heap, victims);
    if !Fits(size, total) && victims != [] {
      var v := victims[0];
      if size <= MAXIMUM_DRAFTS && Weight(heap[v]) == 0 {
        ChooseRefusesOnlyWhenFull(heap, victims[1..], size, total);
      } else {
        ChooseRefusesOnlyWhenFull(heap, victims[1..], size - 1, total - Weight(heap[v]));
      }
    }
  }

  /** Without the last chosen record the rest would not fit. */
  ghost predicate Tight(heap: seq<Draft>, chosen: seq<nat>, size: int, total: int)
    requires InHeap(heap, chosen)
  {
    chosen != [] ==>
      var fewer := chosen[..|chosen| - 1];
      !Fits(size - |fewer|, total - WeightOf(heap, fewer))
  }

  lemma WeightOfCons(heap: seq<Draft>, v: nat, xs: seq<nat>)
    requires v < |heap| && InHeap(heap, xs)
    ensures InHeap(heap, [v] + xs) && WeightOf(heap, [v] + xs) == Weight(heap[v]) + WeightOf(heap, xs)
  {
    assert ([v] + xs)[1..] == xs;
  }

  lemma TightCons(heap: seq<Draft>, v: nat, more: seq<nat>, size: int, total: int)
    requires v < |heap| && InHeap(heap, more) && !Fits(size, total)
    requires Tight(heap, more, size - 1, total - Weight(heap[v]))
    ensures InHeap(heap, [v] + more) && Tight(heap, [v] + more, size, total)
  {
    WeightOfCons(heap, v, more);
    var chosen := [v] + more;
    if more == [] {
      assert chosen[..0] == [];
    } else {
      var fewer := more[..|more| - 1];
      assert chosen[..|chosen| - 1] == [v] + fewer;
      WeightOfCons(heap, v, fewer);
    }
  }

  /** The chosen records are exactly enough: they fit, and without the last one they would not. */
  lemma {:induction false} ChooseIsShortest(heap: seq<Draft>, victims: seq<nat>, size: int, total: int)
    requires InHeap(heap, victims) && NoRepeats(victims)
    requires Choose(heap, victims, size, total).Some?
    ensures var chosen := Choose(heap, victims, size, total).value;
            && InHeap(heap, chosen) && NoRepeats(chosen) && (forall x | x in chosen :: x in victims)
            && Fits(size - |chosen|, total - WeightOf(heap, chosen))
            && Tight(heap, chosen, size, total)
    decreases |victims|
  {
    hide Weight, Tight;
    ChosenAmong(heap, victims, size, total);
    if Fits(size, total) {
      TightNone(heap, size, total);
    } else {
      var v, rest := victims[0], victims[1..];
      assert victims == [v] + rest && v !in rest;
      if size <= MAXIMUM_DRAFTS && Weight(heap[v]) == 0 {
        ChooseIsShortest(heap, rest, size, total);
      } else {
        ChooseIsShortest(heap, rest, size - 1, total - Weight(heap[v]));
        var more := Choose(heap, rest, size - 1, total - Weight(heap[v])).value;
        WeightOfCons(heap, v, more);
        TightCons(heap, v, more, size, total);
        assert v !in more;
      }
    }
  }

  /** Each chosen record was used no later than any evictable record with text that stays. */
  lemma {:induction false} ChooseLeastRecent(heap: seq<Draft>, victims: seq<nat>, size: int, total: int, c: nat, x: nat)
    requires InHeap(heap, victims) && NoRepeats(victims) && SortedByUse(heap, victims)
    requires Choose(heap, victims, size, total).Some?
    requires c in Choose(heap, victims, size, total).value
    requires x in victims && x !in Choose(heap, victims, size, total).value
    ensures c < |heap| && x < |heap| && (Weight(heap[x]) == 0 || heap[c].used <= heap[x].used)
    decreases |victims|
  {
    hide Weight;
    ChosenAmong(heap, victims, size, total);
    var v, rest := victims[0], victims[1..];
    assert victims == [v] + rest;
    if size <= MAXIMUM_DRAFTS && Weight(heap[v]) == 0 {
      if x != v { ChooseLeastRecent(heap, rest, size, total, c, x); }
    } else if c == v {
      var k :| 0 <= k < |victims| && victims[k] == x;
    } else {
      ChooseLeastRecent(heap, rest, size - 1, total - Weight(heap[v]), c, x);
    }
  }

  lemma TightNone(heap: seq<Draft>, size: int, total: int)
    ensures InHeap(heap, []) && Tight(heap, [], size, total)
  {
  }

  /** Evicting one current record. */
  lemma EvictOne(s: State, v: nat)
    requires IndexOk(s) && Current(s, v)
    ensures var id := s.heap[v].id;
            var t := s.(records := s.records - {id});
            && id in s.records && s.records[id] == v && IndexOk(t)
            && |t.records| == |s.records| - 1
            && Sum(Weights(t)) == Sum(Weights(s)) - Weight(s.heap[v])
            && (forall r: nat | Current(s, r) && r != v :: Current(t, r))
  {
    hide Sum, Weight;
    var id := s.heap[v].id;
    var t := s.(records := s.records - {id});
    SumDrop(Weights(s), id);
    assert Weights(t) == Weights(s) - {id};
    assert t.records.Keys == s.records.Keys - {id};
  }

  /** Evicting removes exactly the chosen records from the index. */
  lemma {:induction false} EvictEffect(s: State, evicted: seq<nat>)
    requires InHeap(s.heap, evicted) && NoRepeats(evicted) && IndexOk(s)
    requires forall i | 0 <= i < |evicted| :: Current(s, evicted[i])
    ensures var t := Evict(s, evicted);
            && t == s.(records := t.records)
            && (forall id :: id in t.records <==> id in s.records && s.records[id] !in evicted)
            && (forall id | id in t.records :: t.records[id] == s.records[id])
            && |t.records| == |s.records| - |evicted|
            && Sum(Weights(t)) == Sum(Weights(s)) - WeightOf(s.heap, evicted)
    decreases |evicted|
  {
    if evicted != [] {
      hide IndexOk, Weights, Weight, Sum;
      var v, rest := evicted[0], evicted[1..];
      var t := s.(records := s.records - {s.heap[v].id});
      assert evicted == [v] + rest && v !in rest;
      EvictOne(s, v);
      OnlyAtItsId(s, v);
      hide Current;
      forall i | 0 <= i < |rest|
        ensures Current(t, rest[i])
      {
        assert Current(s, evicted[i + 1]) && rest[i] != v;
      }
      EvictEffect(t, rest);
    }
  }

  lemma OnlyAtItsId(s: State, v: nat)
    requires IndexOk(s) && v < |s.heap|
    ensures forall id | id in s.records && s.records[id] == v :: id == s.heap[v].id
  {
  }

  /** Admission is refused exactly when evicting every evictable record still would not fit. */
  lemma AdmitRefusesOnlyWhenFull(s: State, record: Option<nat>, extra: int, count: int)
    ensures var victims := Victims(s, record, |s.heap|);
            Admit(s, record, extra, count).None? <==>
              !Fits(|s.records| + count - |victims|, Sum(Weights(s)) + extra - WeightOf(s.heap, victims))
  {
    hide Victims, Sum, Weights, WeightOf, Choose, Evict;
    ChooseRefusesOnlyWhenFull(s.heap, Victims(s, record, |s.heap|), |s.records| + count, Sum(Weights(s)) + extra);
  }

  /**
   Admission makes room without touching a pinned record or the record being edited; what
   it leaves is bounded once the requested extra is added.
   */
  lemma AdmitEffect(s: State, record: Option<nat>, extra: int, count: int)
    requires IndexOk(s) && Admit(s, record, extra, count).Some?
    ensures var t := Admit(s, record, extra, count).value;
            && t == s.(records := t.records)
            && Fits(|t.records| + count, Sum(Weights(t)) + extra)
            && (forall id | id in t.records :: id in s.records && t.records[id] == s.records[id])
            && (forall r: nat | Current(s, r) && (Some(r) == record || !Evictable(s.heap[r])) :: Current(t, r))
  {
    hide Victims, Sum, Weights, WeightOf, Choose, Evict, Evictable;
    var victims := Victims(s, record, |s.heap|);
    var size, total := |s.records| + count, Sum(Weights(s)) + extra;
    VictimsOrder(s, record, |s.heap|);
    ChooseIsShortest(s.heap, victims, size, total);
    EvictEffect(s, Choose(s.heap, victims, size, total).value);
  }

  // ----- every operation keeps the invariant -----

  /** Replacing one record changes the total weight by the difference, and nothing if it is no longer current. */
  lemma WeightsAfter(s: State, r: nat, d: Draft)
    requires IndexOk(s) && r < |s.heap| && d.id == s.heap[r].id
    ensures var t := s.(heap := s.heap[r := d]);
            && Sum(Weights(t)) == Sum(Weights(s)) + (if Current(s, r) then Weight(d) - Weight(s.heap[r]) else 0)
            && (forall q: nat :: Current(t, q) <==> Current(s, q))
            && IndexOk(t)
  {
    hide Sum, Weight;
    var t := s.(heap := s.heap[r := d]);
    assert forall q: nat :: Current(t, q) <==> Current(s, q);
    if Current(s, r) {
      SumSet(Weights(s), d.id, Weight(d));
      assert Weights(t) == Weights(s)[d.id := Weight(d)];
    } else {
      assert Weights(t) == Weights(s);
    }
  }

  /** A record that is used now becomes the most recent one. */
  lemma UseKeeps(s: State, r: nat, d: Draft)
    requires Inv(s) && r < |s.heap| && d.id == s.heap[r].id
    requires Current(s, r) ==> DraftOk(d, r, s.epoch, s.clock + 1) && (d.used == s.clock + 1 || d.used == s.heap[r].used)
    requires Current(s, r) ==> Sum(Weights(s)) + Weight(d) - Weight(s.heap[r]) <= MAXIMUM_BYTES
    ensures Inv(s.(clock := s.clock + 1, heap := s.heap[r := d]))
  {
    hide Sum, Weights, Weight, DraftOk;
    WeightsAfter(s, r, d);
    var t := s.(clock := s.clock + 1, heap := s.heap[r := d]);
    ClockFrame(s.(heap := s.heap[r := d]), t);
    forall q: nat | Current(s, q)
      ensures DraftOk(s.heap[q], q, s.epoch, s.clock + 1) && s.heap[q].used <= s.clock
    {
      DraftOkLater(s.heap[q], q, s.epoch, s.clock);
    }
  }

  lemma DraftOkLater(d: Draft, r: nat, epoch: nat, clock: nat)
    requires DraftOk(d, r, epoch, clock)
    ensures DraftOk(d, r, epoch, clock + 1) && d.used <= clock
  {
  }

  lemma ClockFrame(a: State, b: State)
    requires a.heap == b.heap && a.records == b.records
    ensures Weights(a) == Weights(b)
  {
  }

  /** Forgetting some records keeps what remains valid. */
  lemma SubsetKeeps(s: State, t: State)
    requires Inv(s) && t == s.(records := t.records)
    requires forall id | id in t.records :: id in s.records && t.records[id] == s.records[id]
    requires Bounded(t)
    ensures Inv(t)
  {
    hide Bounded;
    assert forall r: nat | Current(t, r) :: Current(s, r);
  }

  lemma BindKeeps(s: State, id: string, binding: nat)
    requires Inv(s)
    ensures Inv(Bind(s, id, binding).0)
  {
    hide Sum, Weights, Weight, Admit, Utf8, DraftOk;
    if id in s.records {
      BindKnownKeeps(s, id, binding);
    } else if Admit(s, None, 0, 1).Some? {
      var t := Admit(s, None, 0, 1).value;
      AdmitEffect(s, None, 0, 1);
      SubsetKeeps(s, t);
      NewRecordKeeps(t, id, binding);
    }
  }

  lemma BindKnownKeeps(s: State, id: string, binding: nat)
    requires Inv(s) && id in s.records
    ensures Inv(Bind(s, id, binding).0)
  {
    hide Sum, Weights, Weight, Admit, Utf8;
    var r := s.records[id];
    var d := s.heap[r].(used := s.clock + 1, bindings := s.heap[r].bindings + {binding});
    assert Current(s, r);
    WeightIgnores(s.heap[r], d);
    UseKeeps(s, r, d);
  }

  lemma WeightIgnores(a: Draft, b: Draft)
    requires a.bytes == b.bytes && a.pending == b.pending && a.revision == b.revision
    ensures Weight(a) == Weight(b)
  {
  }

  function WithRecord(t: State, id: string, binding: nat): State {
    t.(clock := t.clock + 1, heap := t.heap + [Draft(id, "", 0, 0, None, None, {binding}, t.clock + 1)], records := t.records[id := |t.heap|])
  }

  lemma NewRecordWeights(t: State, id: string, binding: nat)
    requires IndexOk(t) && id !in t.records
    ensures Sum(Weights(WithRecord(t, id, binding))) == Sum(Weights(t))
  {
    hide Sum;
    SumSet(Weights(t), id, 0);
    assert Weights(WithRecord(t, id, binding)) == Weights(t)[id := 0];
  }

  lemma NewRecordIndex(t: State, id: string, binding: nat)
    requires IndexOk(t) && id !in t.records
    ensures var u := WithRecord(t, id, binding);
            && IndexOk(u) && |u.records| == |t.records| + 1
            && (forall r: nat :: Current(u, r) <==> Current(t, r) || r == |t.heap|)
  {
    var u := WithRecord(t, id, binding);
    assert u.records.Keys == t.records.Keys + {id};
    forall r: nat
      ensures Current(u, r) <==> Current(t, r) || r == |t.heap|
    {
      if r < |t.heap| { assert u.heap[r] == t.heap[r]; }
    }
  }

  lemma NewRecordKeeps(t: State, id: string, binding: nat)
    requires Inv(t) && id !in t.records && |t.records| < MAXIMUM_DRAFTS
    ensures Inv(WithRecord(t, id, binding))
  {
    hide Sum, Weights, Current, IndexOk;
    NewRecordIndex(t, id, binding);
    NewRecordWeights(t, id, binding);
    CurrentInHeap(t);
  }

  lemma CurrentInHeap(t: State)
    ensures forall r: nat | Current(t, r) :: r < |t.heap|
  {
  }

  /** The bytes an edit adds to the store, in-flight text included. */
  function Extra(s: State, r: nat, text: string): int
    requires r < |s.heap|
  {
    Utf8(text) + (if s.heap[r].pending.Some? then s.heap[r].pending.value.bytes else 0) - Weight(s.heap[r])
  }

  function Edited(d: Draft, text: string, clock: nat): Draft {
    d.(text := text, bytes := Utf8(text), revision := d.revision + 1, unknownRevision := None, used := clock)
  }

  /** An edit is refused without a trace, or admits first and then replaces one record. */
  lemma EditEffect(s: State, r: nat, text: string)
    requires IndexOk(s)
    ensures var n := Edit(s, r, text).0;
            || n == s
            || (&& Current(s, r) && Admit(s, Some(r), Extra(s, r, text), 0).Some?
                && var t := Admit(s, Some(r), Extra(s, r, text), 0).value;
                n == t.(clock := s.clock + 1, heap := s.heap[r := Edited(s.heap[r], text, s.clock + 1)]))
  {
    hide Sum, Weights, Admit, Utf8, Weight;
    if Current(s, r) && Admit(s, Some(r), Extra(s, r, text), 0).Some? { AdmitEffect(s, Some(r), Extra(s, r, text), 0); }
  }

  lemma EditedWeight(d: Draft, text: string, clock: nat, r: nat, epoch: nat, old_: nat)
    requires DraftOk(d, r, epoch, old_) && old_ < clock
    ensures Weight(Edited(d, text, clock)) == Utf8(text) + if d.pending.Some? then d.pending.value.bytes else 0
    ensures DraftOk(Edited(d, text, clock), r, epoch, clock)
  {
    hide Utf8;
  }

  lemma EditKeeps(s: State, r: nat, text: string)
    requires Inv(s)
    ensures Inv(Edit(s, r, text).0)
  {
    hide Sum, Weights, Admit, Utf8, Edit, Weight, DraftOk;
    EditEffect(s, r, text);
    if Edit(s, r, text).0 != s {
      var t := Admit(s, Some(r), Extra(s, r, text), 0).value;
      AdmitEffect(s, Some(r), Extra(s, r, text), 0);
      assert Current(t, r);
      BoundedAfterAdmit(s, t, r, Extra(s, r, text));
      EditedWeight(s.heap[r], text, s.clock + 1, r, s.epoch, s.clock);
      UseKeeps(t, r, Edited(s.heap[r], text, s.clock + 1));
    }
  }

  /** Admitting an edit leaves the index bounded both before and after the text is replaced. */
  lemma BoundedAfterAdmit(s: State, t: State, r: nat, extra: int)
    requires Inv(s) && t == s.(records := t.records)
    requires forall id | id in t.records :: id in s.records && t.records[id] == s.records[id]
    requires Fits(|t.records|, Sum(Weights(t)) + extra)
    ensures Inv(t)
  {
    hide Inv, Sum, Weights;
    PartWeighsLess(s, t);
    InvBounds(s);
    SubsetKeeps(s, t);
  }

  lemma InvBounds(s: State)
    requires Inv(s)
    ensures Bounded(s)
  {
  }

  lemma PartWeighsLess(s: State, t: State)
    requires Inv(s) && t == s.(records := t.records)
    requires forall id | id in t.records :: id in s.records && t.records[id] == s.records[id]
    ensures Sum(Weights(t)) <= Sum(Weights(s))
  {
    hide Sum;
    forall id | id in Weights(s)
      ensures Weights(s)[id] >= 0
    {
    }
    SumPart(Weights(t), Weights(s));
  }

  lemma ClearKeeps(s: State)
    requires Inv(s)
    ensures Inv(Clear(s))
  {
    var t := Clear(s);
    assert Weights(t) == map[];
    assert forall r: nat :: !Current(t, r);
    forall r | r in t.blanking
      ensures r < |t.heap|
    {
      if r !in s.blanking {
        var id :| id in s.records && s.records[id] == r;
      }
    }
  }

  lemma RetiredKeeps(s: State, r: nat, d: Draft, blanking: set<nat>, unbinding: set<nat>)
    requires Inv(s) && r < |s.heap| && !Current(s, r) && d.id == s.heap[r].id
    requires blanking <= s.blanking && unbinding <= s.unbinding + {r}
    ensures Inv(s.(heap := s.heap[r := d], blanking := blanking, unbinding := unbinding))
  {
    hide Sum, Weight;
    WeightsAfter(s, r, d);
    var t := s.(heap := s.heap[r := d], blanking := blanking, unbinding := unbinding);
    ClockFrame(s.(heap := s.heap[r := d]), t);
    assert forall q: nat :: Current(t, q) <==> Current(s, q);
  }

  lemma NextKeepsInv(s: State, ev: Event)
    requires Inv(s)
    ensures Inv(Next(s, ev))
  {
    hide Sum, Weights, Weight, Admit, Utf8, Inv, Bind, Edit, Clear;
    assert Inv(s);
    match ev
    case Binds(id, binding) => BindKeeps(s, id, binding);
    case Unbinds(r, binding) => UnbindKeeps(s, r, binding);
    case Edits(r, text) => EditKeeps(s, r, text);
    case Begins(r) => BeginKeeps(s, r);
    case Finishes(attempt, outcome) => FinishKeeps(s, attempt, outcome);
    case Clears => ClearKeeps(s);
    case Blanks(r) =>
      if r in s.blanking {
        NotCurrent(s, r);
        RetiredKeeps(s, r, s.heap[r].(text := "", bytes := 0, pending := None, unknownRevision := None), s.blanking - {r}, s.unbinding + {r});
      }
    case DropsBindings(r) =>
      if r in s.unbinding {
        NotCurrent(s, r);
        RetiredKeeps(s, r, s.heap[r].(bindings := {}), s.blanking, s.unbinding - {r});
        assert s.(blanking := s.blanking) == s;
      }
  }

  lemma NotCurrent(s: State, r: nat)
    requires Inv(s) && (r in s.blanking || r in s.unbinding)
    ensures r < |s.heap| && !Current(s, r)
  {
  }

  lemma UnbindKeeps(s: State, r: nat, binding: nat)
    requires Inv(s)
    ensures Inv(Unbind(s, r, binding))
  {
    hide Sum, Weights, Utf8;
    if r < |s.heap| && binding in s.heap[r].bindings {
      var left := s.heap[r].bindings - {binding};
      UseKeeps(s, r, s.heap[r].(bindings := left, used := if left == {} then s.clock + 1 else s.heap[r].used));
    }
  }

  lemma BeginKeeps(s: State, r: nat)
    requires Inv(s)
    ensures Inv(Begin(s, r).0)
  {
    hide Sum, Weights, Utf8;
    if Begin(s, r).1.Some? {
      var d := s.heap[r];
      var e := d.(pending := Begin(s, r).1, used := s.clock + 1);
      UseKeeps(s, r, e);
      var u := s.(clock := s.clock + 1, heap := s.heap[r := e]);
      AttemptsFrame(u, u.(attempts := s.attempts + 1));
    }
  }

  lemma AttemptsFrame(a: State, b: State)
    requires Inv(a) && b == a.(attempts := b.attempts)
    ensures Inv(b)
  {
    ClockFrame(a, b);
    assert forall r: nat :: Current(a, r) <==> Current(b, r);
  }

  lemma FinishKeeps(s: State, attempt: Attempt, outcome: Outcome)
    requires Inv(s)
    ensures Inv(Finish(s, attempt, outcome))
  {
    hide Sum, Weights;
    if Effective(s, attempt) {
      var r := attempt.record;
      UseKeeps(s, r, Finished(s.heap[r], attempt, outcome).(used := s.clock + 1));
    }
  }

  // ----- whole runs -----

  ghost predicate IsRun(states: seq<State>, events: seq<Event>) {
    && |states| == |events| + 1
    && (forall i {:trigger events[i]} | 0 <= i < |events| :: states[i + 1] == Next(states[i], events[i]))
  }

  /** Sixteen records and one MiB hold in every reachable state, callbacks during `clear` included. */
  lemma {:induction false} AlwaysBounded(states: seq<State>, events: seq<Event>, i: nat)
    requires IsRun(states, events) && states[0] == INITIAL && i < |states|
    ensures Inv(states[i])
  {
    hide Inv, Next;
    if i == 0 {
      InitialInv();
    } else {
      AlwaysBounded(states, events, i - 1);
      NextKeepsInv(states[i - 1], events[i - 1]);
    }
  }

  lemma InitialInv()
    ensures Inv(INITIAL)
  {
    assert Weights(INITIAL) == map[];
  }

  /** A bind changes at most the use and bindings of existing records, and evicts only idle ones. */
  lemma BindAt(s: State, id: string, binding: nat, r: nat)
    requires Inv(s) && r < |s.heap|
    ensures var n := Bind(s, id, binding).0;
            && r < |n.heap| && n.epoch == s.epoch
            && n.heap[r] == s.heap[r].(used := n.heap[r].used, bindings := n.heap[r].bindings)
            && (Current(n, r) ==> Current(s, r))
            && (Current(s, r) && !Evictable(s.heap[r]) ==> Current(n, r))
  {
    hide Sum, Weights, Admit, Utf8, DraftOk, Evictable;
    if id !in s.records && Admit(s, None, 0, 1).Some? { AdmitEffect(s, None, 0, 1); }
  }

  lemma EditAt(s: State, q: nat, text: string, r: nat)
    requires Inv(s) && r < |s.heap|
    ensures var n := Edit(s, q, text).0;
            && r < |n.heap| && n.epoch == s.epoch
            && (n.heap[r] == s.heap[r] || n.heap[r].revision == s.heap[r].revision + 1)
            && (Current(n, r) ==> Current(s, r))
            && (Current(s, r) && !Evictable(s.heap[r]) ==> Current(n, r))
  {
    hide Sum, Weights, Admit, Utf8, DraftOk, Evictable, Edit, Weight;
    EditEffect(s, q, text);
    if Edit(s, q, text).0 != s { AdmitEffect(s, Some(q), Extra(s, q, text), 0); }
  }

  /** A refused edit or bind changes nothing, and an edit is refused exactly when it cannot be made to fit. */
  lemma RefusalChangesNothing(s: State, r: nat, text: string, id: string, binding: nat)
    requires Inv(s)
    ensures !Edit(s, r, text).1 ==> Edit(s, r, text).0 == s
    ensures Edit(s, r, text).1 <==>
              Current(s, r) && (s.heap[r].text == text || Admit(s, Some(r), Extra(s, r, text), 0).Some?)
    ensures Bind(s, id, binding).1.None? ==> Bind(s, id, binding).0 == s
    ensures Bind(s, id, binding).1.Some? <==> id in s.records || Admit(s, None, 0, 1).Some?
  {
    hide Admit, Utf8, Weight, Sum, Weights;
    if Current(s, r) && Admit(s, Some(r), Extra(s, r, text), 0).Some? { AdmitEffect(s, Some(r), Extra(s, r, text), 0); }
    if id in s.records { RecordKnown(s, id); }
  }

  lemma RecordKnown(s: State, id: string)
    requires Inv(s) && id in s.records
    ensures s.records[id] < |s.heap|
  {
  }

  /** A record that is bound or has an attempt in flight leaves the store only through `clear`. */
  lemma PinnedSurvives(s: State, ev: Event, r: nat)
    requires Inv(s) && Current(s, r) && !Evictable(s.heap[r]) && !ev.Clears?
    ensures Current(Next(s, ev), r)
  {
    hide Bind, Edit, Utf8, Inv;
    match ev
    case Binds(id, binding) => BindAt(s, id, binding, r);
    case Edits(q, text) => EditAt(s, q, text, r);
    case _ =>
  }

  // ----- one attempt per revision -----

  /** Revision `rev` of record `r` can never be sent again. */
  ghost predicate Fenced(s: State, r: nat, rev: nat) {
    Current(s, r) ==> s.heap[r].revision > rev || (s.heap[r].revision == rev && s.heap[r].unknownRevision == Some(rev))
  }

  lemma FinishFences(s: State, attempt: Attempt, outcome: Outcome)
    requires Inv(s) && Effective(s, attempt) && (outcome.Succeeded? || outcome.UnknownOutcome?)
    ensures Fenced(Finish(s, attempt, outcome), attempt.record, attempt.revision)
  {
  }

  lemma NextKeepsFence(s: State, ev: Event, r: nat, rev: nat)
    requires Inv(s) && r < |s.heap| && Fenced(s, r, rev)
    ensures Fenced(Next(s, ev), r, rev) && r < |Next(s, ev).heap|
  {
    hide Bind, Edit, Utf8, Inv;
    match ev
    case Binds(id, binding) => BindAt(s, id, binding, r);
    case Edits(q, text) => EditAt(s, q, text, r);
    case Blanks(q) => if q in s.blanking { NotCurrent(s, q); }
    case _ =>
  }

  lemma {:induction false} FenceHolds(states: seq<State>, events: seq<Event>, a: nat, b: nat, r: nat, rev: nat)
    requires IsRun(states, events) && states[0] == INITIAL && a <= b < |states|
    requires r < |states[a].heap| && Fenced(states[a], r, rev)
    ensures r < |states[b].heap| && Fenced(states[b], r, rev)
    decreases b
  {
    hide Inv, Next, Fenced;
    if a < b {
      FenceHolds(states, events, a, b - 1, r, rev);
      AlwaysBounded(states, events, b - 1);
      NextKeepsFence(states[b - 1], events[b - 1], r, rev);
    }
  }

  /**
   After an attempt ends as succeeded or unknown, no later attempt is ever begun for that
   record and revision, whatever is edited, evicted, rebound or cleared in between.
   */
  lemma NoSecondAttempt(states: seq<State>, events: seq<Event>, i: nat, j: nat)
    requires IsRun(states, events) && states[0] == INITIAL && i < j < |events|
    requires events[i].Finishes? && Effective(states[i], events[i].attempt)
    requires events[i].outcome.Succeeded? || events[i].outcome.UnknownOutcome?
    requires events[j].Begins? && events[j].record == events[i].attempt.record
    requires Begin(states[j], events[j].record).1.Some?
    ensures Begin(states[j], events[j].record).1.value.revision > events[i].attempt.revision
  {
    hide Inv, Fenced;
    AlwaysBounded(states, events, i);
    FinishFences(states[i], events[i].attempt, events[i].outcome);
    FenceHolds(states, events, i + 1, j, events[j].record, events[i].attempt.revision);
    FencedBegin(states[j], events[j].record, events[i].attempt.revision);
  }

  lemma FencedBegin(s: State, r: nat, rev: nat)
    requires Fenced(s, r, rev) && Begin(s, r).1.Some?
    ensures Begin(s, r).1.value.revision > rev
  {
  }

  /** A completion clears the text only if it is exactly what was submitted; otherwise the text stays. */
  lemma CompletionClearsOnlySubmitted(s: State, attempt: Attempt, outcome: Outcome)
    requires Inv(s) && Effective(s, attempt)
    ensures var before, after := s.heap[attempt.record], Finish(s, attempt, outcome).heap[attempt.record];
            if outcome.Succeeded? && before.revision == attempt.revision
            then before.text == attempt.text && after.text == "" && after.bytes == 0
            else after.text == before.text && after.bytes == before.bytes
  {
  }

  lemma {:induction false} EpochGrows(states: seq<State>, events: seq<Event>, a: nat, b: nat)
    requires IsRun(states, events) && states[0] == INITIAL && a <= b < |states|
    ensures states[a].epoch <= states[b].epoch
    decreases b
  {
    hide Next, Inv;
    if a < b {
      EpochGrows(states, events, a, b - 1);
      AlwaysBounded(states, events, b - 1);
      EpochStep(states[b - 1], events[b - 1]);
    }
  }

  lemma EpochStep(s: State, ev: Event)
    ensures Next(s, ev).epoch == if ev.Clears? then s.epoch + 1 else s.epoch
  {
    hide Admit, Edit, Current, Effective, Finished;
    match ev
    case Binds(id, binding) => AdmitEpoch(s, None, 0, 1);
    case Edits(q, text) => EditEpoch(s, q, text);
    case _ =>
  }

  lemma {:induction false} EvictEpoch(s: State, evicted: seq<nat>)
    requires InHeap(s.heap, evicted)
    ensures Evict(s, evicted).epoch == s.epoch
    decreases |evicted|
  {
    if evicted != [] {
      EvictEpoch(s.(records := s.records - {s.heap[evicted[0]].id}), evicted[1..]);
    }
  }

  lemma AdmitEpoch(s: State, record: Option<nat>, extra: int, count: int)
    ensures Admit(s, record, extra, count).Some? ==> Admit(s, record, extra, count).value.epoch == s.epoch
  {
    hide Victims, Choose, Evict, Sum, Weights;
    var victims := Victims(s, record, |s.heap|);
    var size, total := |s.records| + count, Sum(Weights(s)) + extra;
    ChosenAmong(s.heap, victims, size, total);
    if Choose(s.heap, victims, size, total).Some? { EvictEpoch(s, Choose(s.heap, victims, size, total).value); }
  }

  lemma EditEpoch(s: State, q: nat, text: string)
    ensures Edit(s, q, text).0.epoch == s.epoch
  {
    hide Admit, Current, Utf8, Weight;
    if q < |s.heap| {
      var d := s.heap[q];
      AdmitEpoch(s, Some(q), Utf8(text) + (if d.pending.Some? then d.pending.value.bytes else 0) - Weight(d), 0);
    }
    CurrentInHeap(s);
  }

  /** A completion begun before a `clear` changes nothing after it. */
  lemma ClearFencesCompletions(states: seq<State>, events: seq<Event>, i: nat, k: nat, j: nat, outcome: Outcome)
    requires IsRun(states, events) && states[0] == INITIAL && i < k < j < |states| && k < |events|
    requires events[i].Begins? && Begin(states[i], events[i].record).1.Some? && events[k].Clears?
    ensures Finish(states[j], Begin(states[i], events[i].record).1.value, outcome) == states[j]
  {
    hide Next, Inv;
    EpochGrows(states, events, i, k);
    AlwaysBounded(states, events, k);
    EpochStep(states[k], events[k]);
    EpochGrows(states, events, k + 1, j);
  }

  // ----- the store as the program runs it -----

  class DraftStore {
    var heap: seq<Draft>
    var records: map<string, nat>
    var epoch: nat
    var clock: nat
    var attempts: nat
    var blanking: set<nat>
    var unbinding: set<nat>

    function View(): State
      reads this
    {
      State(heap, records, epoch, clock, attempts, blanking, unbinding)
    }

    constructor ()
      ensures View() == INITIAL
    {
      heap, records, epoch, clock, attempts, blanking, unbinding := [], map[], 0, 0, 0, {}, {};
    }

    /** The retained weight, in-flight text that was edited over included. */
    method TotalWeight() returns (total: int)
      requires IndexOk(View())
      ensures total == Sum(Weights(View()))
    {
      hide Weight;
      total := 0;
      var rest := records.Keys;
      ghost var seen: map<string, int> := map[];
      while rest != {}
        invariant rest <= records.Keys
        invariant seen == map id | id in records && id !in rest :: Weight(heap[records[id]])
        invariant total == Sum(seen)
        decreases |rest|
      {
        var id :| id in rest;
        total := total + Weight(heap[records[id]]);
        SumSet(seen, id, Weight(heap[records[id]]));
        seen := seen[id := Weight(heap[records[id]])];
        rest := rest - {id};
      }
      assert seen == Weights(View());
    }

    /** Takes idle records, least recently used first, until the rest fits; changes nothing itself. */
    method ChooseVictims(record: Option<nat>, size0: int, total0: int) returns (chosen: Option<seq<nat>>)
      ensures chosen == Choose(heap, Victims(View(), record, |heap|), size0, total0)
    {
      hide Weight, Victims;
      var size, total := size0, total0;
      var victims := Victims(View(), record, |heap|);
      ghost var whole := Choose(heap, victims, size, total);
      var evicted: seq<nat> := [];
      assert whole.Some? ==> evicted + whole.value == whole.value;
      while !Fits(size, total)
        invariant InHeap(heap, victims)
        invariant match Choose(heap, victims, size, total)
                  case None => whole.None?
                  case Some(more) => whole == Some(evicted + more)
        decreases |victims|
      {
        if victims == [] { return None; }
        var victim := victims[0];
        victims := victims[1..];
        if size <= MAXIMUM_DRAFTS && Weight(heap[victim]) == 0 { continue; }
        ghost var more := Choose(heap, victims, size - 1, total - Weight(heap[victim]));
        assert more.Some? ==> evicted + ([victim] + more.value) == (evicted + [victim]) + more.value;
        evicted := evicted + [victim];
        size := size - 1;
        total := total - Weight(heap[victim]);
      }
      assert evicted + [] == evicted;
      return Some(evicted);
    }

    method Remove(evicted: seq<nat>)
      requires InHeap(heap, evicted)
      modifies this
      ensures View() == Evict(old(View()), evicted)
    {
      hide Current, Weight;
      var rest := evicted;
      while rest != []
        invariant InHeap(heap, rest)
        invariant Evict(View(), rest) == Evict(old(View()), evicted)
        decreases |rest|
      {
        records := records - {heap[rest[0]].id};
        rest := rest[1..];
      }
    }

    /** Evicts what it must, or refuses and evicts nothing. */
    method AdmitBytes(record: Option<nat>, extra: int, count: int) returns (ok: bool)
      requires IndexOk(View())
      modifies this
      ensures ok == Admit(old(View()), record, extra, count).Some?
      ensures View() == if ok then Admit(old(View()), record, extra, count).value else old(View())
    {
      hide Weights, Victims, Weight, Choose, Evict, Sum, IndexOk;
      var total := TotalWeight();
      ghost var s, size := View(), |records| + count;
      ghost var victims := Victims(s, record, |heap|);
      ChosenAmong(heap, victims, size, total + extra);
      var chosen := ChooseVictims(record, |records| + count, total + extra);
      if chosen.None? { return false; }
      Remove(chosen.value);
      return true;
    }

    method BindRecord(id: string, binding: nat) returns (r: Option<nat>)
      requires Inv(View())
      modifies this
      ensures (View(), r) == Bind(old(View()), id, binding)
    {
      hide Admit, Weights, Sum;
      if id !in records {
        AdmitEffectIfAny(View(), None, 0, 1);
        var ok := AdmitBytes(None, 0, 1);
        if !ok { return None; }
        records := records[id := |heap|];
        heap := heap + [Draft(id, "", 0, 0, None, None, {}, 0)];
      }
      var record := records[id];
      clock := clock + 1;
      heap := heap[record := heap[record].(used := clock, bindings := heap[record].bindings + {binding})];
      assert id !in old(records) ==> heap == old(heap) + [Draft(id, "", 0, 0, None, None, {binding}, clock)];
      return Some(record);
    }

    method UnbindRecord(r: nat, binding: nat)
      modifies this
      ensures View() == Unbind(old(View()), r, binding)
    {
      if r >= |heap| || binding !in heap[r].bindings { return; }
      heap := heap[r := heap[r].(bindings := heap[r].bindings - {binding})];
      clock := clock + 1;
      if heap[r].bindings == {} { heap := heap[r := heap[r].(used := clock)]; }
    }

    method EditRecord(r: nat, text: string) returns (ok: bool)
      requires Inv(View())
      modifies this
      ensures (View(), ok) == Edit(old(View()), r, text)
    {
      hide Admit, Weights, Sum, Utf8, Weight;
      if !Current(View(), r) { return false; }
      if heap[r].text == text { return true; }
      var bytes := Utf8(text);
      var next := bytes + if heap[r].pending.Some? then heap[r].pending.value.bytes else 0;
      AdmitEffectIfAny(View(), Some(r), next - Weight(heap[r]), 0);
      ok := AdmitBytes(Some(r), next - Weight(heap[r]), 0);
      if !ok { return false; }
      clock := clock + 1;
      heap := heap[r := heap[r].(text := text, bytes := bytes, revision := heap[r].revision + 1, unknownRevision := None, used := clock)];
    }

    method BeginAttempt(r: nat) returns (attempt: Option<Attempt>)
      modifies this
      ensures (View(), attempt) == Begin(old(View()), r)
    {
      if !Current(View(), r) || heap[r].pending.Some? || heap[r].unknownRevision == Some(heap[r].revision) { return None; }
      var begun := Attempt(attempts, epoch, r, heap[r].revision, heap[r].text, heap[r].bytes);
      attempts := attempts + 1;
      clock := clock + 1;
      heap := heap[r := heap[r].(pending := Some(begun), used := clock)];
      return Some(begun);
    }

    method FinishAttempt(attempt: Attempt, outcome: Outcome)
      modifies this
      ensures View() == Finish(old(View()), attempt, outcome)
    {
      if !Effective(View(), attempt) { return; }
      var r := attempt.record;
      heap := heap[r := heap[r].(pending := None)];
      if heap[r].revision == attempt.revision {
        if outcome.Succeeded? {
          heap := heap[r := heap[r].(text := "", bytes := 0, revision := heap[r].revision + 1, unknownRevision := None)];
        } else if outcome.UnknownOutcome? {
          heap := heap[r := heap[r].(unknownRevision := Some(attempt.revision))];
        }
      }
      clock := clock + 1;
      heap := heap[r := heap[r].(used := clock)];
    }

    method Fence()
      modifies this
      ensures View() == Clear(old(View()))
    {
      epoch := epoch + 1;
      clock := clock + 1;
      blanking := blanking + records.Values;
      records := map[];
    }

    method BlankRecord(r: nat)
      modifies this
      ensures View() == Blank(old(View()), r)
    {
      if r !in blanking || r >= |heap| { return; }
      heap := heap[r := heap[r].(text := "", bytes := 0, pending := None, unknownRevision := None)];
      blanking, unbinding := blanking - {r}, unbinding + {r};
    }

    method DropRecordBindings(r: nat)
      modifies this
      ensures View() == DropBindings(old(View()), r)
    {
      if r !in unbinding || r >= |heap| { return; }
      heap := heap[r := heap[r].(bindings := {})];
      unbinding := unbinding - {r};
    }
  }

  lemma AdmitEffectIfAny(s: State, record: Option<nat>, extra: int, count: int)
    requires IndexOk(s)
    ensures Admit(s, record, extra, count).Some? ==>
              var t := Admit(s, record, extra, count).value;
              t == s.(records := t.records) && forall id | id in t.records :: id in s.records && t.records[id] == s.records[id]
  {
    hide Admit;
    if Admit(s, record, extra, count).Some? { AdmitEffect(s, record, extra, count); }
  }
}
