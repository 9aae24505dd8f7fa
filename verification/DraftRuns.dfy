/**
 What every run of draft transactions keeps, whatever tabs issue them and however
 stale the snapshots they pass.
 */
module DraftRuns {
  import opened Wrappers
  import opened DraftRecords
  import opened DraftStore

  /** One transaction by some tab. The snapshots inside `op` are arbitrary. */
  datatype Event = Event(namespace: Namespace, op: Op)

  function Step(db: Database, e: Event): Database {
    Apply(db, e.namespace, e.op).0
  }

  predicate Succeeds(db: Database, e: Event) {
    Apply(db, e.namespace, e.op).1.Success?
  }

  /** `dbs[i]` is the committed database before event `i`. */
  ghost predicate IsRun(dbs: seq<Database>, es: seq<Event>) {
    && |dbs| == |es| + 1
    && (forall i {:trigger es[i]} | 0 <= i < |es| :: dbs[i + 1] == Step(dbs[i], es[i]))
  }

  /** The random incarnation of every new record has not been stored before. */
  ghost predicate FreshIncarnations(dbs: seq<Database>, es: seq<Event>)
    requires IsRun(dbs, es)
  {
    forall i, j, k | 0 <= i <= j < |es| && es[j].op.Ensure? && k in dbs[i].drafts ::
      dbs[i].drafts[k].incarnation != es[j].op.incarnation
  }

  function At(db: Database, k: Key): Option<Record> {
    Lookup(db.drafts, k)
  }

  function KeyOf(op: Op): Key {
    KeysOf(op)[0]
  }

  /** Event `i` committed and addressed `k`. */
  ghost predicate Commits(dbs: seq<Database>, es: seq<Event>, i: nat, k: Key)
    requires IsRun(dbs, es)
  {
    i < |es| && Succeeds(dbs[i], es[i]) && KeyOf(es[i].op) == k
  }

  // ----- what one transaction does to one key -----

  lemma StepAt(db: Database, e: Event, k: Key)
    ensures !Succeeds(db, e) ==> Step(db, e) == db
    ensures Succeeds(db, e) && k !in KeysOf(e.op) ==> At(Step(db, e), k) == At(db, k)
    ensures Succeeds(db, e) && !e.op.MoveFresh? && k == KeyOf(e.op) ==>
              Rewrite(e.op, At(db, k)) == Success(At(Step(db, e), k))
    ensures Succeeds(db, e) && e.op.MoveFresh? ==>
              && e.op.expected.key != e.op.replacement.key
              && MoveRecords(e.op.expected, e.op.replacement, At(db, e.op.expected.key), At(db, e.op.replacement.key))
                 == Success((At(Step(db, e), e.op.expected.key), At(Step(db, e), e.op.replacement.key)))
  {
    hide ValidRecord, Usage, Charge, PutAll, Rewrite, MoveRecords;
    if Succeeds(db, e) {
      var keys := KeysOf(e.op);
      var next := Apply(db, e.namespace, e.op).1.value;
      PutAllAt(db.drafts, keys, next, k);
      PutAllAt(db.drafts, keys, next, keys[0]);
      if e.op.MoveFresh? { PutAllAt(db.drafts, keys, next, keys[1]); }
      assert Read(db.drafts, keys)[0] == At(db, keys[0]);
    }
  }

  // ----- a submission is dispatched once -----

  predicate InFlight(r: Option<Record>) {
    r.Some? && r.value.pending.Some? && r.value.pending.value.phase != Prepared
  }

  predicate CanBegin(r: Option<Record>) {
    r.Some? && r.value.pending.Some? && r.value.pending.value.phase == Prepared
  }

  predicate Retires(op: Op) {
    op.Settle? && (op.settlement.Complete? || op.settlement.Rejected?)
  }

  predicate Readmits(op: Op) {
    op.Settle? && op.settlement.NotAdmitted?
  }

  /**
   A dispatching or unknown submission is never cancelled, edited away, moved or removed:
   it stays, with everything but its phase unchanged, until a settlement retires it.
   */
  lemma InFlightLeavesOnlyBySettle(db: Database, e: Event, k: Key)
    requires InFlight(At(db, k))
    ensures var before, after := At(db, k).value, At(Step(db, e), k);
            || (after.Some? && after.value.incarnation == before.incarnation && after.value.pending.Some?
                && after.value.pending.value == before.pending.value.(phase := after.value.pending.value.phase)
                && (after.value.pending.value.phase == Prepared ==> Succeeds(db, e) && KeyOf(e.op) == k && Readmits(e.op)))
            || (Succeeds(db, e) && KeyOf(e.op) == k && Retires(e.op)
                && after.Some? && after.value.incarnation == before.incarnation && after.value.pending.None?)
  {
    hide Apply;
    StepAt(db, e, k);
  }

  /** No pending submission appears except by freezing one. */
  lemma PendingOnlyByFreeze(db: Database, e: Event, k: Key)
    requires At(db, k).None? || At(db, k).value.pending.None?
    ensures var after := At(Step(db, e), k);
            || after.None? || after.value.pending.None?
            || (Succeeds(db, e) && KeyOf(e.op) == k && e.op.Freeze? && CanBegin(after))
  {
    hide Apply;
    StepAt(db, e, k);
  }

  lemma BeginDispatches(db: Database, e: Event)
    requires Succeeds(db, e) && e.op.Begin?
    ensures CanBegin(At(db, KeyOf(e.op))) && InFlight(At(Step(db, e), KeyOf(e.op)))
  {
    hide Apply;
    StepAt(db, e, KeyOf(e.op));
  }

  /** From a record with no submission, the next one to begin was frozen in between. */
  lemma {:induction false} FrozenBefore(dbs: seq<Database>, es: seq<Event>, a: nat, j: nat, k: Key) returns (m: nat)
    requires IsRun(dbs, es) && a <= j < |dbs|
    requires At(dbs[a], k).None? || At(dbs[a], k).value.pending.None?
    requires CanBegin(At(dbs[j], k))
    ensures a <= m < j && Commits(dbs, es, m, k) && es[m].op.Freeze?
    decreases j - a
  {
    hide Apply;
    PendingOnlyByFreeze(dbs[a], es[a], k);
    if At(dbs[a + 1], k).None? || At(dbs[a + 1], k).value.pending.None? {
      m := FrozenBefore(dbs, es, a + 1, j, k);
    } else {
      m := a;
    }
  }

  /** From an in-flight submission, the next begin was preceded by a readmission, or by a retirement and a new freeze. */
  lemma {:induction false} ReleasedBefore(dbs: seq<Database>, es: seq<Event>, a: nat, j: nat, k: Key) returns (m: nat, f: nat)
    requires IsRun(dbs, es) && a <= j < |dbs|
    requires InFlight(At(dbs[a], k)) && CanBegin(At(dbs[j], k))
    ensures a <= m < j && Commits(dbs, es, m, k)
    ensures Readmits(es[m].op) || (Retires(es[m].op) && m < f < j && Commits(dbs, es, f, k) && es[f].op.Freeze?)
    decreases j - a
  {
    hide Apply;
    InFlightLeavesOnlyBySettle(dbs[a], es[a], k);
    if InFlight(At(dbs[a + 1], k)) {
      m, f := ReleasedBefore(dbs, es, a + 1, j, k);
    } else {
      m, f := a, a;
      if Retires(es[a].op) {
        f := FrozenBefore(dbs, es, a + 1, j, k);
      }
    }
  }

  /**
   At most one dispatch per submission. Between two committed begins of one draft,
   by any tabs and from any snapshots, either a settlement proved the first not
   admitted, or the first was retired and a new submission was frozen.
   */
  lemma DispatchedOnce(dbs: seq<Database>, es: seq<Event>, i: nat, j: nat)
    requires IsRun(dbs, es) && i < j < |es|
    requires Succeeds(dbs[i], es[i]) && es[i].op.Begin?
    requires Succeeds(dbs[j], es[j]) && es[j].op.Begin?
    requires KeyOf(es[i].op) == KeyOf(es[j].op)
    ensures exists m | i < m < j ::
              && Commits(dbs, es, m, KeyOf(es[i].op))
              && (Readmits(es[m].op)
                  || (Retires(es[m].op) && exists f | m < f < j :: Commits(dbs, es, f, KeyOf(es[i].op)) && es[f].op.Freeze?))
  {
    hide Apply;
    BeginDispatches(dbs[i], es[i]);
    BeginDispatches(dbs[j], es[j]);
    var m, f := ReleasedBefore(dbs, es, i + 1, j, KeyOf(es[i].op));
  }

  // ----- incarnations -----

  /** The snapshot a transaction compares against under key `k`. */
  predicate Expects(op: Op, r: Record) {
    match op
    case Ensure(_, _, _, _) => false
    case MoveFresh(expected, replacement) => expected == r || replacement == r
    case _ => op.expected == r
  }

  predicate Gone(r: Option<Record>, incarnation: string) {
    r.None? || r.value.incarnation != incarnation
  }

  lemma IncarnationStep(db: Database, e: Event, k: Key, incarnation: string)
    requires Gone(At(db, k), incarnation)
    requires e.op.Ensure? ==> e.op.incarnation != incarnation
    ensures Gone(At(Step(db, e), k), incarnation)
  {
    hide Apply;
    StepAt(db, e, k);
  }

  /** Once an incarnation has left its key it never comes back. */
  lemma {:induction false} StaysGone(dbs: seq<Database>, es: seq<Event>, a: nat, b: nat, c: nat, r: Record)
    requires IsRun(dbs, es) && FreshIncarnations(dbs, es) && a <= b <= c < |dbs|
    requires At(dbs[a], r.key) == Some(r) && Gone(At(dbs[b], r.key), r.incarnation)
    ensures Gone(At(dbs[c], r.key), r.incarnation)
    decreases c - b
  {
    hide Apply;
    if b < c {
      IncarnationStep(dbs[b], es[b], r.key, r.incarnation);
      StaysGone(dbs, es, a, b + 1, c, r);
    }
  }

  /**
   A snapshot taken from a record that was later removed is refused for ever, even after
   the same draft is created again: the transaction fails and changes nothing.
   */
  lemma StaleIncarnationRefused(dbs: seq<Database>, es: seq<Event>, a: nat, b: nat, c: nat, r: Record)
    requires IsRun(dbs, es) && FreshIncarnations(dbs, es) && a <= b <= c < |es|
    requires At(dbs[a], r.key) == Some(r) && Gone(At(dbs[b], r.key), r.incarnation)
    requires Expects(es[c].op, r)
    ensures !Succeeds(dbs[c], es[c]) && dbs[c + 1] == dbs[c]
  {
    hide Apply;
    StaysGone(dbs, es, a, b, c, r);
    StepAt(dbs[c], es[c], r.key);
  }

  // ----- the edit revision identifies the content -----

  /** Within one incarnation the revision only grows, and equal revisions mean equal content. */
  predicate Follows(before: Record, after: Record) {
    && before.editRevision <= after.editRevision
    && (before.editRevision == after.editRevision ==> ContentOf(before) == ContentOf(after))
  }

  lemma RewriteFollows(op: Op, saved: Option<Record>)
    requires !op.MoveFresh? && saved.Some?
    requires Rewrite(op, saved).Success? && Rewrite(op, saved).value.Some?
    ensures Follows(saved.value, Rewrite(op, saved).value.value)
  {
    match op
    case Settle(_, settlement) => assert Retire(saved.value, settlement).Success?;
    case _ =>
  }

  lemma ContentStep(db: Database, e: Event, k: Key)
    requires At(db, k).Some? && At(Step(db, e), k).Some?
    requires At(db, k).value.incarnation == At(Step(db, e), k).value.incarnation
    ensures Follows(At(db, k).value, At(Step(db, e), k).value)
  {
    hide Apply, Rewrite;
    StepAt(db, e, k);
    if Succeeds(db, e) && !e.op.MoveFresh? && k == KeyOf(e.op) { RewriteFollows(e.op, At(db, k)); }
  }

  lemma {:induction false} RevisionIdentifiesContent(dbs: seq<Database>, es: seq<Event>, a: nat, b: nat, k: Key)
    requires IsRun(dbs, es) && FreshIncarnations(dbs, es) && a <= b < |dbs|
    requires At(dbs[a], k).Some? && At(dbs[a], k).value.key == k && At(dbs[b], k).Some?
    requires At(dbs[a], k).value.incarnation == At(dbs[b], k).value.incarnation
    ensures Follows(At(dbs[a], k).value, At(dbs[b], k).value)
    decreases b - a
  {
    hide Apply;
    if a < b {
      var r := At(dbs[a], k).value;
      if Gone(At(dbs[b - 1], k), r.incarnation) {
        StaysGone(dbs, es, a, b - 1, b, r);
        assert false;
      }
      RevisionIdentifiesContent(dbs, es, a, b - 1, k);
      ContentStep(dbs[b - 1], es[b - 1], k);
    }
  }

  // ----- settlement clears exactly what was frozen -----

  /** Whatever `r` has pending is the submission frozen from snapshot `s`, in the incarnation of `s`. */
  predicate HoldsSubmission(r: Option<Record>, s: Record, preserve: bool, kind: Kind) {
    r.None? || r.value.pending.None? ||
    (&& r.value.incarnation == s.incarnation
     && r.value.pending.value.editRevision == s.editRevision
     && r.value.pending.value.preserveEditor == preserve
     && r.value.pending.value.kind == kind)
  }

  lemma SubmissionStep(db: Database, e: Event, s: Record, preserve: bool, kind: Kind)
    requires HoldsSubmission(At(db, s.key), s, preserve, kind)
    requires !(Succeeds(db, e) && e.op.Freeze? && KeyOf(e.op) == s.key)
    ensures HoldsSubmission(At(Step(db, e), s.key), s, preserve, kind)
  {
    hide Apply;
    StepAt(db, e, s.key);
  }

  lemma {:induction false} SubmissionHeld(dbs: seq<Database>, es: seq<Event>, f: nat, j: nat, s: Record)
    requires IsRun(dbs, es) && f < j < |dbs|
    requires Succeeds(dbs[f], es[f]) && es[f].op.Freeze? && es[f].op.expected == s
    requires forall m | f < m < j :: !(Commits(dbs, es, m, s.key) && es[m].op.Freeze?)
    ensures HoldsSubmission(At(dbs[j], s.key), s, es[f].op.preserveEditor, es[f].op.submission.kind)
    decreases j
  {
    hide Apply;
    if j == f + 1 {
      StepAt(dbs[f], es[f], s.key);
    } else {
      SubmissionHeld(dbs, es, f, j - 1, s);
      SubmissionStep(dbs[j - 1], es[j - 1], s, es[f].op.preserveEditor, es[f].op.submission.kind);
    }
  }

  /** What completion does to the record, given the submission it retires. */
  lemma CompletionStep(db: Database, e: Event)
    requires Succeeds(db, e) && e.op.Settle? && e.op.settlement.Complete?
    ensures At(db, KeyOf(e.op)).Some? && At(db, KeyOf(e.op)).value.pending.Some? && At(Step(db, e), KeyOf(e.op)).Some?
    ensures ContentOf(At(Step(db, e), KeyOf(e.op)).value)
         == if ClearsEditor(At(db, KeyOf(e.op)).value) then EMPTY else ContentOf(At(db, KeyOf(e.op)).value)
  {
    hide Apply;
    StepAt(db, e, KeyOf(e.op));
  }

  /**
   Completion clears the editor exactly when it still holds what the snapshot given to
   freeze held; anything committed after that snapshot survives. `s` was committed at
   `a`, frozen at `f`, and its submission is completed at `j`.
   */
  lemma CompletionClearsFrozenContent(dbs: seq<Database>, es: seq<Event>, a: nat, f: nat, j: nat, s: Record)
    requires IsRun(dbs, es) && FreshIncarnations(dbs, es) && a <= f < j < |es|
    requires At(dbs[a], s.key) == Some(s)
    requires Succeeds(dbs[f], es[f]) && es[f].op.Freeze? && es[f].op.expected == s
    requires Commits(dbs, es, j, s.key) && es[j].op.Settle? && es[j].op.settlement.Complete?
    requires forall m | f < m < j :: !(Commits(dbs, es, m, s.key) && es[m].op.Freeze?)
    ensures At(dbs[j], s.key).Some? && At(dbs[j + 1], s.key).Some?
    ensures var before, after := At(dbs[j], s.key).value, At(dbs[j + 1], s.key).value;
            if !es[f].op.preserveEditor && es[f].op.submission.kind != Queue && before.editRevision == s.editRevision
            then ContentOf(before) == ContentOf(s) && ContentOf(after) == EMPTY
            else ContentOf(after) == ContentOf(before)
  {
    hide Apply;
    CompletionStep(dbs[j], es[j]);
    SubmissionHeld(dbs, es, f, j, s);
    RevisionIdentifiesContent(dbs, es, a, j, s.key);
  }

  // ----- accounting over whole runs -----

  /** Every reachable database passes the integrity check. */
  lemma {:induction false} AlwaysConsistent(dbs: seq<Database>, es: seq<Event>, i: nat)
    requires IsRun(dbs, es) && i < |dbs|
    requires Consistent(dbs[0])
    ensures Consistent(dbs[i])
  {
    hide Apply, Consistent;
    if i > 0 {
      AlwaysConsistent(dbs, es, i - 1);
      ApplyKeepsConsistent(dbs[i - 1], es[i - 1].namespace, es[i - 1].op);
    }
  }

  /** A move carries text and images over unchanged, charges nothing new and frees exactly one record. */
  lemma MoveConserves(db: Database, e: Event)
    requires Consistent(db) && Succeeds(db, e) && e.op.MoveFresh?
    ensures var from, to := At(db, e.op.expected.key), At(Step(db, e), e.op.replacement.key);
            && from.Some? && to.Some?
            && ContentOf(to.value) == ContentOf(from.value)
            && At(Step(db, e), e.op.expected.key).None?
            && to.value.incarnation == e.op.replacement.incarnation
    ensures Step(db, e).aggregate.Some?
    ensures Step(db, e).aggregate.value == db.aggregate.GetOr(ZERO).Minus(Counters(1, 0, 0, 0))
  {
    hide Transact, Total;
    StepAt(db, e, e.op.expected.key);
    MoveCost(db, e);
  }

  lemma MoveCost(db: Database, e: Event)
    requires Succeeds(db, e) && e.op.MoveFresh?
    ensures Step(db, e).aggregate.Some?
    ensures Step(db, e).aggregate.value
         == db.aggregate.GetOr(ZERO)
            .Minus(Usage(At(db, e.op.expected.key))).Plus(Usage(At(Step(db, e), e.op.expected.key)))
            .Minus(Usage(At(db, e.op.replacement.key))).Plus(Usage(At(Step(db, e), e.op.replacement.key)))
  {
    hide Usage, ValidRecord, PutAll, MoveRecords;
    StepAt(db, e, e.op.expected.key);
    var keys := KeysOf(e.op);
    var saved, next := Read(db.drafts, keys), Apply(db, e.namespace, e.op).1.value;
    PutAllAt(db.drafts, keys, next, keys[0]);
    PutAllAt(db.drafts, keys, next, keys[1]);
    assert saved[..1][..0] == [] && next[..1][..0] == [];
    assert Charge(db.aggregate.GetOr(ZERO), saved[..1], next[..1])
        == db.aggregate.GetOr(ZERO).Minus(Usage(saved[0])).Plus(Usage(next[0]));
  }
}
