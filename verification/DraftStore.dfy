/**
 The durable draft store. One IndexedDB transaction is one atomic step: it reads
 the addressed records, applies a compare-and-swap change, and commits records
 and aggregate counters together or leaves both unchanged.
 */
module DraftStore {
  import opened Wrappers
  import opened DraftRecords
  import opened Sums

  datatype Error = Invalid | Conflict(saved: Option<Record>) | Exhausted | Full | Refused

  datatype Database = Database(drafts: map<Key, Record>, aggregate: Option<Counters>)

  datatype Namespace = Namespace(endpoint: string, principal: string)

  type Saved = seq<Option<Record>>
  type Change = Saved -> Result<Saved, Error>

  /** A submission as prepared by the application before it is frozen. */
  datatype Submission = Submission(kind: Kind, id: string, envelope: string, textBytes: nat, images: nat, references: nat)

  datatype Settlement = Complete(receipt: string) | Rejected | NotAdmitted | Uncertain

  datatype Op =
    | Ensure(key: Key, header: string, creation: Option<Creation>, incarnation: string)
    | Edit(expected: Record, content: Content)
    | Freeze(expected: Record, submission: Submission, preserveEditor: bool)
    | Begin(expected: Record)
    | Settle(expected: Record, settlement: Settlement)
    | CancelPrepared(expected: Record)
    | MoveFresh(expected: Record, replacement: Record)
    | RemoveEmpty(expected: Record)

  // ----- compare-and-swap guards -----

  function Bump(n: nat): Result<nat, Error> {
    if n >= MAX_SAFE then Failure(Exhausted) else Success(n + 1)
  }

  function SameIncarnation(expected: Record, saved: Option<Record>): Result<Record, Error> {
    if saved.None? || saved.value.incarnation != expected.incarnation then Failure(Conflict(saved)) else Success(saved.value)
  }

  function SamePending(expected: Record, saved: Option<Record>): Result<Record, Error> {
    var r :- SameIncarnation(expected, saved);
    if r.pendingRevision != expected.pendingRevision || r.pending != expected.pending
    then Failure(Conflict(saved)) else Success(r)
  }

  // ----- the change each operation applies inside its transaction -----

  function Blank(key: Key, header: string, creation: Option<Creation>, incarnation: string): Record {
    Record(key, incarnation, 0, 0, "", [], [], header, creation, creation.None?, None, None)
  }

  function EditRecord(expected: Record, content: Content, saved: Option<Record>): Result<Option<Record>, Error> {
    var r :- SameIncarnation(expected, saved);
    if r.editRevision != expected.editRevision then Failure(Conflict(saved)) else
    var next :- Bump(r.editRevision);
    Success(Some(r.(text := content.text, images := content.images, references := content.references, editRevision := next)))
  }

  function FreezeRecord(expected: Record, s: Submission, preserveEditor: bool, saved: Option<Record>): Result<Option<Record>, Error> {
    var r :- SamePending(expected, saved);
    if r.pending.Some? then Failure(Conflict(saved)) else
    var next :- Bump(r.pendingRevision);
    Success(Some(r.(
      pending := Some(Pending(s.kind, s.id, s.envelope, preserveEditor, s.textBytes, s.images, s.references, Prepared, expected.editRevision)),
      pendingRevision := next)))
  }

  function BeginRecord(expected: Record, saved: Option<Record>): Result<Option<Record>, Error> {
    var r :- SamePending(expected, saved);
    var _ :- Need(r.pending.Some? && r.pending.value.phase == Prepared, Refused);
    var next :- Bump(r.pendingRevision);
    Success(Some(r.(pending := Some(r.pending.value.(phase := Dispatching)), everDispatched := true, pendingRevision := next)))
  }

  /** Completion clears the editor only if nothing was typed after the captured revision. */
  predicate ClearsEditor(r: Record)
    requires r.pending.Some?
  {
    && !r.pending.value.preserveEditor
    && r.pending.value.kind != Queue
    && r.editRevision == r.pending.value.editRevision
  }

  function Retire(r: Record, settlement: Settlement): Result<Record, Error>
    requires r.pending.Some?
  {
    match settlement
    case Complete(receipt) =>
      if ClearsEditor(r) then
        var next :- Bump(r.editRevision);
        Success(r.(receipt := Some(receipt), text := "", images := [], references := [], editRevision := next, pending := None))
      else
        Success(r.(receipt := Some(receipt), pending := None))
    case Rejected =>
      if r.pending.value.kind != Queue then Failure(Refused) else Success(r.(pending := None))
    case NotAdmitted => Success(r.(pending := Some(r.pending.value.(phase := Prepared))))
    case Uncertain => Success(r.(pending := Some(r.pending.value.(phase := Unknown))))
  }

  function SettleRecord(expected: Record, settlement: Settlement, saved: Option<Record>): Result<Option<Record>, Error> {
    var r :- SamePending(expected, saved);
    if r.pending.None? then Failure(Refused) else
    var settled :- Retire(r, settlement);
    var next :- Bump(settled.pendingRevision);
    Success(Some(settled.(pendingRevision := next)))
  }

  function CancelRecord(expected: Record, saved: Option<Record>): Result<Option<Record>, Error> {
    var r :- SamePending(expected, saved);
    var _ :- Need(r.pending.Some? && r.pending.value.phase == Prepared, Refused);
    var next :- Bump(r.pendingRevision);
    Success(Some(r.(pending := None, pendingRevision := next)))
  }

  function MoveRecords(expected: Record, replacement: Record, old_: Option<Record>, next_: Option<Record>): Result<(Option<Record>, Option<Record>), Error> {
    var from :- SamePending(expected, old_);
    var to :- SamePending(replacement, next_);
    if from.editRevision != expected.editRevision || to.editRevision != replacement.editRevision then Failure(Conflict(old_)) else
    var _ :- Need(from.creation.Some? && !from.everDispatched && from.pending.None?, Refused);
    var _ :- Need(from.references == [], Refused);
    var _ :- Need(ContentOf(to) == EMPTY && to.pending.None? && to.creation.Some? && !to.everDispatched, Refused);
    var a, b := from.creation.value, to.creation.value;
    var _ :- Need(a.workspace == b.workspace && a.preset == b.preset && a.fork == b.fork, Refused);
    var revision :- Bump(to.editRevision);
    Success((None, Some(to.(text := from.text, images := from.images, editRevision := revision))))
  }

  function RemoveRecord(expected: Record, saved: Option<Record>): Result<Option<Record>, Error> {
    var r :- SamePending(expected, saved);
    if r.editRevision != expected.editRevision then Failure(Conflict(saved)) else
    var _ :- Need(ContentOf(r) == EMPTY && r.pending.None?, Refused);
    Success(None)
  }

  /** The single-record change of every operation other than a move. */
  function Rewrite(op: Op, saved: Option<Record>): Result<Option<Record>, Error>
    requires !op.MoveFresh?
  {
    match op
    case Ensure(key, header, creation, incarnation) =>
      Success(if saved.Some? then saved else Some(Blank(key, header, creation, incarnation)))
    case Edit(expected, content) => EditRecord(expected, content, saved)
    case Freeze(expected, s, preserve) => FreezeRecord(expected, s, preserve, saved)
    case Begin(expected) => BeginRecord(expected, saved)
    case Settle(expected, settlement) => SettleRecord(expected, settlement, saved)
    case CancelPrepared(expected) => CancelRecord(expected, saved)
    case RemoveEmpty(expected) => RemoveRecord(expected, saved)
  }

  function ChangeOf(op: Op): Change {
    if op.MoveFresh? then
      (saved: Saved) =>
        if |saved| != 2 then Failure(Invalid) else
        match MoveRecords(op.expected, op.replacement, saved[0], saved[1])
        case Success(pair) => Success([pair.0, pair.1])
        case Failure(e) => Failure(e)
    else
      (saved: Saved) =>
        if |saved| != 1 then Failure(Invalid) else
        match Rewrite(op, saved[0])
        case Success(next) => Success([next])
        case Failure(e) => Failure(e)
  }

  function KeysOf(op: Op): (keys: seq<Key>)
    ensures 1 <= |keys| <= 2
  {
    match op
    case Ensure(key, _, _, _) => [key]
    case MoveFresh(expected, replacement) => [expected.key, replacement.key]
    case Edit(expected, _) => [expected.key]
    case Freeze(expected, _, _) => [expected.key]
    case Begin(expected) => [expected.key]
    case Settle(expected, _) => [expected.key]
    case CancelPrepared(expected) => [expected.key]
    case RemoveEmpty(expected) => [expected.key]
  }

  /** Refusals made before a transaction is opened. */
  predicate Admissible(op: Op) {
    match op
    case Edit(_, content) => ValidContent(content)
    case Freeze(_, s, preserve) => preserve ==> s.kind == Command
    case _ => true
  }

  // ----- one transaction -----

  predicate Addressed(ns: Namespace, keys: seq<Key>) {
    && 0 < |keys| <= 2
    && (|keys| == 2 ==> keys[0] != keys[1])
    && (forall i | 0 <= i < |keys| ::
          keys[i].endpoint == ns.endpoint && keys[i].principal == ns.principal && keys[i].surface == keys[0].surface)
  }

  function Read(drafts: map<Key, Record>, keys: seq<Key>): (saved: Saved)
    ensures |saved| == |keys|
    ensures forall i | 0 <= i < |keys| :: saved[i] == Lookup(drafts, keys[i])
  {
    seq(|keys|, i requires 0 <= i < |keys| => Lookup(drafts, keys[i]))
  }

  function Put(drafts: map<Key, Record>, key: Key, record: Option<Record>): map<Key, Record> {
    if record.Some? then drafts[key := record.value] else drafts - {key}
  }

  function PutAll(drafts: map<Key, Record>, keys: seq<Key>, next: Saved): map<Key, Record>
    requires |keys| == |next|
  {
    if keys == [] then drafts
    else Put(PutAll(drafts, keys[..|keys| - 1], next[..|next| - 1]), keys[|keys| - 1], next[|next| - 1])
  }

  function Charge(counts: Counters, saved: Saved, next: Saved): Counters
    requires |saved| == |next|
  {
    if saved == [] then counts
    else Charge(counts, saved[..|saved| - 1], next[..|next| - 1]).Minus(Usage(saved[|saved| - 1])).Plus(Usage(next[|next| - 1]))
  }

  predicate Storable(keys: seq<Key>, next: Saved) {
    && |next| == |keys|
    && (forall i | 0 <= i < |next| && next[i].Some? :: ValidRecord(next[i].value) && next[i].value.key == keys[i])
  }

  function Transact(db: Database, ns: Namespace, keys: seq<Key>, change: Change): (Database, Result<Saved, Error>) {
    if !Addressed(ns, keys) then (db, Failure(Invalid)) else
    var saved := Read(db.drafts, keys);
    var counts := db.aggregate.GetOr(ZERO);
    if !(forall i | 0 <= i < |saved| && saved[i].Some? :: ValidRecord(saved[i].value)) || !counts.Within() then (db, Failure(Invalid)) else
    match change(saved)
    case Failure(e) => (db, Failure(e))
    case Success(next) =>
      if !Storable(keys, next) then (db, Failure(Invalid)) else
      var total := Charge(counts, saved, next);
      if !total.Within() then (db, Failure(Full)) else
      (Database(PutAll(db.drafts, keys, next), Some(total)), Success(next))
  }

  function Apply(db: Database, ns: Namespace, op: Op): (Database, Result<Saved, Error>) {
    if !Admissible(op) then (db, Failure(Invalid)) else Transact(db, ns, KeysOf(op), ChangeOf(op))
  }

  // ----- aggregate accounting -----

  /** What each saved record costs in one dimension. */
  ghost function Costs(drafts: map<Key, Record>, dimension: nat): map<Key, int>
    requires dimension < 4
  {
    map k | k in drafts :: Usage(Some(drafts[k])).At(dimension)
  }

  /** Sum of the cost of every saved record. */
  ghost function Total(drafts: map<Key, Record>): Counters {
    Counters(Sum(Costs(drafts, 0)), Sum(Costs(drafts, 1)), Sum(Costs(drafts, 2)), Sum(Costs(drafts, 3)))
  }

  ghost predicate RecordsValid(drafts: map<Key, Record>) {
    forall k | k in drafts :: ValidRecord(drafts[k]) && drafts[k].key == k
  }

  /** The integrity check made when storage is opened. */
  ghost predicate Consistent(db: Database) {
    && RecordsValid(db.drafts)
    && Total(db.drafts).Within()
    && db.aggregate.GetOr(ZERO) == Total(db.drafts)
  }

  lemma CostAfterPut(drafts: map<Key, Record>, key: Key, record: Option<Record>, d: nat)
    requires d < 4
    ensures Sum(Costs(Put(drafts, key, record), d))
         == Sum(Costs(drafts, d)) - Usage(Lookup(drafts, key)).At(d) + Usage(record).At(d)
  {
    hide Usage;
    assert forall e: nat :: ZERO.At(e) == 0;
    assert Usage(None) == ZERO by { UsageOfNone(); }
    var costs := Costs(drafts, d);
    if record.Some? {
      SumSet(costs, key, Usage(record).At(d));
      assert Costs(Put(drafts, key, record), d) == costs[key := Usage(record).At(d)];
    } else {
      SumDrop(costs, key);
      assert Costs(Put(drafts, key, record), d) == costs - {key};
    }
  }

  lemma EmptyTotal()
    ensures Total(map[]) == ZERO
  {
    assert forall d: nat | d < 4 :: Costs(map[], d) == map[];
  }

  lemma UsageOfNone()
    ensures Usage(None) == ZERO
  {
  }

  /** Replacing one record changes the aggregate by exactly the difference in its cost. */
  lemma TotalAfterPut(drafts: map<Key, Record>, key: Key, record: Option<Record>)
    ensures Total(Put(drafts, key, record)) == Total(drafts).Minus(Usage(Lookup(drafts, key))).Plus(Usage(record))
  {
    hide Usage;
    forall d: nat | d < 4
      ensures Sum(Costs(Put(drafts, key, record), d))
           == Sum(Costs(drafts, d)) - Usage(Lookup(drafts, key)).At(d) + Usage(record).At(d)
    {
      CostAfterPut(drafts, key, record, d);
    }
  }

  lemma UsageNonNegative(r: Record, d: nat)
    requires d < 4
    ensures Usage(Some(r)).At(d) >= 0
  {
  }

  /** A scan that has already passed a limit cannot come back under it. */
  lemma PartialTotal(seen: map<Key, Record>, drafts: map<Key, Record>)
    requires forall k | k in seen :: k in drafts && seen[k] == drafts[k]
    ensures Total(drafts).Within() ==> Total(seen).Within()
  {
    hide Usage;
    forall d: nat | d < 4
      ensures 0 <= Sum(Costs(seen, d)) <= Sum(Costs(drafts, d))
    {
      forall r: Record ensures Usage(Some(r)).At(d) >= 0 { UsageNonNegative(r, d); }
      SumNonNegative(Costs(seen, d));
      SumPart(Costs(seen, d), Costs(drafts, d));
    }
  }

  predicate Distinct(keys: seq<Key>) {
    forall i, j | 0 <= i < j < |keys| :: keys[i] != keys[j]
  }

  /** A transaction touches exactly the keys it addresses. */
  lemma {:induction false} PutAllAt(drafts: map<Key, Record>, keys: seq<Key>, next: Saved, k: Key)
    requires |keys| == |next| && Distinct(keys)
    ensures k !in keys ==> Lookup(PutAll(drafts, keys, next), k) == Lookup(drafts, k)
    ensures forall i | 0 <= i < |keys| && keys[i] == k :: Lookup(PutAll(drafts, keys, next), k) == next[i]
  {
    if keys != [] {
      var n := |keys| - 1;
      PutAllAt(drafts, keys[..n], next[..n], k);
      assert forall i | 0 <= i < n :: keys[..n][i] == keys[i] && next[..n][i] == next[i];
    }
  }

  /** Records addressed by distinct keys are independent, so costs add up over a two-record transaction. */
  lemma {:induction false} TotalAfterPutAll(drafts: map<Key, Record>, keys: seq<Key>, next: Saved)
    requires |keys| == |next| && Distinct(keys)
    ensures Total(PutAll(drafts, keys, next)) == Charge(Total(drafts), Read(drafts, keys), next)
  {
    hide Usage, Total, Lookup, Put;
    if keys != [] {
      var n := |keys| - 1;
      var before := PutAll(drafts, keys[..n], next[..n]);
      TotalAfterPutAll(drafts, keys[..n], next[..n]);
      TotalAfterPut(before, keys[n], next[n]);
      PutAllAt(drafts, keys[..n], next[..n], keys[n]);
      assert Lookup(before, keys[n]) == Lookup(drafts, keys[n]);
      var saved := Read(drafts, keys);
      assert saved[..n] == Read(drafts, keys[..n]);
      assert saved[n] == Lookup(drafts, keys[n]);
    }
  }

  /** Every committed transaction leaves records valid and the aggregate exact and within its limits. */
  lemma ApplyKeepsConsistent(db: Database, ns: Namespace, op: Op)
    requires Consistent(db)
    ensures Consistent(Apply(db, ns, op).0)
  {
    hide Usage, ValidRecord, Charge, PutAll, ChangeOf, Admissible, Total;
    var (after, result) := Apply(db, ns, op);
    if result.Success? {
      var keys := KeysOf(op);
      TotalAfterPutAll(db.drafts, keys, result.value);
      forall k | k in after.drafts
        ensures ValidRecord(after.drafts[k]) && after.drafts[k].key == k
      {
        PutAllAt(db.drafts, keys, result.value, k);
        assert Lookup(after.drafts, k) == Some(after.drafts[k]);
        if k !in keys {
          assert Lookup(db.drafts, k) == Some(after.drafts[k]);
        }
      }
    }
  }

  // ----- the store as the program runs it -----

  /** The shared IndexedDB database; every tab holds the same object. */
  class ObjectStores {
    var drafts: map<Key, Record>
    var aggregate: Option<Counters>

    constructor ()
      ensures drafts == map[] && aggregate == None
    {
      drafts, aggregate := map[], None;
    }

    function View(): Database
      reads this
    {
      Database(drafts, aggregate)
    }
  }

  class Store {
    const stores: ObjectStores
    const namespace: Namespace

    constructor (stores: ObjectStores, namespace: Namespace)
      ensures this.stores == stores && this.namespace == namespace
    {
      this.stores, this.namespace := stores, namespace;
    }

    method MutateMany(keys: seq<Key>, change: Change) returns (result: Result<Saved, Error>)
      modifies stores
      ensures (stores.View(), result) == Transact(old(stores.View()), namespace, keys, change)
    {
      hide Usage, ValidRecord;
      if !Addressed(namespace, keys) { return Failure(Invalid); }
      var saved: Saved := [];
      for i := 0 to |keys|
        invariant |saved| == i && forall j | 0 <= j < i :: saved[j] == Lookup(stores.drafts, keys[j])
      {
        saved := saved + [Lookup(stores.drafts, keys[i])];
      }
      assert saved == Read(stores.drafts, keys);
      var counts := stores.aggregate.GetOr(ZERO);
      if exists i | 0 <= i < |saved| :: saved[i].Some? && !ValidRecord(saved[i].value) { return Failure(Invalid); }
      if !counts.Within() { return Failure(Invalid); }
      var changed := change(saved);
      if changed.Failure? { return Failure(changed.error); }
      var next := changed.value;
      if !Storable(keys, next) { return Failure(Invalid); }
      var total := counts;
      for i := 0 to |keys|
        invariant total == Charge(counts, saved[..i], next[..i])
      {
        total := total.Minus(Usage(saved[i])).Plus(Usage(next[i]));
        assert saved[..i + 1][..i] == saved[..i] && next[..i + 1][..i] == next[..i];
      }
      assert saved[..|keys|] == saved && next[..|keys|] == next;
      if !total.Within() { return Failure(Full); }
      ghost var before := stores.drafts;
      for i := 0 to |keys|
        invariant stores.drafts == PutAll(before, keys[..i], next[..i])
        invariant stores.aggregate == old(stores.aggregate)
      {
        stores.drafts := Put(stores.drafts, keys[i], next[i]);
        assert keys[..i + 1][..i] == keys[..i] && next[..i + 1][..i] == next[..i];
      }
      assert keys[..|keys|] == keys;
      stores.aggregate := Some(total);
      return Success(next);
    }

    /** Runs one draft operation; only this tab's namespace can be addressed. */
    method Run(op: Op) returns (result: Result<Saved, Error>)
      modifies stores
      ensures (stores.View(), result) == Apply(old(stores.View()), namespace, op)
    {
      if !Admissible(op) { return Failure(Invalid); }
      result := MutateMany(KeysOf(op), ChangeOf(op));
    }

    /** The totals of all records, unless one is invalid or they exceed a limit. */
    method ScanRecords() returns (total: Option<Counters>)
      ensures total.Some? <==> RecordsValid(stores.drafts) && Total(stores.drafts).Within()
      ensures total.Some? ==> total.value == Total(stores.drafts)
    {
      hide Usage, ValidRecord, Total, Consistent;
      EmptyTotal();
      var totals, rest := ZERO, stores.drafts.Keys;
      ghost var seen: map<Key, Record> := map[];
      while rest != {}
        invariant rest <= stores.drafts.Keys
        invariant seen.Keys == stores.drafts.Keys - rest
        invariant forall k | k in seen :: seen[k] == stores.drafts[k]
        invariant RecordsValid(seen)
        invariant totals == Total(seen) && totals.Within()
        decreases |rest|
      {
        var key :| key in rest;
        var record := stores.drafts[key];
        if !ValidRecord(record) || record.key != key { return None; }
        TotalAfterPut(seen, key, Some(record));
        UsageOfNone();
        totals := totals.Plus(Usage(Some(record)));
        rest := rest - {key};
        seen := seen[key := record];
        if !totals.Within() {
          if RecordsValid(stores.drafts) { PartialTotal(seen, stores.drafts); }
          return None;
        }
      }
      assert seen == stores.drafts;
      return Some(totals);
    }

    /** Recomputes the totals; no consistent database is refused, and nothing else is admitted. */
    method Verify() returns (ok: bool)
      ensures ok <==> Consistent(stores.View()) && (stores.aggregate.Some? ==> stores.aggregate.value.Within())
    {
      hide Usage, ValidRecord, Total;
      var totals := ScanRecords();
      if totals.None? { return false; }
      if stores.aggregate.Some? && !stores.aggregate.value.Within() { return false; }
      ok := stores.aggregate.GetOr(ZERO) == totals.value;
    }
  }
}
