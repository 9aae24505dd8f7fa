/**
 Bounded device records: a bucket holds at most a number of records and bytes, and writing
 one evicts the least recently used others. How many bytes a record takes and which keys
 are identities are parameters.
 */
module DeviceRecords {
  import opened Wrappers
  import S = Strings

  const LARGEST_SAFE_INTEGER: int := 9007199254740991
  const LARGEST_REVISION: int := 18446744073709551615

  datatype Record = Record(key: string, value: string, revision: int, used: int)

  datatype Budget = Budget(record: nat, count: nat, total: nat)

  const PREFERENCES := Budget(4096, 64, 256 * 1024)
  const ORDERS := Budget(128 * 1024, 16, 2 * 1024 * 1024)
  const LAYOUTS := Budget(32 * 1024, 64, 2 * 1024 * 1024)

  datatype Error = InvalidStorage | InvalidRecord | TooLarge | StorageFull | RevisionExhausted | NothingToEvict

  datatype Outcome = Outcome(records: seq<Record>, replacement: Record, changed: bool)

  /** How the bucket measures records and recognizes keys. */
  datatype Codec = Codec(bytes: Record -> nat, identity: string -> bool)

  predicate SafeUse(used: int) {
    0 <= used <= LARGEST_SAFE_INTEGER
  }

  predicate RecordOk(codec: Codec, r: Record) {
    codec.identity(r.key) && 0 <= r.revision <= LARGEST_REVISION && SafeUse(r.used)
  }

  predicate HasKey(records: seq<Record>, key: string) {
    exists i :: 0 <= i < |records| && records[i].key == key
  }

  function Find(records: seq<Record>, key: string): Option<Record> {
    if records == [] then None else if records[0].key == key then Some(records[0]) else Find(records[1..], key)
  }

  function Others(records: seq<Record>, key: string): seq<Record> {
    if records == [] then []
    else if records[0].key == key then Others(records[1..], key)
    else [records[0]] + Others(records[1..], key)
  }

  function TotalBytes(codec: Codec, records: seq<Record>): nat {
    if records == [] then 0 else codec.bytes(records[0]) + TotalBytes(codec, records[1..])
  }

  /** Checks the records of the bucket from `i` on; the total of all of them, or the first problem. */
  function Check(codec: Codec, budget: Budget, records: seq<Record>, i: nat): Result<nat, Error>
    requires i <= |records|
    decreases |records| - i
  {
    if i == |records| then Success(0)
    else if !RecordOk(codec, records[i]) || HasKey(records[..i], records[i].key) then Failure(InvalidRecord)
    else if codec.bytes(records[i]) > budget.record then Failure(TooLarge)
    else
      match Check(codec, budget, records, i + 1)
      case Failure(error) => Failure(error)
      case Success(rest) => Success(codec.bytes(records[i]) + rest)
  }

  // ----- least recently used first -----

  predicate Earlier(a: Record, b: Record) {
    a.used < b.used || (a.used == b.used && S.Less(a.key, b.key))
  }

  function Insert(r: Record, sorted: seq<Record>): seq<Record> {
    if sorted == [] || Earlier(r, sorted[0]) then [r] + sorted else [sorted[0]] + Insert(r, sorted[1..])
  }

  function Sort(records: seq<Record>): seq<Record> {
    if records == [] then [] else Insert(records[0], Sort(records[1..]))
  }

  predicate Over(budget: Budget, kept: nat, total: int) {
    kept + 1 > budget.count || total > budget.total
  }

  /** Drops records from the front until one more fits. */
  function Shed(codec: Codec, budget: Budget, records: seq<Record>, total: int): Result<seq<Record>, Error> {
    if !Over(budget, |records|, total) then Success(records)
    else if records == [] then Failure(NothingToEvict)
    else Shed(codec, budget, records[1..], total - codec.bytes(records[0]))
  }

  function Write(
    codec: Codec, budget: Budget, records: seq<Record>, key: string, value: string, now: int, same: bool)
    : Result<Outcome, Error>
  {
    if |records| > budget.count || !codec.identity(key) || !SafeUse(now) then Failure(InvalidStorage)
    else
      var total :- Check(codec, budget, records, 0);
      if total > budget.total then Failure(StorageFull)
      else
        var previous := Find(records, key);
        if same then Success(Outcome(records, previous.GetOr(Record(key, value, 0, now)), false))
        else
          var revision := 1 + if previous.Some? then previous.value.revision else 0;
          if revision > LARGEST_REVISION then Failure(RevisionExhausted)
          else
            var replacement := Record(key, value, revision, now);
            if codec.bytes(replacement) > budget.record then Failure(TooLarge)
            else
              var next := Others(records, key);
              var after := total - (if previous.Some? then codec.bytes(previous.value) else 0) + codec.bytes(replacement);
              var kept :- if Over(budget, |next|, after) then Shed(codec, budget, Sort(next), after) else Success(next);
              Success(Outcome(kept + [replacement], replacement, true))
  }

  // ----- what a bucket promises -----

  ghost predicate DistinctKeys(records: seq<Record>) {
    forall i, j | 0 <= i < j < |records| :: records[i].key != records[j].key
  }

  /** A bucket within its budgets. */
  ghost predicate Within(codec: Codec, budget: Budget, records: seq<Record>) {
    && |records| <= budget.count && TotalBytes(codec, records) <= budget.total
    && DistinctKeys(records)
    && (forall i | 0 <= i < |records| :: RecordOk(codec, records[i]) && codec.bytes(records[i]) <= budget.record)
  }

  lemma {:induction false} CheckAccepts(codec: Codec, budget: Budget, records: seq<Record>, i: nat)
    requires i <= |records| && DistinctKeys(records[..i])
    ensures Check(codec, budget, records, i).Success? <==>
              && DistinctKeys(records)
              && forall j | i <= j < |records| :: RecordOk(codec, records[j]) && codec.bytes(records[j]) <= budget.record
    ensures Check(codec, budget, records, i).Success? ==> Check(codec, budget, records, i).value == TotalBytes(codec, records[i..])
    decreases |records| - i
  {
    hide RecordOk;
    if i == |records| {
      assert records[..i] == records;
    } else if RecordOk(codec, records[i]) && !HasKey(records[..i], records[i].key) && codec.bytes(records[i]) <= budget.record {
      assert records[..i + 1] == records[..i] + [records[i]];
      assert DistinctKeys(records[..i + 1]);
      CheckAccepts(codec, budget, records, i + 1);
      assert records[i..][1..] == records[i + 1..];
    } else if HasKey(records[..i], records[i].key) {
      var k :| 0 <= k < i && records[..i][k].key == records[i].key;
      assert records[k].key == records[i].key;
    }
  }

  lemma {:induction false} FindFinds(records: seq<Record>, key: string)
    ensures Find(records, key).Some? <==> HasKey(records, key)
    ensures Find(records, key).Some? ==> Find(records, key).value in records && Find(records, key).value.key == key
    ensures forall r :: r in Others(records, key) <==> r in records && r.key != key
  {
    if records != [] {
      FindFinds(records[1..], key);
      assert records == [records[0]] + records[1..];
      assert records[0].key != key && HasKey(records[1..], key) ==> HasKey(records, key) by {
        if i :| 0 <= i < |records[1..]| && records[1..][i].key == key { assert records[i + 1].key == key; }
      }
    }
  }

  lemma HasKeyTail(records: seq<Record>, key: string)
    requires records != []
    ensures HasKey(records, key) <==> records[0].key == key || HasKey(records[1..], key)
  {
    if i :| 0 <= i < |records[1..]| && records[1..][i].key == key { assert records[i + 1].key == key; }
    if i :| 0 < i < |records| && records[i].key == key { assert records[1..][i - 1].key == key; }
  }

  lemma DistinctTail(records: seq<Record>)
    requires DistinctKeys(records) && records != []
    ensures DistinctKeys(records[1..]) && !HasKey(records[1..], records[0].key)
  {
    assert forall i | 0 <= i < |records[1..]| :: records[1..][i] == records[i + 1];
  }

  lemma DistinctCons(r: Record, rest: seq<Record>)
    requires DistinctKeys(rest) && !HasKey(rest, r.key)
    ensures DistinctKeys([r] + rest)
  {
  }

  lemma {:induction false} OthersDistinct(records: seq<Record>, key: string)
    requires DistinctKeys(records)
    ensures DistinctKeys(Others(records, key))
  {
    hide HasKey;
    if records != [] {
      DistinctTail(records);
      OthersDistinct(records[1..], key);
      FindFinds(records[1..], key);
      if HasKey(Others(records[1..], key), records[0].key) { HasKeyMember(records[1..], key, records[0].key); }
      DistinctConsIf(records[0], Others(records[1..], key));
    }
  }

  lemma DistinctConsIf(r: Record, rest: seq<Record>)
    ensures DistinctKeys(rest) && !HasKey(rest, r.key) ==> DistinctKeys([r] + rest)
  {
  }

  lemma HasKeyMember(records: seq<Record>, key: string, other: string)
    requires HasKey(Others(records, key), other)
    ensures HasKey(records, other)
  {
    FindFinds(records, key);
    var i :| 0 <= i < |Others(records, key)| && Others(records, key)[i].key == other;
    assert Others(records, key)[i] in Others(records, key);
    var k :| 0 <= k < |records| && records[k] == Others(records, key)[i];
  }

  lemma {:induction false} OthersSize(codec: Codec, records: seq<Record>, key: string)
    requires DistinctKeys(records)
    ensures |Others(records, key)| == |records| - if HasKey(records, key) then 1 else 0
    ensures TotalBytes(codec, Others(records, key)) ==
            TotalBytes(codec, records) - match Find(records, key) { case Some(r) => codec.bytes(r) as int case None => 0 }
  {
    hide DistinctKeys, HasKey;
    if records == [] {
      NoKeys(key);
    } else {
      DistinctTail(records);
      OthersSize(codec, records[1..], key);
      FindFinds(records[1..], key);
      HasKeyTail(records, key);
      assert records[0].key != key ==> ([records[0]] + Others(records[1..], key))[1..] == Others(records[1..], key);
    }
  }

  lemma NoKeys(key: string)
    ensures !HasKey([], key)
  {
  }

  // ----- the eviction order -----

  ghost predicate SortedByUse(records: seq<Record>) {
    forall i, j | 0 <= i < j < |records| :: Earlier(records[i], records[j])
  }

  lemma EarlierTransitive(a: Record, b: Record, c: Record)
    requires Earlier(a, b) && Earlier(b, c)
    ensures Earlier(a, c)
  {
    hide S.Less;
    if a.used == b.used && b.used == c.used { S.LessTransitive(a.key, b.key, c.key); }
  }

  lemma {:induction false} InsertMembers(codec: Codec, r: Record, sorted: seq<Record>)
    ensures multiset(Insert(r, sorted)) == multiset(sorted) + multiset{r}
    ensures forall x :: x in Insert(r, sorted) <==> x == r || x in sorted
    ensures TotalBytes(codec, Insert(r, sorted)) == codec.bytes(r) + TotalBytes(codec, sorted)
  {
    hide Earlier;
    if sorted == [] {
    } else if Earlier(r, sorted[0]) {
      assert ([r] + sorted)[1..] == sorted;
    } else {
      InsertMembers(codec, r, sorted[1..]);
      assert sorted == [sorted[0]] + sorted[1..];
      assert ([sorted[0]] + Insert(r, sorted[1..]))[1..] == Insert(r, sorted[1..]);
    }
  }

  lemma HasKeyNone(records: seq<Record>, key: string)
    ensures !HasKey(records, key) <==> forall r | r in records :: r.key != key
  {
  }

  lemma {:induction false} InsertDistinct(codec: Codec, r: Record, sorted: seq<Record>)
    requires DistinctKeys(sorted) && !HasKey(sorted, r.key)
    ensures DistinctKeys(Insert(r, sorted))
  {
    hide Earlier, HasKey, DistinctKeys;
    if sorted == [] || Earlier(r, sorted[0]) {
      DistinctCons(r, sorted);
    } else {
      DistinctTail(sorted);
      HasKeyTail(sorted, r.key);
      InsertDistinct(codec, r, sorted[1..]);
      InsertMembers(codec, r, sorted[1..]);
      HasKeyNone(sorted[1..], sorted[0].key);
      HasKeyNone(Insert(r, sorted[1..]), sorted[0].key);
      DistinctCons(sorted[0], Insert(r, sorted[1..]));
    }
  }

  lemma {:induction false} InsertSorted(codec: Codec, r: Record, sorted: seq<Record>)
    requires SortedByUse(sorted) && !HasKey(sorted, r.key)
    ensures SortedByUse(Insert(r, sorted))
  {
    hide Earlier;
    if sorted == [] {
    } else if Earlier(r, sorted[0]) {
      forall j | 0 < j < |sorted|
        ensures Earlier(r, sorted[j])
      {
        EarlierTransitive(r, sorted[0], sorted[j]);
      }
    } else {
      var rest := sorted[1..];
      assert forall i | 0 <= i < |rest| :: rest[i] == sorted[i + 1];
      InsertSorted(codec, r, rest);
      InsertMembers(codec, r, rest);
      EarlierTotal(r, sorted[0]);
      var out := Insert(r, rest);
      forall j | 0 <= j < |out|
        ensures Earlier(sorted[0], out[j])
      {
        assert out[j] in out;
        if out[j] != r { var k :| 0 <= k < |rest| && rest[k] == out[j]; }
      }
    }
  }

  lemma EarlierTotal(a: Record, b: Record)
    requires a.key != b.key
    ensures Earlier(a, b) || Earlier(b, a)
  {
    S.LessTotal(a.key, b.key);
  }

  lemma {:induction false} SortSorts(codec: Codec, records: seq<Record>)
    requires DistinctKeys(records)
    ensures SortedByUse(Sort(records)) && multiset(Sort(records)) == multiset(records)
    ensures TotalBytes(codec, Sort(records)) == TotalBytes(codec, records)
    ensures |Sort(records)| == |records| && DistinctKeys(Sort(records))
    ensures forall r :: r in Sort(records) <==> r in records
  {
    hide Earlier, Insert, DistinctKeys, SortedByUse, HasKey;
    if records == [] {
      NoRecords();
    } else {
      var rest := records[1..];
      assert records == [records[0]] + rest;
      DistinctTail(records);
      SortSorts(codec, rest);
      HasKeyNone(rest, records[0].key);
      HasKeyNone(Sort(rest), records[0].key);
      InsertSorted(codec, records[0], Sort(rest));
      InsertMembers(codec, records[0], Sort(rest));
      InsertDistinct(codec, records[0], Sort(rest));
      SameSize(Sort(records), records);
    }
  }

  lemma NoRecords()
    ensures DistinctKeys([]) && SortedByUse([])
  {
  }

  lemma SameSize<T>(a: seq<T>, b: seq<T>)
    requires multiset(a) == multiset(b)
    ensures |a| == |b|
  {
    assert |multiset(a)| == |a| && |multiset(b)| == |b|;
  }

  // ----- evicting -----

  /** `kept` is what remains after dropping `dropped` from the front, and no shorter prefix would do. */
  ghost predicate ShortestPrefix(codec: Codec, budget: Budget, all: seq<Record>, dropped: nat, total: int)
    requires dropped <= |all|
  {
    && !Over(budget, |all| - dropped, total - TotalBytes(codec, all[..dropped]))
    && forall k | 0 <= k < dropped :: Over(budget, |all| - k, total - TotalBytes(codec, all[..k]))
  }

  lemma TotalCons(codec: Codec, records: seq<Record>, k: nat)
    requires 0 < k <= |records|
    ensures TotalBytes(codec, records[..k]) == codec.bytes(records[0]) + TotalBytes(codec, records[1..][..k - 1])
  {
    assert records[..k][1..] == records[1..][..k - 1];
  }

  lemma {:induction false} TotalSplit(codec: Codec, records: seq<Record>, k: nat)
    requires k <= |records|
    ensures TotalBytes(codec, records) == TotalBytes(codec, records[..k]) + TotalBytes(codec, records[k..])
  {
    if k > 0 {
      TotalCons(codec, records, k);
      TotalSplit(codec, records[1..], k - 1);
      assert records[k..] == records[1..][k - 1..];
    }
  }

  /** Shedding drops the shortest sufficient prefix; it never runs dry when one record alone fits. */
  lemma {:induction false} ShedDropsShortest(codec: Codec, budget: Budget, records: seq<Record>, total: int) returns (dropped: nat)
    requires budget.count >= 1 && total - TotalBytes(codec, records) <= budget.total
    ensures dropped <= |records| && Shed(codec, budget, records, total) == Success(records[dropped..])
    ensures ShortestPrefix(codec, budget, records, dropped, total)
  {
    if !Over(budget, |records|, total) {
      dropped := 0;
    } else {
      var rest := records[1..];
      var more := ShedDropsShortest(codec, budget, rest, total - codec.bytes(records[0]));
      dropped := more + 1;
      assert rest[more..] == records[dropped..];
      TotalCons(codec, records, dropped);
      forall k | 0 <= k < dropped
        ensures Over(budget, |records| - k, total - TotalBytes(codec, records[..k]))
      {
        if k > 0 { TotalCons(codec, records, k); }
      }
    }
  }

  /** A budget under which one record of the largest allowed size always fits alone. */
  predicate BudgetOk(budget: Budget) {
    budget.count >= 1 && budget.record <= budget.total
  }

  function NextRecord(records: seq<Record>, key: string, value: string, now: int): Record {
    Record(key, value, 1 + (if Find(records, key).Some? then Find(records, key).value.revision else 0), now)
  }

  /**
   A bucket within its budgets refuses a write only for its own reasons: the key or the
   clock is malformed, the revision is exhausted, or the new record alone is too large. It
   is never found full, and eviction never runs dry.
   */
  lemma WriteRefuses(codec: Codec, budget: Budget, records: seq<Record>, key: string, value: string, now: int)
    requires BudgetOk(budget) && Within(codec, budget, records)
    ensures Write(codec, budget, records, key, value, now, false).Failure? <==>
              || !codec.identity(key) || !SafeUse(now)
              || NextRecord(records, key, value, now).revision > LARGEST_REVISION
              || codec.bytes(NextRecord(records, key, value, now)) > budget.record
  {
    hide Find, Others, Sort, TotalBytes, Check, DistinctKeys, RecordOk, Shed;
    if codec.identity(key) && SafeUse(now) && codec.bytes(NextRecord(records, key, value, now)) <= budget.record {
      var dropped := WriteShape(codec, budget, records, key, value, now);
    }
  }

  /** The others, in order of use when some must go and untouched otherwise. */
  function Candidates(codec: Codec, budget: Budget, records: seq<Record>, key: string, replacement: Record): seq<Record> {
    var next := Others(records, key);
    if Over(budget, |next|, TotalBytes(codec, next) + codec.bytes(replacement)) then Sort(next) else next
  }

  /**
   A write keeps the new value at the end and evicts exactly the shortest prefix of the
   others, least recently used first, that makes room; with room it evicts nothing.
   */
  lemma WriteShape(codec: Codec, budget: Budget, records: seq<Record>, key: string, value: string, now: int) returns (dropped: nat)
    requires BudgetOk(budget) && Within(codec, budget, records)
    requires codec.identity(key) && SafeUse(now) && codec.bytes(NextRecord(records, key, value, now)) <= budget.record
    ensures var replacement := NextRecord(records, key, value, now);
            var all := Candidates(codec, budget, records, key, replacement);
            && dropped <= |all|
            && ShortestPrefix(codec, budget, all, dropped, TotalBytes(codec, all) + codec.bytes(replacement))
            && Write(codec, budget, records, key, value, now, false) ==
               (if replacement.revision > LARGEST_REVISION then Failure(RevisionExhausted)
                else Success(Outcome(all[dropped..] + [replacement], replacement, true)))
  {
    hide Find, Others, Sort, DistinctKeys, RecordOk, Shed, TotalBytes;
    var replacement := NextRecord(records, key, value, now);
    var next := Others(records, key);
    var after := TotalBytes(codec, next) + codec.bytes(replacement);
    NonePrefix(codec, records);
    CheckAccepts(codec, budget, records, 0);
    OthersSize(codec, records, key);
    OthersDistinct(records, key);
    SortSorts(codec, next);
    if Over(budget, |next|, after) {
      dropped := ShedDropsShortest(codec, budget, Sort(next), after);
    } else {
      dropped := 0;
      NonePrefix(codec, next);
    }
  }

  lemma NonePrefix(codec: Codec, records: seq<Record>)
    ensures DistinctKeys(records[..0]) && records[0..] == records && TotalBytes(codec, records[..0]) == 0
  {
  }

  /** Every successful write leaves the bucket within its budgets. */
  lemma WriteKeepsBudget(codec: Codec, budget: Budget, records: seq<Record>, key: string, value: string, now: int)
    requires BudgetOk(budget) && Within(codec, budget, records)
    requires Write(codec, budget, records, key, value, now, false).Success?
    ensures var out := Write(codec, budget, records, key, value, now, false).value;
            && Within(codec, budget, out.records)
            && out.records != [] && out.records[|out.records| - 1] == out.replacement == NextRecord(records, key, value, now)
            && (forall r | r in out.records :: r == out.replacement || (r in records && r.key != key))
  {
    hide Others, Sort, TotalBytes, DistinctKeys, RecordOk, Shed, Write, Find, Over;
    WriteRefuses(codec, budget, records, key, value, now);
    var replacement := NextRecord(records, key, value, now);
    var all := Candidates(codec, budget, records, key, replacement);
    var dropped := WriteShape(codec, budget, records, key, value, now);
    var kept := all[dropped..];
    CandidateMembers(codec, budget, records, key, replacement);
    SuffixWithin(codec, budget, records, all, dropped, key, replacement);
  }

  lemma CandidateMembers(codec: Codec, budget: Budget, records: seq<Record>, key: string, replacement: Record)
    requires DistinctKeys(records)
    ensures var all := Candidates(codec, budget, records, key, replacement);
            DistinctKeys(all) && forall r :: r in all <==> r in records && r.key != key
  {
    hide Others, Sort, DistinctKeys;
    OthersDistinct(records, key);
    FindFinds(records, key);
    SortSorts(codec, Others(records, key));
  }

  lemma {:induction false} TotalAppend(codec: Codec, records: seq<Record>, r: Record)
    ensures TotalBytes(codec, records + [r]) == TotalBytes(codec, records) + codec.bytes(r)
  {
    if records == [] {
      assert [r][1..] == [];
    } else {
      TotalAppend(codec, records[1..], r);
      assert (records + [r])[1..] == records[1..] + [r];
    }
  }

  lemma FindRevision(codec: Codec, budget: Budget, records: seq<Record>, key: string)
    requires Within(codec, budget, records)
    ensures Find(records, key).Some? ==> Find(records, key).value.revision >= 0
  {
    hide Find, TotalBytes, DistinctKeys;
    FindFinds(records, key);
    if Find(records, key).Some? { var i :| 0 <= i < |records| && records[i] == Find(records, key).value; }
  }

  lemma SuffixMembers(records: seq<Record>, all: seq<Record>, dropped: nat, key: string)
    requires dropped <= |all| && DistinctKeys(all)
    requires forall r :: r in all <==> r in records && r.key != key
    ensures forall i | 0 <= i < |all[dropped..]| :: all[dropped..][i] in records && all[dropped..][i].key != key
    ensures DistinctKeys(all[dropped..]) && !HasKey(all[dropped..], key)
  {
    var kept := all[dropped..];
    forall i | 0 <= i < |kept|
      ensures kept[i] in records && kept[i].key != key
    {
      assert kept[i] == all[dropped + i] && kept[i] in all;
    }
  }

  lemma AppendDistinct(kept: seq<Record>, r: Record)
    requires DistinctKeys(kept) && !HasKey(kept, r.key)
    ensures DistinctKeys(kept + [r])
  {
  }

  predicate RecordFits(codec: Codec, budget: Budget, r: Record) {
    RecordOk(codec, r) && codec.bytes(r) <= budget.record
  }

  lemma MembersFit(codec: Codec, budget: Budget, records: seq<Record>, kept: seq<Record>)
    requires Within(codec, budget, records) && forall i | 0 <= i < |kept| :: kept[i] in records
    ensures forall i | 0 <= i < |kept| :: RecordFits(codec, budget, kept[i])
  {
    hide RecordOk, TotalBytes, DistinctKeys;
    forall i | 0 <= i < |kept|
      ensures RecordFits(codec, budget, kept[i])
    {
      var k :| 0 <= k < |records| && records[k] == kept[i];
    }
  }

  lemma SuffixWithin(
    codec: Codec, budget: Budget, records: seq<Record>, all: seq<Record>, dropped: nat, key: string, replacement: Record)
    requires Within(codec, budget, records) && dropped <= |all| && DistinctKeys(all)
    requires forall r :: r in all <==> r in records && r.key != key
    requires ShortestPrefix(codec, budget, all, dropped, TotalBytes(codec, all) + codec.bytes(replacement))
    requires replacement.key == key && codec.identity(key) && SafeUse(replacement.used) && codec.bytes(replacement) <= budget.record
    requires replacement.revision == NextRecord(records, key, replacement.value, replacement.used).revision <= LARGEST_REVISION
    ensures Within(codec, budget, all[dropped..] + [replacement])
    ensures forall r | r in all[dropped..] + [replacement] :: r == replacement || (r in records && r.key != key)
  {
    hide TotalBytes, Find, DistinctKeys, HasKey, SafeUse;
    var kept := all[dropped..];
    FindRevision(codec, budget, records, key);
    SuffixMembers(records, all, dropped, key);
    MembersFit(codec, budget, records, kept);
    AppendDistinct(kept, replacement);
    SuffixFits(codec, budget, all, dropped, replacement);
    assert RecordFits(codec, budget, replacement);
    WithinFrom(codec, budget, kept + [replacement]);
  }

  lemma SuffixFits(codec: Codec, budget: Budget, all: seq<Record>, dropped: nat, replacement: Record)
    requires dropped <= |all|
    requires ShortestPrefix(codec, budget, all, dropped, TotalBytes(codec, all) + codec.bytes(replacement))
    ensures |all[dropped..] + [replacement]| <= budget.count && TotalBytes(codec, all[dropped..] + [replacement]) <= budget.total
  {
    hide TotalBytes;
    TotalSplit(codec, all, dropped);
    TotalAppend(codec, all[dropped..], replacement);
  }

  lemma WithinFrom(codec: Codec, budget: Budget, records: seq<Record>)
    requires |records| <= budget.count && TotalBytes(codec, records) <= budget.total && DistinctKeys(records)
    requires forall i | 0 <= i < |records| :: RecordFits(codec, budget, records[i])
    ensures Within(codec, budget, records)
  {
    hide TotalBytes, DistinctKeys, RecordOk;
    assert forall i | 0 <= i < |records| :: RecordFits(codec, budget, records[i]) ==> RecordOk(codec, records[i]) && codec.bytes(records[i]) <= budget.record;
  }

  // ----- whole histories of a bucket -----

  datatype Put = Put(key: string, value: string, now: int)

  /** A bucket after a list of writes; a refused write changes nothing. */
  function History(codec: Codec, budget: Budget, puts: seq<Put>): seq<Record> {
    if puts == [] then []
    else
      var before := History(codec, budget, puts[..|puts| - 1]);
      var put := puts[|puts| - 1];
      match Write(codec, budget, before, put.key, put.value, put.now, false)
      case Success(out) => out.records
      case Failure(_) => before
  }

  /** After any history of writes the bucket is within its budgets, so no later write finds it full or malformed. */
  lemma {:induction false} HistoryWithin(codec: Codec, budget: Budget, puts: seq<Put>)
    requires BudgetOk(budget)
    ensures Within(codec, budget, History(codec, budget, puts))
  {
    hide Write, Within;
    if puts == [] {
      EmptyWithin(codec, budget);
    } else {
      var before := puts[..|puts| - 1];
      var put := puts[|puts| - 1];
      HistoryWithin(codec, budget, before);
      if Write(codec, budget, History(codec, budget, before), put.key, put.value, put.now, false).Success? {
        WriteKeepsBudget(codec, budget, History(codec, budget, before), put.key, put.value, put.now);
      }
    }
  }

  lemma EmptyWithin(codec: Codec, budget: Budget)
    ensures Within(codec, budget, [])
  {
  }

  lemma ShippedBudgets()
    ensures BudgetOk(PREFERENCES) && BudgetOk(ORDERS) && BudgetOk(LAYOUTS)
  {
  }

  /** Every bucket of the program stays within its budgets, whatever is written to it. */
  lemma ShippedHistoriesWithin(codec: Codec, puts: seq<Put>)
    ensures Within(codec, PREFERENCES, History(codec, PREFERENCES, puts))
    ensures Within(codec, ORDERS, History(codec, ORDERS, puts))
    ensures Within(codec, LAYOUTS, History(codec, LAYOUTS, puts))
  {
    hide Within, History, BudgetOk;
    ShippedBudgets();
    HistoryWithin(codec, PREFERENCES, puts);
    HistoryWithin(codec, ORDERS, puts);
    HistoryWithin(codec, LAYOUTS, puts);
  }

  // ----- as the program runs it -----

  method CheckRecords(codec: Codec, budget: Budget, records: seq<Record>) returns (total: Result<nat, Error>)
    ensures total == Check(codec, budget, records, 0)
  {
    hide RecordOk, HasKey;
    var sum: nat := 0;
    for i := 0 to |records|
      invariant Check(codec, budget, records, 0) ==
                match Check(codec, budget, records, i) { case Success(rest) => Success(sum + rest) case Failure(error) => Failure(error) }
    {
      if !RecordOk(codec, records[i]) || HasKey(records[..i], records[i].key) { return Failure(InvalidRecord); }
      var size := codec.bytes(records[i]);
      if size > budget.record { return Failure(TooLarge); }
      sum := sum + size;
    }
    return Success(sum);
  }

  method MakeRoom(codec: Codec, budget: Budget, records: seq<Record>, size: int) returns (kept: Result<seq<Record>, Error>)
    ensures kept == if Over(budget, |records|, size) then Shed(codec, budget, Sort(records), size) else Success(records)
  {
    var next, total := records, size;
    if Over(budget, |next|, total) {
      next := Sort(next);
      while Over(budget, |next|, total)
        invariant Shed(codec, budget, Sort(records), size) == Shed(codec, budget, next, total)
        decreases |next|
      {
        if next == [] { return Failure(NothingToEvict); }
        total := total - codec.bytes(next[0]);
        next := next[1..];
      }
    }
    return Success(next);
  }

  method BoundedRecords(codec: Codec, budget: Budget, records: seq<Record>, key: string, value: string, now: int, same: bool)
    returns (r: Result<Outcome, Error>)
    ensures r == Write(codec, budget, records, key, value, now, same)
    ensures BudgetOk(budget) && Within(codec, budget, records) && !same && r.Success? ==>
              Within(codec, budget, r.value.records) && r.value.replacement in r.value.records
  {
    hide Within, Find, Others, Check, Shed, Sort, TotalBytes;
    if BudgetOk(budget) && Within(codec, budget, records) && !same && Write(codec, budget, records, key, value, now, same).Success? {
      WriteKeepsBudget(codec, budget, records, key, value, now);
    }
    if |records| > budget.count || !codec.identity(key) || !SafeUse(now) { return Failure(InvalidStorage); }
    var total :- CheckRecords(codec, budget, records);
    if total > budget.total { return Failure(StorageFull); }
    var previous := Find(records, key);
    if same { return Success(Outcome(records, previous.GetOr(Record(key, value, 0, now)), false)); }
    var revision := 1 + if previous.Some? then previous.value.revision else 0;
    if revision > LARGEST_REVISION { return Failure(RevisionExhausted); }
    var replacement := Record(key, value, revision, now);
    if codec.bytes(replacement) > budget.record { return Failure(TooLarge); }
    var next := Others(records, key);
    var after := total - (if previous.Some? then codec.bytes(previous.value) else 0) + codec.bytes(replacement);
    next :- MakeRoom(codec, budget, next, after);
    return Success(Outcome(next + [replacement], replacement, true));
  }
}
