/**
 Text rendering of model attempts: live snapshots may arrive early, late, repeatedly or
 displaced, and the settled attempt arrives once. A snapshot is a prefix of the records of
 its attempt; the cursor is a raw byte position in that attempt, read block by block.
 */
module TerminalText {
  import opened Wrappers

  /** Raw bytes in every block of an attempt but the last. */
  const BLOCK: nat := (192 * 1024 - 4) / 4 * 3

  /** One record of an attempt: its encoded size, and its text if it is a text delta. */
  datatype Record = Record(size: nat, text: Option<string>)

  datatype Attempt = Attempt(conversation: bool, records: seq<Record>)

  datatype Snapshot = Snapshot(effect: nat, turn: nat, streaming: bool, count: nat)

  datatype Event =
    | Started(effect: nat)
    | Observed(snapshot: Snapshot)
    | Settled(effect: nat)
    | TurnTerminal(turn: nat)
    | Writes(text: string)
    | FinishLine

  /** What reached standard output: a delta of an attempt, or other text. */
  datatype Piece = Delta(effect: nat, index: nat, text: string) | Other(text: string)

  datatype State = State(
    wroteText: bool, endsNewline: bool, effect: Option<nat>, settled: Option<nat>, cursor: nat,
    pending: Option<Snapshot>, out: seq<Piece>)

  const INITIAL := State(false, false, None, None, 0, None, [])

  type World = map<nat, Attempt>

  predicate WorldOk(w: World) {
    forall e | e in w :: forall i | 0 <= i < |w[e].records| :: w[e].records[i].size > 0
  }

  // ----- reading after a cursor -----

  function Bytes(records: seq<Record>): nat {
    if records == [] then 0 else Bytes(records[..|records| - 1]) + records[|records| - 1].size
  }

  /** The record that starts at a byte position. */
  function RecordAt(records: seq<Record>, offset: nat, n: nat): Option<nat>
    requires n <= |records|
  {
    if Bytes(records[..n]) == offset then Some(n)
    else if n == 0 then None
    else RecordAt(records, offset, n - 1)
  }

  /** The index of the first record not yet delivered, or nothing when the position is not in the prefix. */
  function ReadAfter(records: seq<Record>, offset: nat): Option<nat> {
    var length := Bytes(records);
    var block, skip := offset / BLOCK, offset % BLOCK;
    var blocks := (length + BLOCK - 1) / BLOCK;
    if block >= blocks then Some(|records|)
    else
      var here := if length - block * BLOCK < BLOCK then length - block * BLOCK else BLOCK;
      if skip == here then Some(|records|)
      else if skip > here then None
      else RecordAt(records, offset, |records|)
  }

  // ----- writing -----

  function EndsWithNewline(text: string): bool {
    text != "" && text[|text| - 1] == '\n'
  }

  function WriteText(s: State, piece: Piece): State {
    s.(wroteText := true, endsNewline := EndsWithNewline(piece.text), out := s.out + [piece])
  }

  /** Writes the text deltas among the records from `from` up to `to`. */
  function WriteRecords(s: State, e: nat, records: seq<Record>, from: nat, to: nat): State
    requires from <= to <= |records|
  {
    if to == from then s
    else
      var t := WriteRecords(s, e, records, from, to - 1);
      match records[to - 1].text
      case Some(text) => WriteText(t, Delta(e, to - 1, text))
      case None => t
  }

  /** Writes what a prefix has after the cursor; an error leaves everything as it was. */
  function WriteAfter(s: State, e: nat, records: seq<Record>): (State, bool) {
    match ReadAfter(records, s.cursor)
    case None => (s, false)
    case Some(from) =>
      if from >= |records| then (s, true)
      else (WriteRecords(s, e, records, from, |records|).(cursor := Bytes(records)), true)
  }

  predicate PendingFor(s: State, e: nat) {
    s.pending.Some? && s.pending.value.effect == e
  }

  function Prefix(w: World, sn: Snapshot): seq<Record> {
    if sn.effect in w && sn.count <= |w[sn.effect].records| then w[sn.effect].records[..sn.count] else []
  }

  function WriteStarted(w: World, s: State, e: nat): (State, bool) {
    if s.effect == Some(e) then (s, true)
    else
      var bound := s.(effect := Some(e), cursor := 0);
      if PendingFor(s, e) then WriteAfter(bound.(pending := None), e, Prefix(w, s.pending.value)) else (bound, true)
  }

  function WriteObserved(w: World, s: State, sn: Snapshot): (State, bool) {
    if (sn.effect in w && !w[sn.effect].conversation) || s.settled == Some(sn.effect) || !sn.streaming then (s, true)
    else if s.effect != Some(sn.effect) then (s.(pending := Some(sn)), true)
    else WriteAfter(s, sn.effect, Prefix(w, sn))
  }

  function WriteSettled(w: World, s: State, e: nat): (State, bool) {
    if e !in w || !w[e].conversation then (s, true)
    else
      var kept := if PendingFor(s, e) then s.(pending := None) else s;
      if s.settled == Some(e) then (kept, true)
      else
        var bound := if s.effect != Some(e) then kept.(effect := Some(e), cursor := 0) else kept;
        var (written, ok) := WriteAfter(bound, e, w[e].records);
        if ok then (written.(settled := Some(e)), true) else (written, false)
  }

  function Write(w: World, s: State, ev: Event): (State, bool) {
    match ev
    case Started(e) => WriteStarted(w, s, e)
    case Observed(sn) => WriteObserved(w, s, sn)
    case Settled(e) => WriteSettled(w, s, e)
    case TurnTerminal(turn) => (if s.pending.Some? && s.pending.value.turn == turn then s.(pending := None) else s, true)
    case Writes(text) => (WriteText(s, Other(text)), true)
    case FinishLine =>
      (if s.wroteText && !s.endsNewline then s.(endsNewline := true, out := s.out + [Other("\n")]) else s, true)
  }

  // ----- reading, precisely -----

  lemma {:induction false} BytesMonotone(records: seq<Record>, i: nat, j: nat)
    requires i <= j <= |records| && forall k | 0 <= k < |records| :: records[k].size > 0
    ensures Bytes(records[..i]) <= Bytes(records[..j]) && (i < j ==> Bytes(records[..i]) < Bytes(records[..j]))
  {
    if i < j {
      BytesMonotone(records, i, j - 1);
      assert records[..j][..j - 1] == records[..j - 1];
    }
  }

  lemma {:induction false} RecordAtFinds(records: seq<Record>, i: nat, n: nat)
    requires i <= n <= |records| && forall k | 0 <= k < |records| :: records[k].size > 0
    ensures RecordAt(records, Bytes(records[..i]), n) == Some(i)
  {
    BytesMonotone(records, i, n);
    if i < n { RecordAtFinds(records, i, n - 1); }
  }

  lemma BlockFacts(offset: nat, length: nat)
    ensures var block, blocks := offset / BLOCK, (length + BLOCK - 1) / BLOCK;
            && offset == block * BLOCK + offset % BLOCK && 0 <= offset % BLOCK < BLOCK
            && (block >= blocks <==> length <= block * BLOCK)
  {
    var block, blocks := offset / BLOCK, (length + BLOCK - 1) / BLOCK;
    assert length <= blocks * BLOCK < length + BLOCK;
    if block < blocks { assert (block + 1) * BLOCK <= blocks * BLOCK; } else { assert blocks * BLOCK <= block * BLOCK; }
  }

  /** A shorter prefix than what was delivered, ending in the block the cursor is in. */
  predicate Stale(length: nat, cursor: nat) {
    length < cursor && cursor / BLOCK * BLOCK < length
  }

  /**
   From a position that starts a record, reading delivers exactly the records not yet
   delivered. It fails exactly for a shorter prefix that ends inside the cursor's block.
   */
  lemma ReadAfterMeaning(all: seq<Record>, done: nat, count: nat)
    requires done <= |all| && count <= |all| && forall k | 0 <= k < |all| :: all[k].size > 0
    ensures var length, cursor := Bytes(all[..count]), Bytes(all[..done]);
            && (ReadAfter(all[..count], cursor).None? <==> Stale(length, cursor))
            && (done <= count ==> ReadAfter(all[..count], cursor) == Some(done) && !Stale(length, cursor))
            && (count < done && !Stale(length, cursor) ==> ReadAfter(all[..count], cursor) == Some(count))
            && (length < cursor <==> count < done)
  {
    hide Bytes, RecordAt;
    var prefix := all[..count];
    var length, cursor := Bytes(prefix), Bytes(all[..done]);
    BlockFacts(cursor, length);
    if done <= count {
      BytesMonotone(all, done, count);
      assert prefix[..done] == all[..done];
      RecordAtFinds(prefix, done, count);
    } else {
      BytesMonotone(all, count, done);
    }
  }

  // ----- what should be written -----

  function Pieces(w: World, e: nat, count: nat): seq<Piece>
    requires e in w && count <= |w[e].records|
  {
    if count == 0 then []
    else
      Pieces(w, e, count - 1) +
      match w[e].records[count - 1].text { case Some(text) => [Delta(e, count - 1, text)] case None => [] }
  }

  /** All text deltas of the settled conversation attempts, in order. */
  function AllPieces(w: World, done: seq<nat>): seq<Piece> {
    if done == [] then []
    else
      var e := done[|done| - 1];
      AllPieces(w, done[..|done| - 1]) + if e in w then Pieces(w, e, |w[e].records|) else []
  }

  function Deltas(out: seq<Piece>): seq<Piece> {
    if out == [] then []
    else
      var init := Deltas(out[..|out| - 1]);
      if out[|out| - 1].Delta? then init + [out[|out| - 1]] else init
  }

  // ----- the order of facts -----

  /** The attempt that is open, the ones seen, the settled conversation attempts, and the longest snapshot of each. */
  datatype Facts = Facts(running: Option<nat>, seen: set<nat>, done: seq<nat>, longest: map<nat, nat>)

  const NO_FACTS := Facts(None, {}, [], map[])

  predicate LastDone(f: Facts, e: nat) {
    f.done != [] && f.done[|f.done| - 1] == e
  }

  /** Attempts do not overlap: each is started and settled before the next starts; either fact may repeat. */
  predicate Allowed(w: World, f: Facts, ev: Event) {
    match ev
    case Started(e) => e in w && (f.running == Some(e) || (f.running.None? && e !in f.seen))
    case Settled(e) =>
      e in w && (f.running == Some(e) || (f.running.None? && (e !in f.seen || LastDone(f, e) || !w[e].conversation)))
    case Observed(sn) => sn.effect in w && sn.count <= |w[sn.effect].records|
    case _ => true
  }

  function Longest(f: Facts, e: nat): nat {
    if e in f.longest then f.longest[e] else 0
  }

  function Advance(w: World, f: Facts, ev: Event): Facts
    requires Allowed(w, f, ev)
  {
    match ev
    case Started(e) => f.(running := Some(e), seen := f.seen + {e})
    case Settled(e) =>
      f.(running := None, seen := f.seen + {e},
         done := if w[e].conversation && !LastDone(f, e) then f.done + [e] else f.done)
    case Observed(sn) =>
      f.(longest := f.longest[sn.effect := if sn.count < Longest(f, sn.effect) then Longest(f, sn.effect) else sn.count])
    case _ => f
  }

  // ----- the invariant -----

  /** How many records of the open attempt were delivered. */
  ghost predicate Delivered(w: World, s: State, f: Facts, n: nat) {
    match f.running
    case None => n == 0
    case Some(e) =>
      && e in w && n <= |w[e].records| && s.effect == Some(e) && s.settled != Some(e)
      && s.cursor == Bytes(w[e].records[..n])
      && (!w[e].conversation ==> n == 0)
      && (w[e].conversation ==> n <= Longest(f, e))
  }

  ghost predicate OutputIs(w: World, s: State, f: Facts, n: nat)
    requires Delivered(w, s, f, n)
  {
    Deltas(s.out) == AllPieces(w, f.done) + if f.running.Some? then Pieces(w, f.running.value, n) else []
  }

  ghost predicate FactsOk(w: World, f: Facts) {
    && f.seen <= w.Keys
    && (forall i | 0 <= i < |f.done| :: f.done[i] in f.seen && w[f.done[i]].conversation)
    && (forall i, j | 0 <= i < j < |f.done| :: f.done[i] != f.done[j])
    && (f.running.Some? ==> f.running.value in f.seen && f.running.value !in f.done)
  }

  ghost predicate Bound(w: World, s: State, f: Facts) {
    && (s.effect.Some? ==> s.effect.value in f.seen && s.effect.value in w)
    && s.settled == (if f.done == [] then None else Some(f.done[|f.done| - 1]))
    && (f.running.None? && s.effect.Some? && w[s.effect.value].conversation ==> s.settled == s.effect)
    && (s.pending.Some? ==>
          && s.pending.value.effect in w && w[s.pending.value.effect].conversation && s.pending.value.count <= |w[s.pending.value.effect].records|
          && s.pending.value.count <= Longest(f, s.pending.value.effect))
    && (s.wroteText && s.endsNewline ==> s.out != [] && EndsWithNewline(s.out[|s.out| - 1].text))
    && (s.wroteText <==> s.out != [])
  }

  ghost predicate Inv(w: World, s: State, f: Facts, n: nat) {
    FactsOk(w, f) && Bound(w, s, f) && Delivered(w, s, f, n) && OutputIs(w, s, f, n)
  }

  // ----- writing keeps the invariant -----

  lemma DeltasAppend(out: seq<Piece>, piece: Piece)
    ensures Deltas(out + [piece]) == Deltas(out) + if piece.Delta? then [piece] else []
  {
    assert (out + [piece])[..|out|] == out;
  }

  ghost predicate LineOk(s: State) {
    && (s.wroteText && s.endsNewline ==> s.out != [] && EndsWithNewline(s.out[|s.out| - 1].text))
    && (s.wroteText <==> s.out != [])
  }

  /** Writing records appends exactly their text deltas. */
  lemma {:induction false} WriteRecordsEffect(w: World, s: State, e: nat, count: nat, from: nat, to: nat, before: seq<Piece>)
    requires e in w && from <= to <= count <= |w[e].records| && LineOk(s)
    requires Deltas(s.out) == before + Pieces(w, e, from)
    ensures var t := WriteRecords(s, e, w[e].records[..count], from, to);
            && t == s.(out := t.out, wroteText := t.wroteText, endsNewline := t.endsNewline)
            && Deltas(t.out) == before + Pieces(w, e, to) && LineOk(t)
    decreases (to)
  {
    hide EndsWithNewline, Deltas;
    if from < to {
      WriteRecordsEffect(w, s, e, count, from, to - 1, before);
      var t := WriteRecords(s, e, w[e].records[..count], from, to - 1);
      var text := w[e].records[to - 1].text;
      assert w[e].records[..count][to - 1].text == text;
      if text.Some? {
        DeltasAppend(t.out, Delta(e, to - 1, text.value));
      }
    }
  }

  /**
   Writing a prefix of the open attempt delivers the records up to its end, or nothing when
   it is not longer than what was delivered; it fails exactly for a stale prefix.
   */
  lemma WriteAfterEffect(w: World, s: State, e: nat, n: nat, count: nat, before: seq<Piece>)
    requires WorldOk(w) && e in w && n <= |w[e].records| && count <= |w[e].records| && LineOk(s)
    requires s.cursor == Bytes(w[e].records[..n]) && Deltas(s.out) == before + Pieces(w, e, n)
    ensures var (t, ok) := WriteAfter(s, e, w[e].records[..count]);
            var m := if n < count then count else n;
            && (ok <==> !Stale(Bytes(w[e].records[..count]), s.cursor))
            && (!ok ==> t == s)
            && t == s.(out := t.out, wroteText := t.wroteText, endsNewline := t.endsNewline, cursor := t.cursor)
            && t.cursor == Bytes(w[e].records[..m]) && Deltas(t.out) == before + Pieces(w, e, m) && LineOk(t)
            && (n <= count ==> ok)
  {
    hide Bytes, Pieces, Deltas, EndsWithNewline, ReadAfter, Stale, WriteRecords;
    var records := w[e].records;
    ReadAfterMeaning(records, n, count);
    if n < count { WriteRecordsEffect(w, s, e, count, n, count, before); }
  }

  /** A snapshot the state cannot read: shorter than what was delivered and ending in the same block. */
  predicate StaleSnapshot(w: World, s: State, ev: Event) {
    && ev.Observed? && ev.snapshot.effect in w && w[ev.snapshot.effect].conversation && ev.snapshot.streaming
    && s.settled != Some(ev.snapshot.effect) && s.effect == Some(ev.snapshot.effect)
    && Stale(Bytes(Prefix(w, ev.snapshot)), s.cursor)
  }

  lemma StartedKeeps(w: World, s: State, f: Facts, n: nat, e: nat) returns (m: nat)
    requires WorldOk(w) && Inv(w, s, f, n) && Allowed(w, f, Started(e))
    ensures Inv(w, WriteStarted(w, s, e).0, Advance(w, f, Started(e)), m) && WriteStarted(w, s, e).1
  {
    hide Bytes, Pieces, Deltas, AllPieces, WriteAfter, EndsWithNewline, Stale;
    var g := Advance(w, f, Started(e));
    m := 0;
    if f.running == Some(e) {
      m := n;
      assert g.seen == f.seen;
    } else {
      var bound := s.(effect := Some(e), cursor := 0);
      StartsAtZero(w, e);
      if PendingFor(s, e) {
        var count := s.pending.value.count;
        WriteAfterEffect(w, bound.(pending := None), e, 0, count, AllPieces(w, f.done));
        m := count;
      }
    }
  }

  lemma StartsAtZero(w: World, e: nat)
    requires e in w
    ensures Bytes(w[e].records[..0]) == 0 && Pieces(w, e, 0) == []
  {
  }

  lemma ObservedKeeps(w: World, s: State, f: Facts, n: nat, sn: Snapshot) returns (m: nat)
    requires WorldOk(w) && Inv(w, s, f, n) && Allowed(w, f, Observed(sn))
    ensures Inv(w, WriteObserved(w, s, sn).0, Advance(w, f, Observed(sn)), m)
    ensures WriteObserved(w, s, sn).1 <==> !StaleSnapshot(w, s, Observed(sn))
    ensures f.running == Some(sn.effect) && sn.count >= n ==> WriteObserved(w, s, sn).1
    ensures f.running != Some(sn.effect) ==> WriteObserved(w, s, sn).1
  {
    hide Bytes, Pieces, Deltas, AllPieces, WriteAfter, EndsWithNewline, Stale;
    m := n;
    if w[sn.effect].conversation && s.settled != Some(sn.effect) && sn.streaming && s.effect == Some(sn.effect) {
      assert f.running == Some(sn.effect);
      WriteAfterEffect(w, s, sn.effect, n, sn.count, AllPieces(w, f.done));
      if WriteObserved(w, s, sn).1 && n < sn.count { m := sn.count; }
    }
  }

  lemma SettledKeeps(w: World, s: State, f: Facts, n: nat, e: nat) returns (m: nat)
    requires WorldOk(w) && Inv(w, s, f, n) && Allowed(w, f, Settled(e))
    ensures Inv(w, WriteSettled(w, s, e).0, Advance(w, f, Settled(e)), m) && WriteSettled(w, s, e).1
  {
    m := 0;
    if w[e].conversation && s.settled != Some(e) { FirstSettlementKeeps(w, s, f, n, e); } else { IgnoredSettlementKeeps(w, s, f, n, e); }
  }

  lemma IgnoredSettlementKeeps(w: World, s: State, f: Facts, n: nat, e: nat)
    requires Inv(w, s, f, n) && Allowed(w, f, Settled(e)) && (!w[e].conversation || s.settled == Some(e))
    ensures Inv(w, WriteSettled(w, s, e).0, Advance(w, f, Settled(e)), 0) && WriteSettled(w, s, e).1
  {
    hide Bytes, Pieces, Deltas, AllPieces, WriteAfter, EndsWithNewline;
    StartsAtZero(w, e);
    assert n == 0;
  }

  lemma SettledFacts(w: World, f: Facts, e: nat)
    requires FactsOk(w, f) && Allowed(w, f, Settled(e)) && w[e].conversation && !LastDone(f, e)
    ensures FactsOk(w, Advance(w, f, Settled(e))) && Advance(w, f, Settled(e)).done == f.done + [e]
  {
  }

  lemma FirstSettlementEffect(w: World, s: State, f: Facts, n: nat, e: nat)
    requires WorldOk(w) && Inv(w, s, f, n) && Allowed(w, f, Settled(e)) && w[e].conversation && s.settled != Some(e)
    ensures var (t, ok) := WriteSettled(w, s, e);
            && ok && t.effect == Some(e) && t.settled == Some(e) && LineOk(t)
            && t.pending == (if PendingFor(s, e) then None else s.pending)
            && Deltas(t.out) == AllPieces(w, f.done) + Pieces(w, e, |w[e].records|)
  {
    hide Bytes, Pieces, Deltas, AllPieces, WriteAfter, EndsWithNewline, Stale, FactsOk;
    StartsAtZero(w, e);
    EffectUnseen(w, s, f, e);
    var all := w[e].records;
    assert all[..|all|] == all;
    var kept := if PendingFor(s, e) then s.(pending := None) else s;
    var bound := if s.effect != Some(e) then kept.(effect := Some(e), cursor := 0) else kept;
    WriteAfterEffect(w, bound, e, n, |all|, AllPieces(w, f.done));
  }

  lemma FirstSettlementKeeps(w: World, s: State, f: Facts, n: nat, e: nat)
    requires WorldOk(w) && Inv(w, s, f, n) && Allowed(w, f, Settled(e)) && w[e].conversation && s.settled != Some(e)
    ensures Inv(w, WriteSettled(w, s, e).0, Advance(w, f, Settled(e)), 0) && WriteSettled(w, s, e).1
  {
    hide Bytes, Pieces, Deltas, AllPieces, WriteSettled, EndsWithNewline, Stale, FactsOk;
    SettledFacts(w, f, e);
    FirstSettlementEffect(w, s, f, n, e);
    AllPiecesAppend(w, f.done, e);
  }

  /** Without a start there is nothing delivered yet, and the renderer is bound to another attempt. */
  lemma EffectUnseen(w: World, s: State, f: Facts, e: nat)
    requires FactsOk(w, f) && Bound(w, s, f) && Allowed(w, f, Settled(e)) && w[e].conversation && s.settled != Some(e)
    ensures f.running.None? ==> s.effect != Some(e) && e !in f.seen
  {
  }

  lemma AllPiecesAppend(w: World, done: seq<nat>, e: nat)
    requires e in w
    ensures AllPieces(w, done + [e]) == AllPieces(w, done) + Pieces(w, e, |w[e].records|)
  {
    assert (done + [e])[..|done|] == done;
  }

  lemma OtherKeeps(w: World, s: State, f: Facts, n: nat, ev: Event)
    requires Inv(w, s, f, n) && (ev.TurnTerminal? || ev.Writes? || ev.FinishLine?)
    ensures Inv(w, Write(w, s, ev).0, f, n) && Write(w, s, ev).1
  {
    hide Bytes, Pieces, Deltas, AllPieces, EndsWithNewline;
    match ev
    case TurnTerminal(turn) =>
    case Writes(text) => DeltasAppend(s.out, Other(text));
    case FinishLine => DeltasAppend(s.out, Other("\n")); LineFeed();
  }

  lemma LineFeed()
    ensures EndsWithNewline("\n")
  {
  }

  lemma WriteKeeps(w: World, s: State, f: Facts, n: nat, ev: Event) returns (m: nat)
    requires WorldOk(w) && Inv(w, s, f, n) && Allowed(w, f, ev)
    ensures Inv(w, Write(w, s, ev).0, Advance(w, f, ev), m)
    ensures Write(w, s, ev).1 <==> !StaleSnapshot(w, s, ev)
    ensures ev.Observed? && ev.snapshot.count >= Longest(f, ev.snapshot.effect) ==> Write(w, s, ev).1
  {
    hide Bytes, Pieces, Deltas, AllPieces, EndsWithNewline, Stale, WriteStarted, WriteSettled, WriteObserved, OutputIs, FactsOk, Bound;
    match ev
    case Started(e) => m := StartedKeeps(w, s, f, n, e);
    case Settled(e) => m := SettledKeeps(w, s, f, n, e);
    case Observed(sn) => m := ObservedKeeps(w, s, f, n, sn); if f.running == Some(sn.effect) && !w[sn.effect].conversation { IgnoredAttempt(w, s, sn); }
    case _ => OtherKeeps(w, s, f, n, ev); m := n;
  }

  lemma IgnoredAttempt(w: World, s: State, sn: Snapshot)
    requires sn.effect in w && !w[sn.effect].conversation
    ensures WriteObserved(w, s, sn) == (s, true)
  {
  }

  // ----- whole runs -----

  function FactsAfter(w: World, events: seq<Event>): Facts {
    if events == [] then NO_FACTS
    else
      var f := FactsAfter(w, events[..|events| - 1]);
      if Allowed(w, f, events[|events| - 1]) then Advance(w, f, events[|events| - 1]) else f
  }

  /** Every event is allowed by the facts before it; snapshots may name any attempt at any time. */
  ghost predicate Orderly(w: World, events: seq<Event>) {
    forall i {:trigger events[i]} | 0 <= i < |events| :: Allowed(w, FactsAfter(w, events[..i]), events[i])
  }

  /** The state after the events, and whether no write failed. */
  function After(w: World, events: seq<Event>): (State, bool) {
    if events == [] then (INITIAL, true)
    else
      var (s, ok) := After(w, events[..|events| - 1]);
      if !ok then (s, false) else Write(w, s, events[|events| - 1])
  }

  lemma OrderlyPrefix(w: World, events: seq<Event>, n: nat)
    requires Orderly(w, events) && n <= |events|
    ensures Orderly(w, events[..n])
  {
    forall i | 0 <= i < n
      ensures Allowed(w, FactsAfter(w, events[..n][..i]), events[..n][i])
    {
      assert events[..n][..i] == events[..i];
    }
  }

  lemma InitialInv(w: World)
    ensures Inv(w, INITIAL, NO_FACTS, 0)
  {
  }

  lemma {:induction false} RunKeepsInv(w: World, events: seq<Event>) returns (n: nat)
    requires WorldOk(w) && Orderly(w, events) && After(w, events).1
    ensures Inv(w, After(w, events).0, FactsAfter(w, events), n)
  {
    hide Inv, Allowed, Write;
    if events == [] {
      InitialInv(w);
      n := 0;
    } else {
      var k := |events| - 1;
      OrderlyPrefix(w, events, k);
      var m := RunKeepsInv(w, events[..k]);
      assert Allowed(w, FactsAfter(w, events[..k]), events[k]);
      n := WriteKeeps(w, After(w, events[..k]).0, FactsAfter(w, events[..k]), m, events[k]);
    }
  }

  /** Where a run stops: at the first write that fails, or at its end. */
  lemma {:induction false} StopsAt(w: World, events: seq<Event>) returns (k: nat)
    requires WorldOk(w) && Orderly(w, events)
    ensures k <= |events| && After(w, events[..k]) == (After(w, events).0, true)
    ensures k == |events| <==> After(w, events).1
    ensures k < |events| ==> StaleSnapshot(w, After(w, events).0, events[k])
  {
    hide Inv, Allowed, Write, StaleSnapshot;
    assert events[..|events|] == events;
    if After(w, events).1 {
      k := |events|;
    } else {
      var n := |events| - 1;
      OrderlyPrefix(w, events, n);
      if After(w, events[..n]).1 {
        k := n;
        assert Allowed(w, FactsAfter(w, events[..n]), events[n]);
        WriteFailsExactlyForStale(w, events[..n], events[n]);
        FailedWriteChangesNothing(w, events[..n], events[n]);
      } else {
        k := StopsAt(w, events[..n]);
        assert events[..n][..k] == events[..k];
      }
    }
  }

  /** A write that fails leaves the renderer and the output as they were. */
  lemma FailedWriteChangesNothing(w: World, events: seq<Event>, ev: Event)
    requires WorldOk(w) && Orderly(w, events) && After(w, events).1 && Allowed(w, FactsAfter(w, events), ev)
    requires !Write(w, After(w, events).0, ev).1
    ensures Write(w, After(w, events).0, ev).0 == After(w, events).0
  {
    hide WriteStarted, WriteSettled, WriteObserved, StaleSnapshot, Allowed, Inv;
    WriteFailsExactlyForStale(w, events, ev);
    OnlySnapshotsStale(w, After(w, events).0, ev);
    FailedObservation(w, After(w, events).0, ev.snapshot);
  }

  lemma FailedObservation(w: World, s: State, sn: Snapshot)
    requires !WriteObserved(w, s, sn).1
    ensures WriteObserved(w, s, sn).0 == s
  {
    hide ReadAfter, WriteRecords, Bytes;
  }

  /**
   In every orderly run, up to its end or to the stale snapshot at which it fails: the deltas
   on standard output are exactly those of the conversation attempts settled by then, each
   once and in order, followed by a prefix of those of the attempt still open. Snapshots may
   come early, late, repeatedly or for other attempts.
   */
  lemma SettledAttemptsWrittenOnce(w: World, events: seq<Event>) returns (k: nat, n: nat)
    requires WorldOk(w) && Orderly(w, events)
    ensures k <= |events| && (k == |events| <==> After(w, events).1)
    ensures k < |events| ==> StaleSnapshot(w, After(w, events).0, events[k])
    ensures var f := FactsAfter(w, events[..k]);
            && (f.running.Some? ==> f.running.value in w && n <= |w[f.running.value].records|)
            && Deltas(After(w, events).0.out) == AllPieces(w, f.done) + (if f.running.Some? then Pieces(w, f.running.value, n) else [])
            && (forall i, j | 0 <= i < j < |f.done| :: f.done[i] != f.done[j])
  {
    hide StaleSnapshot, Write;
    k := StopsAt(w, events);
    OrderlyPrefix(w, events, k);
    n := RunKeepsInv(w, events[..k]);
  }

  /** The settled attempts are the conversation attempts for which a settlement arrived. */
  lemma {:induction false} DoneAreSettled(w: World, events: seq<Event>, e: nat)
    requires Orderly(w, events)
    ensures e in FactsAfter(w, events).done <==>
              exists i :: 0 <= i < |events| && events[i] == Settled(e) && e in w && w[e].conversation
  {
    if events != [] {
      var k := |events| - 1;
      OrderlyPrefix(w, events, k);
      DoneAreSettled(w, events[..k], e);
      assert Allowed(w, FactsAfter(w, events[..k]), events[k]);
      if i :| 0 <= i < k && events[..k][i] == Settled(e) && e in w && w[e].conversation { assert events[i] == Settled(e); }
      if i :| 0 <= i < |events| && events[i] == Settled(e) && e in w && w[e].conversation && i < k { assert events[..k][i] == Settled(e); }
    }
  }

  /** In a run without failure so far, the next write fails exactly for a stale snapshot of the open attempt. */
  lemma WriteFailsExactlyForStale(w: World, events: seq<Event>, ev: Event)
    requires WorldOk(w) && Orderly(w, events) && After(w, events).1 && Allowed(w, FactsAfter(w, events), ev)
    ensures Write(w, After(w, events).0, ev).1 <==> !StaleSnapshot(w, After(w, events).0, ev)
  {
    hide Write, StaleSnapshot, Allowed;
    var n := RunKeepsInv(w, events);
    var m := WriteKeeps(w, After(w, events).0, FactsAfter(w, events), n, ev);
  }

  /** After finishing the line, what was written ends with a line feed. */
  lemma FinishLineEndsLine(w: World, events: seq<Event>)
    requires WorldOk(w) && Orderly(w, events) && After(w, events).1
    ensures var out := Write(w, After(w, events).0, FinishLine).0.out;
            out != [] ==> EndsWithNewline(out[|out| - 1].text)
  {
    hide FactsOk, Delivered, OutputIs;
    var n := RunKeepsInv(w, events);
    LineFeed();
  }

  /** Snapshots of one attempt never get shorter. */
  ghost predicate Growing(w: World, events: seq<Event>) {
    forall i | 0 <= i < |events| && events[i].Observed? ::
      events[i].snapshot.count >= Longest(FactsAfter(w, events[..i]), events[i].snapshot.effect)
  }

  /** While the snapshots of each attempt never get shorter, no write fails. */
  lemma {:induction false} GrowingNeverFails(w: World, events: seq<Event>)
    requires WorldOk(w) && Orderly(w, events) && Growing(w, events)
    ensures After(w, events).1
  {
    hide Inv, Allowed, Write, StaleSnapshot;
    if events != [] {
      var k := |events| - 1;
      OrderlyPrefix(w, events, k);
      GrowingPrefix(w, events, k);
      GrowingNeverFails(w, events[..k]);
      var n := RunKeepsInv(w, events[..k]);
      assert Allowed(w, FactsAfter(w, events[..k]), events[k]);
      var m := WriteKeeps(w, After(w, events[..k]).0, FactsAfter(w, events[..k]), n, events[k]);
      assert !events[k].Observed? ==> !StaleSnapshot(w, After(w, events[..k]).0, events[k]) by { OnlySnapshotsStale(w, After(w, events[..k]).0, events[k]); }
    }
  }

  lemma OnlySnapshotsStale(w: World, s: State, ev: Event)
    ensures StaleSnapshot(w, s, ev) ==> ev.Observed?
  {
  }

  lemma GrowingPrefix(w: World, events: seq<Event>, n: nat)
    requires Growing(w, events) && n <= |events|
    ensures Growing(w, events[..n])
  {
    forall i | 0 <= i < n && events[..n][i].Observed?
      ensures events[..n][i].snapshot.count >= Longest(FactsAfter(w, events[..n][..i]), events[..n][i].snapshot.effect)
    {
      assert events[..n][..i] == events[..i];
    }
  }

  // ----- where it does not hold -----

  const TWO_DELTAS: seq<Record> := [Record(8, Some("a")), Record(8, Some("b"))]

  /** Attempts that overlap are written twice: the first settles after the second started. */
  lemma OverlapRepeats()
    ensures var w: World := map[1 := Attempt(true, ONE_DELTA), 2 := Attempt(true, [])];
            var s := Write(w, Write(w, INITIAL, Started(1)).0, Observed(Snapshot(1, 0, true, 1))).0;
            Write(w, Write(w, s, Started(2)).0, Settled(1)).0.out == [Delta(1, 0, "a"), Delta(1, 0, "a")]
  {
    var w: World := map[1 := Attempt(true, ONE_DELTA), 2 := Attempt(true, [])];
    assert ONE_DELTA[..0] == [] && ONE_DELTA[..1] == ONE_DELTA;
    ReadAfterMeaning(ONE_DELTA, 0, 1);
    assert ReadAfter(ONE_DELTA, 0) == Some(0);
    assert forall s: State :: WriteRecords(s, 1, ONE_DELTA, 0, 1) == WriteText(s, Delta(1, 0, "a")) by {
      assert forall s: State :: WriteRecords(s, 1, ONE_DELTA, 0, 0) == s;
    }
  }

  const ONE_DELTA: seq<Record> := [Record(8, Some("a"))]

  /** A late, shorter snapshot of the open attempt makes the renderer fail. */
  lemma LateSnapshotFails()
    ensures var w: World := map[1 := Attempt(true, TWO_DELTAS)];
            var s := Write(w, Write(w, INITIAL, Started(1)).0, Observed(Snapshot(1, 0, true, 2)));
            s.1 && !Write(w, s.0, Observed(Snapshot(1, 0, true, 1))).1
  {
    hide WriteRecords, ReadAfter;
    var w: World := map[1 := Attempt(true, TWO_DELTAS)];
    TwoBytes();
    assert TWO_DELTAS[..0] == [] && TWO_DELTAS[..2] == TWO_DELTAS;
    ReadAfterMeaning(TWO_DELTAS, 0, 2);
    ReadAfterMeaning(TWO_DELTAS, 2, 1);
    var s := Write(w, INITIAL, Started(1)).0;
    WriteRecordsEffect(w, s, 1, 2, 0, 2, []);
  }

  lemma TwoBytes()
    ensures Bytes(TWO_DELTAS) == 16 && Bytes(TWO_DELTAS[..1]) == 8
  {
    assert TWO_DELTAS[..1][..0] == [];
    assert TWO_DELTAS[..1] == [Record(8, Some("a"))];
  }

  // ----- the renderer as the program runs it -----

  class CliRenderer {
    var wroteText: bool
    var endsNewline: bool
    var effect: Option<nat>
    var settled: Option<nat>
    var cursor: nat
    var pending: Option<Snapshot>
    var out: seq<Piece>

    function View(): State
      reads this
    {
      State(wroteText, endsNewline, effect, settled, cursor, pending, out)
    }

    constructor ()
      ensures View() == INITIAL
    {
      wroteText, endsNewline, effect, settled, cursor, pending, out := false, false, None, None, 0, None, [];
    }

    method WriteDelta(piece: Piece)
      modifies this
      ensures View() == WriteText(old(View()), piece)
    {
      out := out + [piece];
      wroteText := true;
      endsNewline := EndsWithNewline(piece.text);
    }

    /** Writes the events a prefix still has and moves the cursor with them. */
    method WriteModelEvents(e: nat, records: seq<Record>) returns (ok: bool)
      modifies this
      ensures (View(), ok) == WriteAfter(old(View()), e, records)
    {
      hide ReadAfter, Bytes, EndsWithNewline;
      var from := ReadAfter(records, cursor);
      if from.None? { return false; }
      if from.value >= |records| { return true; }
      for i := from.value to |records|
        invariant View() == WriteRecords(old(View()), e, records, from.value, i)
      {
        var text := records[i].text;
        if text.Some? { WriteDelta(Delta(e, i, text.value)); }
      }
      WriteKeepsCursor(old(View()), e, records, from.value, |records|);
      cursor := Bytes(records);
      return true;
    }

    method Start(w: World, e: nat) returns (ok: bool)
      modifies this
      ensures (View(), ok) == WriteStarted(w, old(View()), e)
    {
      hide WriteAfter;
      if effect == Some(e) { return true; }
      effect, cursor := Some(e), 0;
      if pending.Some? && pending.value.effect == e {
        var snapshot := pending.value;
        pending := None;
        ok := WriteModelEvents(e, Prefix(w, snapshot));
        return ok;
      }
      return true;
    }

    method Observe(w: World, sn: Snapshot) returns (ok: bool)
      modifies this
      ensures (View(), ok) == WriteObserved(w, old(View()), sn)
    {
      hide WriteAfter;
      if (sn.effect in w && !w[sn.effect].conversation) || settled == Some(sn.effect) || !sn.streaming { return true; }
      if effect != Some(sn.effect) {
        pending := Some(sn);
        return true;
      }
      ok := WriteModelEvents(sn.effect, Prefix(w, sn));
    }

    method Settle(w: World, e: nat) returns (ok: bool)
      modifies this
      ensures (View(), ok) == WriteSettled(w, old(View()), e)
    {
      hide WriteAfter;
      if e !in w || !w[e].conversation { return true; }
      if pending.Some? && pending.value.effect == e { pending := None; }
      if settled == Some(e) { return true; }
      if effect != Some(e) { effect, cursor := Some(e), 0; }
      ok := WriteModelEvents(e, w[e].records);
      if ok { settled := Some(e); }
    }

    method WriteEvent(w: World, ev: Event) returns (ok: bool)
      modifies this
      ensures (View(), ok) == Write(w, old(View()), ev)
    {
      hide WriteStarted, WriteObserved, WriteSettled, EndsWithNewline;
      ok := true;
      match ev
      case Started(e) => ok := Start(w, e);
      case Observed(sn) => ok := Observe(w, sn);
      case Settled(e) => ok := Settle(w, e);
      case TurnTerminal(turn) => if pending.Some? && pending.value.turn == turn { pending := None; }
      case Writes(text) => WriteDelta(Other(text));
      case FinishLine =>
        if wroteText && !endsNewline {
          out := out + [Other("\n")];
          endsNewline := true;
        }
    }
  }

  lemma {:induction false} WriteKeepsCursor(s: State, e: nat, records: seq<Record>, from: nat, n: nat)
    requires from <= n <= |records|
    ensures WriteRecords(s, e, records, from, n).cursor == s.cursor
  {
    if from < n { WriteKeepsCursor(s, e, records, from, n - 1); }
  }
}
