/**
 Composer draft records, their validity and their storage cost.
 Text is a sequence of Unicode scalars; byte bounds are UTF-8 lengths.
 */
module DraftRecords {
  import opened Wrappers

  const MIB: nat := 1024 * 1024
  const MAX_SAFE: nat := 9007199254740991

  function CharBytes(c: char): (n: nat)
  {
    if c as int < 0x80 then 1
    else if c as int < 0x800 then 2
    else if c as int < 0x1_0000 then 3
    else 4
  }

  function Utf8(s: string): nat {
    if s == "" then 0 else CharBytes(s[0]) + Utf8(s[1..])
  }

  datatype Key = Key(endpoint: string, principal: string, surface: string, session: string)

  datatype Image = Image(id: string, bytes: nat, width: nat, height: nat)

  /** `descriptor` is the JSON text of the frozen conversation reference. */
  datatype Reference = Reference(descriptor: string, preview: string, targetSession: string, targetHeader: string)

  datatype Fork = Fork(source: string, point: string, turns: string)

  datatype Creation = Creation(session: string, workspace: string, preset: Option<string>, fork: Option<Fork>)

  datatype Kind = Message | Command | Queue

  datatype Phase = Prepared | Dispatching | Unknown

  datatype Pending = Pending(
    kind: Kind, id: string, envelope: string, preserveEditor: bool,
    textBytes: nat, images: nat, references: nat, phase: Phase, editRevision: nat)

  datatype Record = Record(
    key: Key, incarnation: string, editRevision: nat, pendingRevision: nat,
    text: string, images: seq<Image>, references: seq<Reference>,
    header: string, creation: Option<Creation>, everDispatched: bool,
    pending: Option<Pending>, receipt: Option<string>)

  /** What the user edits: the part of a record that an edit replaces. */
  datatype Content = Content(text: string, images: seq<Image>, references: seq<Reference>)

  const EMPTY := Content("", [], [])

  function ContentOf(r: Record): Content {
    Content(r.text, r.images, r.references)
  }

  predicate ValidImage(i: Image) {
    && 0 < i.bytes <= 32 * MIB
    && 0 < i.width <= 65535 && 0 < i.height <= 65535
    && i.width * i.height <= 100_000_000
  }

  predicate ValidReference(r: Reference) {
    0 < Utf8(r.preview) <= 8192 && Utf8(r.descriptor) <= 64 * 1024
  }

  function PreviewBytes(rs: seq<Reference>): nat {
    if rs == [] then 0 else Utf8(rs[0].preview) + PreviewBytes(rs[1..])
  }

  function DescriptorBytes(rs: seq<Reference>): nat {
    if rs == [] then 0 else Utf8(rs[0].descriptor) + 1 + DescriptorBytes(rs[1..])
  }

  /** UTF-8 length of the JSON array of descriptors: brackets plus separators. */
  function ReferenceBytes(rs: seq<Reference>): nat {
    if rs == [] then 0 else DescriptorBytes(rs) + 1
  }

  predicate ValidContent(c: Content) {
    && Utf8(c.text) <= MIB
    && |c.images| <= 8 && (forall i | i in c.images :: ValidImage(i))
    && |c.references| <= 4 && (forall r | r in c.references :: ValidReference(r))
    && Utf8(c.text) + PreviewBytes(c.references) <= MIB
  }

  predicate ValidPending(p: Pending) {
    && (p.preserveEditor ==> p.kind == Command)
    && 0 < Utf8(p.id) <= 256
    && Utf8(p.envelope) <= (if p.kind != Command then 8 * MIB else 32 * 1024)
    && p.textBytes <= MIB && p.images <= 8 && p.references <= 4
    && p.editRevision <= MAX_SAFE
  }

  predicate ValidCreation(c: Creation, session: string) {
    && c.session == session
    && (c.fork.None? <==> c.preset.None?)
    && (c.fork.Some? ==> c.fork.value.source != session)
  }

  predicate ValidRecord(r: Record) {
    && r.editRevision <= MAX_SAFE && r.pendingRevision <= MAX_SAFE
    && ValidContent(ContentOf(r))
    && (forall ref | ref in r.references :: ref.targetSession == r.key.session && ref.targetHeader == r.header)
    && (r.pending.Some? ==>
          && ValidPending(r.pending.value)
          && r.pending.value.editRevision <= r.editRevision
          && (r.pending.value.phase == Prepared || r.everDispatched))
    && (r.receipt.Some? ==> Utf8(r.receipt.value) <= 4096)
    && (r.creation.Some? ==> ValidCreation(r.creation.value, r.key.session))
  }

  /** The four origin-wide dimensions: records, editable text, pending text, opaque requests. */
  datatype Counters = Counters(records: int, text: int, pendingText: int, envelopes: int) {
    function Plus(c: Counters): Counters {
      Counters(records + c.records, text + c.text, pendingText + c.pendingText, envelopes + c.envelopes)
    }

    function Minus(c: Counters): Counters {
      Counters(records - c.records, text - c.text, pendingText - c.pendingText, envelopes - c.envelopes)
    }

    function At(dimension: nat): int {
      if dimension == 0 then records else if dimension == 1 then text else if dimension == 2 then pendingText else envelopes
    }

    predicate Within() {
      && 0 <= records <= 128
      && 0 <= text <= 4 * MIB
      && 0 <= pendingText <= 4 * MIB
      && 0 <= envelopes <= 32 * MIB
    }
  }

  const ZERO := Counters(0, 0, 0, 0)

  function Usage(r: Option<Record>): Counters {
    match r
    case None => ZERO
    case Some(r) =>
      Counters(
        1,
        Utf8(r.text) + ReferenceBytes(r.references),
        if r.pending.Some? then r.pending.value.textBytes else 0,
        if r.pending.Some? then Utf8(r.pending.value.envelope) else 0)
  }
}
