/**
 The scan of WebP containers (section 2.3 of RFC 9649): the bytes tile into padded chunks.
 */
module WebpScan {
  import opened Wrappers
  import opened ImageBytes

  const RIFF: seq<Byte> := [0x52, 0x49, 0x46, 0x46]
  const WEBP: seq<Byte> := [0x57, 0x45, 0x42, 0x50]
  const ANIM: seq<Byte> := [0x41, 0x4e, 0x49, 0x4d]
  const ANMF: seq<Byte> := [0x41, 0x4e, 0x4d, 0x46]
  const VP8X: seq<Byte> := [0x56, 0x50, 0x38, 0x58]
  const VP8: seq<Byte> := [0x56, 0x50, 0x38, 0x20]
  const VP8L: seq<Byte> := [0x56, 0x50, 0x38, 0x4c]
  const FRAME_TAG: seq<Byte> := [0x9d, 0x01, 0x2a]

  /** A chunk; an odd body is followed by one byte of padding. */
  datatype Chunk = Chunk(kind: seq<Byte>, body: seq<Byte>, padding: seq<Byte>)

  predicate ChunkOk(c: Chunk) {
    |c.kind| == 4 && |c.body| < 0x100000000 && |c.padding| == |c.body| % 2
  }

  function Serialize(c: Chunk): (b: seq<Byte>)
    requires ChunkOk(c)
    ensures |b| == |c.body| + 8 + |c.body| % 2
  {
    c.kind + Le32(|c.body|) + c.body + c.padding
  }

  predicate ChunksOk(cs: seq<Chunk>) {
    forall i | 0 <= i < |cs| :: ChunkOk(cs[i])
  }

  function SerializeAll(cs: seq<Chunk>): seq<Byte>
    requires ChunksOk(cs)
  {
    if cs == [] then [] else Serialize(cs[0]) + SerializeAll(cs[1..])
  }

  function Front(d: seq<Byte>): (c: Option<Chunk>)
    ensures c.Some? ==> ChunkOk(c.value) && |c.value.body| + 8 + |c.value.body| % 2 <= |d|
  {
    if |d| < 8 || U32Le(d, 4) + 8 + U32Le(d, 4) % 2 > |d| then None
    else
      var size := U32Le(d, 4);
      Some(Chunk(d[..4], d[8..8 + size], d[8 + size..8 + size + size % 2]))
  }

  /** The chunk starts here, but its padding may be missing. */
  function Body(d: seq<Byte>): (c: Option<(seq<Byte>, seq<Byte>)>)
    ensures c.Some? ==> |c.value.0| == 4 && |d| >= 8 && |c.value.1| == U32Le(d, 4) && |c.value.1| + 8 <= |d|
  {
    if |d| < 8 || U32Le(d, 4) + 8 > |d| then None else Some((d[..4], d[8..8 + U32Le(d, 4)]))
  }

  lemma FrontSerializes(d: seq<Byte>)
    requires Front(d).Some?
    ensures d == Serialize(Front(d).value) + d[|Front(d).value.body| + 8 + |Front(d).value.body| % 2..]
  {
    var size := U32Le(d, 4);
    var end := 8 + size + size % 2;
    BytesRoundTrip(d, 4);
    assert d == d[..4] + d[4..8] + d[8..8 + size] + d[8 + size..end] + d[end..];
  }

  lemma FrontOfSerialized(c: Chunk, rest: seq<Byte>)
    requires ChunkOk(c)
    ensures Front(Serialize(c) + rest) == Some(c) && (Serialize(c) + rest)[|c.body| + 8 + |c.body| % 2..] == rest
    ensures Body(Serialize(c) + rest) == Some((c.kind, c.body))
  {
    hide Le32;
    var d := Serialize(c) + rest;
    var size := |c.body|;
    NumbersRoundTrip(size);
    assert d[4..8] == Le32(size);
    assert U32Le(d, 4) == U32Le(d[4..8], 0);
    assert d[..4] == c.kind && d[8..8 + size] == c.body && d[8 + size..8 + size + size % 2] == c.padding;
  }

  // ----- the scan -----

  /** What one chunk declares: the area of an image chunk and whether it holds the image itself. */
  function Declares(kind: seq<Byte>, body: seq<Byte>): Result<(nat, bool), Error> {
    if kind == ANIM || kind == ANMF then Failure(Animated)
    else if kind == VP8X then
      if |body| != 10 then Failure(Malformed)
      else if body[0] / 2 % 2 == 1 then Failure(Animated)
      else
        var area :- Area(U24Le(body, 4) + 1, U24Le(body, 7) + 1);
        Success((area, false))
    else if kind == VP8 then
      if |body| < 10 || body[3..6] != FRAME_TAG then Failure(Malformed)
      else
        var area :- Area(U16Le(body, 6) % 0x4000, U16Le(body, 8) % 0x4000);
        Success((area, true))
    else if kind == VP8L then
      if |body| < 5 || body[0] != 0x2f then Failure(Malformed)
      else
        var area :- Area(U32Le(body, 1) % 0x4000 + 1, U32Le(body, 1) / 0x4000 % 0x4000 + 1);
        Success((area, true))
    else Success((0, false))
  }

  /** The largest area declared from here on, given what was seen before. */
  function Rest(d: seq<Byte>, pixels: nat, found: bool): Result<nat, Error>
    decreases |d|
  {
    if d == [] then if found then Success(pixels) else Failure(Malformed)
    else
      match Body(d)
      case None => Failure(Malformed)
      case Some((kind, body)) =>
        var declared :- Declares(kind, body);
        var end := |body| + 8 + |body| % 2;
        if end > |d| then Failure(Malformed) else Rest(d[end..], Max(pixels, declared.0), found || declared.1)
  }

  predicate HasTags(d: seq<Byte>) {
    |d| >= 12 && d[..4] == RIFF && d[8..12] == WEBP
  }

  function Scan(d: seq<Byte>): Result<nat, Error>
    requires HasTags(d)
  {
    if U32Le(d, 4) + 8 != |d| then Failure(Malformed) else Rest(d[12..], 0, false)
  }

  // ----- what is accepted -----

  predicate Still(c: Chunk) {
    Declares(c.kind, c.body).Success?
  }

  predicate HoldsImage(c: Chunk) {
    c.kind == VP8 || c.kind == VP8L
  }

  /** Nothing animated or malformed, and at least one chunk with the image: not, as one might expect, exactly one. */
  predicate ImageOk(cs: seq<Chunk>, found: bool) {
    && ChunksOk(cs) && (forall i | 0 <= i < |cs| :: Still(cs[i]))
    && (found || exists i :: 0 <= i < |cs| && HoldsImage(cs[i]))
  }

  function Largest(cs: seq<Chunk>, pixels: nat): nat
    requires forall i | 0 <= i < |cs| :: Still(cs[i])
  {
    if cs == [] then pixels
    else
      assert Still(cs[0]);
      Largest(cs[1..], Max(pixels, Declares(cs[0].kind, cs[0].body).value.0))
  }

  lemma DeclaresImage(c: Chunk)
    requires Still(c)
    ensures Declares(c.kind, c.body).value.1 <==> HoldsImage(c)
    ensures Declares(c.kind, c.body).value.0 <= MAXIMUM_PIXELS
  {
    hide U16Le, U24Le, U32Le;
  }

  /** A body followed by its padding is a whole chunk. */
  lemma BodyIsFront(d: seq<Byte>)
    requires Body(d).Some? && |Body(d).value.1| + 8 + |Body(d).value.1| % 2 <= |d|
    ensures Front(d).Some? && Front(d).value.kind == Body(d).value.0 && Front(d).value.body == Body(d).value.1
  {
  }

  lemma AcceptedCons(c: Chunk, more: seq<Chunk>, found: bool)
    requires ChunkOk(c) && Still(c) && ImageOk(more, found || Declares(c.kind, c.body).value.1)
    ensures ImageOk([c] + more, found)
  {
    hide Declares, HoldsImage, ChunkOk;
    DeclaresImage(c);
    var cs := [c] + more;
    assert forall i | 0 < i < |cs| :: cs[i] == more[i - 1];
    if !found {
      if HoldsImage(c) {
        assert HoldsImage(cs[0]);
      } else {
        var i :| 0 <= i < |more| && HoldsImage(more[i]);
        assert HoldsImage(cs[i + 1]);
      }
    }
  }

  lemma {:induction false} RestTiles(d: seq<Byte>, pixels: nat, found: bool) returns (cs: seq<Chunk>)
    requires Rest(d, pixels, found).Success?
    ensures ImageOk(cs, found) && SerializeAll(cs) == d && Rest(d, pixels, found).value == Largest(cs, pixels)
    decreases |d|
  {
    if d == [] {
      cs := [];
    } else {
      hide Declares, HoldsImage, Body, Front, Serialize, ImageOk;
      BodyIsFront(d);
      var c := Front(d).value;
      var end := |c.body| + 8 + |c.body| % 2;
      FrontSerializes(d);
      var declared := Declares(c.kind, c.body).value;
      var more := RestTiles(d[end..], Max(pixels, declared.0), found || declared.1);
      cs := [c] + more;
      assert cs[1..] == more;
      ImageChunksOk(more, found || declared.1);
      AcceptedCons(c, more, found);
      ImageChunksOk(cs, found);
    }
  }

  lemma ImageChunksOk(cs: seq<Chunk>, found: bool)
    requires ImageOk(cs, found)
    ensures ChunksOk(cs) && forall i | 0 <= i < |cs| :: Still(cs[i])
  {
  }

  lemma {:induction false} TilesAreAccepted(cs: seq<Chunk>, pixels: nat, found: bool)
    requires ImageOk(cs, found)
    ensures Rest(SerializeAll(cs), pixels, found) == Success(Largest(cs, pixels))
  {
    hide Declares, HoldsImage;
    if cs != [] {
      var c := cs[0];
      FrontOfSerialized(c, SerializeAll(cs[1..]));
      assert Still(c);
      DeclaresImage(c);
      var declared := Declares(c.kind, c.body).value;
      assert forall i | 0 <= i < |cs[1..]| :: cs[1..][i] == cs[i + 1];
      if !(found || declared.1) {
        var i :| 0 <= i < |cs| && HoldsImage(cs[i]);
        assert HoldsImage(cs[1..][i - 1]);
      }
      TilesAreAccepted(cs[1..], Max(pixels, declared.0), found || declared.1);
    }
  }

  lemma {:induction false} LargestBounded(cs: seq<Chunk>, pixels: nat)
    requires (forall i | 0 <= i < |cs| :: Still(cs[i])) && pixels <= MAXIMUM_PIXELS
    ensures Largest(cs, pixels) <= MAXIMUM_PIXELS
  {
    if cs != [] {
      assert Still(cs[0]);
      DeclaresImage(cs[0]);
      LargestBounded(cs[1..], Max(pixels, Declares(cs[0].kind, cs[0].body).value.0));
    }
  }

  function Encode(cs: seq<Chunk>): seq<Byte>
    requires ChunksOk(cs) && |SerializeAll(cs)| + 4 < 0x100000000
  {
    RIFF + Le32(|SerializeAll(cs)| + 4) + WEBP + SerializeAll(cs)
  }

  /** An accepted input is the serialization of a valid list of chunks, none of which declares too much. */
  lemma AcceptedTiles(d: seq<Byte>) returns (cs: seq<Chunk>)
    requires HasTags(d) && Scan(d).Success?
    ensures ImageOk(cs, false) && |SerializeAll(cs)| + 4 < 0x100000000 && Encode(cs) == d
    ensures Scan(d).value == Largest(cs, 0) <= MAXIMUM_PIXELS
  {
    hide Rest, Declares, Largest, U32Le, Le32;
    cs := RestTiles(d[12..], 0, false);
    LargestBounded(cs, 0);
    BytesRoundTrip(d, 4);
    assert d == d[..4] + d[4..8] + d[8..12] + d[12..];
  }

  /** Every valid list of chunks is accepted, so the scan accepts exactly the inputs that tile into one. */
  lemma TilingAccepted(cs: seq<Chunk>)
    requires ImageOk(cs, false) && |SerializeAll(cs)| + 4 < 0x100000000
    ensures HasTags(Encode(cs)) && Scan(Encode(cs)) == Success(Largest(cs, 0))
  {
    hide Rest, Declares, Largest, Le32;
    var d := Encode(cs);
    TilesAreAccepted(cs, 0, false);
    NumbersRoundTrip(|SerializeAll(cs)| + 4);
    assert d[4..8] == Le32(|SerializeAll(cs)| + 4);
    assert U32Le(d, 4) == U32Le(d[4..8], 0);
    assert d[..4] == RIFF && d[8..12] == WEBP && d[12..] == SerializeAll(cs);
  }

  /** A container with two images is accepted, although it is neither animated nor one frame. */
  lemma TwoImagesAccepted() returns (cs: seq<Chunk>)
    ensures ImageOk(cs, false) && |cs| == 2 && HoldsImage(cs[0]) && HoldsImage(cs[1])
    ensures |SerializeAll(cs)| + 4 < 0x100000000 && HasTags(Encode(cs)) && Scan(Encode(cs)) == Success(1)
  {
    var c := Chunk(VP8L, [0x2f, 0, 0, 0, 0], [0]);
    cs := [c, c];
    assert U32Le(c.body, 1) == 0;
    assert Declares(c.kind, c.body) == Success((1, true));
    assert HoldsImage(cs[0]);
    assert cs[1..] == [c] && cs[1..][1..] == [];
    assert Largest(cs[1..], 1) == Largest([], 1);
    assert SerializeAll([]) == [] && |SerializeAll(cs[1..])| == 14 && |SerializeAll(cs)| == 28;
    TilingAccepted(cs);
  }

  // ----- as the program scans -----

  method BoundedWebp(data: seq<Byte>) returns (r: Result<nat, Error>)
    requires HasTags(data)
    ensures r == Scan(data)
  {
    hide Body, Declares;
    if U32Le(data, 4) + 8 != |data| { return Failure(Malformed); }
    var found, pixels, offset := false, 0, 12;
    while offset < |data|
      invariant 12 <= offset <= |data|
      invariant Rest(data[12..], 0, false) == Rest(data[offset..], pixels, found)
    {
      var chunk := Body(data[offset..]);
      if chunk.None? { return Failure(Malformed); }
      var (kind, body) := chunk.value;
      var declared :- Declares(kind, body);
      pixels := Max(pixels, declared.0);
      found := found || declared.1;
      var end := |body| + 8 + |body| % 2;
      if offset + end > |data| { return Failure(Malformed); }
      assert data[offset..][end..] == data[offset + end..];
      offset := offset + end;
    }
    if !found { return Failure(Malformed); }
    return Success(pixels);
  }
}
