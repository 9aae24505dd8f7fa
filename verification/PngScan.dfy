/**
 The scan of PNG containers (section 3.2 of RFC 2083): the bytes after the signature tile
 into chunks, the first of which is the header and the last of which ends the image.
 */
module PngScan {
  import opened Wrappers
  import opened ImageBytes

  const SIGNATURE: seq<Byte> := [0x89, 0x50, 0x4e, 0x47, 0x0d, 0x0a, 0x1a, 0x0a]
  const IHDR: seq<Byte> := [0x49, 0x48, 0x44, 0x52]
  const IEND: seq<Byte> := [0x49, 0x45, 0x4e, 0x44]
  const ACTL: seq<Byte> := [0x61, 0x63, 0x54, 0x4c]

  datatype Chunk = Chunk(kind: seq<Byte>, body: seq<Byte>, crc: seq<Byte>)

  predicate ChunkOk(c: Chunk) {
    |c.kind| == 4 && |c.crc| == 4 && |c.body| < 0x100000000
  }

  function Serialize(c: Chunk): (b: seq<Byte>)
    requires ChunkOk(c)
    ensures |b| == |c.body| + 12
  {
    Be32(|c.body|) + c.kind + c.body + c.crc
  }

  predicate ChunksOk(cs: seq<Chunk>) {
    forall i | 0 <= i < |cs| :: ChunkOk(cs[i])
  }

  function SerializeAll(cs: seq<Chunk>): seq<Byte>
    requires ChunksOk(cs)
  {
    if cs == [] then [] else Serialize(cs[0]) + SerializeAll(cs[1..])
  }

  /** The chunk at the front of the bytes, if a whole one is there. */
  function Front(d: seq<Byte>): (c: Option<Chunk>)
    ensures c.Some? ==> ChunkOk(c.value) && |c.value.body| + 12 <= |d|
  {
    if |d| < 12 || U32Be(d, 0) + 12 > |d| then None
    else
      var size := U32Be(d, 0);
      Some(Chunk(d[4..8], d[8..8 + size], d[8 + size..12 + size]))
  }

  lemma FrontSerializes(d: seq<Byte>)
    requires Front(d).Some?
    ensures d == Serialize(Front(d).value) + d[|Front(d).value.body| + 12..]
  {
    var size := U32Be(d, 0);
    BytesRoundTrip(d, 0);
    assert d == d[0..4] + d[4..8] + d[8..8 + size] + d[8 + size..12 + size] + d[12 + size..];
  }

  lemma FrontOfSerialized(c: Chunk, rest: seq<Byte>)
    requires ChunkOk(c)
    ensures Front(Serialize(c) + rest) == Some(c) && (Serialize(c) + rest)[|c.body| + 12..] == rest
  {
    hide Be32;
    var d := Serialize(c) + rest;
    NumbersRoundTrip(|c.body|);
    assert d[..4] == Be32(|c.body|);
    assert U32Be(d, 0) == U32Be(d[..4], 0);
    assert d[4..8] == c.kind && d[8..8 + |c.body|] == c.body && d[8 + |c.body|..12 + |c.body|] == c.crc;
  }

  // ----- the scan -----

  /** The chunks from here on, one of them at the front of the image if `first`. */
  function Rest(d: seq<Byte>, first: bool): Result<(), Error>
    decreases |d|
  {
    if d == [] then Failure(Malformed)
    else
      match Front(d)
      case None => Failure(Malformed)
      case Some(c) =>
        var rest := d[|c.body| + 12..];
        if c.kind == ACTL then Failure(Animated)
        else if c.kind == IHDR && !first then Failure(Malformed)
        else if c.kind == IEND then if rest == [] && c.body == [] then Success(()) else Failure(Malformed)
        else Rest(rest, false)
  }

  predicate HasSignature(d: seq<Byte>) {
    |d| >= 10 && d[..8] == SIGNATURE
  }

  /** The area of an accepted image, or why it is refused. */
  function Scan(d: seq<Byte>): Result<nat, Error>
    requires HasSignature(d)
  {
    if |d| < 16 || U32Be(d, 8) != 13 || d[12..16] != IHDR || |d| < 24 then Failure(Malformed)
    else
      var pixels :- Area(U32Be(d, 16), U32Be(d, 20));
      var _ :- Rest(d[8..], true);
      Success(pixels)
  }

  // ----- what is accepted -----

  /** A header first and only first, an empty end chunk last and only last, and no animation control. */
  predicate Still(cs: seq<Chunk>, first: bool) {
    && cs != [] && cs[|cs| - 1].kind == IEND && cs[|cs| - 1].body == []
    && forall i | 0 <= i < |cs| ::
         && cs[i].kind != ACTL && (cs[i].kind == IEND ==> i == |cs| - 1)
         && (cs[i].kind == IHDR ==> first && i == 0)
  }

  lemma {:induction false} RestTiles(d: seq<Byte>, first: bool) returns (cs: seq<Chunk>)
    requires Rest(d, first).Success?
    ensures ChunksOk(cs) && Still(cs, first) && SerializeAll(cs) == d
    decreases |d|
  {
    var c := Front(d).value;
    var rest := d[|c.body| + 12..];
    FrontSerializes(d);
    if c.kind == IEND {
      cs := [c];
      assert cs[1..] == [];
    } else {
      var more := RestTiles(rest, false);
      cs := [c] + more;
      assert cs[1..] == more;
    }
  }

  lemma {:induction false} TilesAreAccepted(cs: seq<Chunk>, first: bool)
    requires ChunksOk(cs) && Still(cs, first)
    ensures Rest(SerializeAll(cs), first).Success?
  {
    FrontOfSerialized(cs[0], SerializeAll(cs[1..]));
    if |cs| > 1 {
      assert forall i | 0 <= i < |cs[1..]| :: cs[1..][i] == cs[i + 1];
      TilesAreAccepted(cs[1..], false);
    } else {
      assert cs[1..] == [];
    }
  }

  /** A PNG image as a list of chunks: its header declares a positive area within the limit. */
  predicate ImageOk(cs: seq<Chunk>) {
    && ChunksOk(cs) && Still(cs, true) && cs[0].kind == IHDR && |cs[0].body| == 13
    && Area(U32Be(cs[0].body, 0), U32Be(cs[0].body, 4)).Success?
  }

  function Encode(cs: seq<Chunk>): seq<Byte>
    requires ChunksOk(cs)
  {
    SIGNATURE + SerializeAll(cs)
  }

  lemma AtOffset(d: seq<Byte>, o: nat, k: nat)
    requires o + k + 4 <= |d|
    ensures U32Be(d[o..], k) == U32Be(d, o + k)
  {
  }

  /** An accepted input is the serialization of a valid list of chunks; its area is what the header declares. */
  lemma AcceptedTiles(d: seq<Byte>) returns (cs: seq<Chunk>)
    requires HasSignature(d) && Scan(d).Success?
    ensures ImageOk(cs) && Encode(cs) == d
    ensures Scan(d).value == U32Be(cs[0].body, 0) * U32Be(cs[0].body, 4) <= MAXIMUM_PIXELS
  {
    hide U32Be, Be32, Rest;
    var rest := d[8..];
    cs := RestTiles(rest, true);
    assert d == d[..8] + rest;
    HeaderOf(cs);
    AtOffset(d, 8, 0);
    AtOffset(d, 8, 8);
    AtOffset(d, 8, 12);
    assert rest[4..8] == d[12..16];
  }

  /** The first chunk read from the serialized bytes. */
  lemma HeaderOf(cs: seq<Chunk>)
    requires ChunksOk(cs) && cs != []
    ensures |SerializeAll(cs)| >= 12 && U32Be(SerializeAll(cs), 0) == |cs[0].body| && SerializeAll(cs)[4..8] == cs[0].kind
    ensures |cs[0].body| >= 8 ==>
              && |SerializeAll(cs)| >= 20
              && U32Be(SerializeAll(cs), 8) == U32Be(cs[0].body, 0) && U32Be(SerializeAll(cs), 12) == U32Be(cs[0].body, 4)
  {
    hide Be32;
    FrontOfSerialized(cs[0], SerializeAll(cs[1..]));
    var d := SerializeAll(cs);
    assert Front(d) == Some(cs[0]);
    assert d[8..8 + |cs[0].body|] == cs[0].body;
    if |cs[0].body| >= 8 {
      AtOffset(d, 8, 0);
      AtOffset(d, 8, 4);
      assert forall k | 0 <= k < 8 :: d[8 + k] == cs[0].body[k];
    }
  }

  /** Every valid list of chunks is accepted, so the scan accepts exactly the inputs that tile into one. */
  lemma TilingAccepted(cs: seq<Chunk>)
    requires ImageOk(cs)
    ensures HasSignature(Encode(cs)) && Scan(Encode(cs)).Success?
  {
    hide U32Be, Be32, Rest;
    var d := Encode(cs);
    var rest := SerializeAll(cs);
    HeaderOf(cs);
    TilesAreAccepted(cs, true);
    assert d[8..] == rest;
    AtOffset(d, 8, 0);
    AtOffset(d, 8, 8);
    AtOffset(d, 8, 12);
    assert d[..8] == SIGNATURE;
    assert d[12..16] == rest[4..8];
  }

  // ----- as the program scans -----

  method BoundedPng(data: seq<Byte>) returns (r: Result<nat, Error>)
    requires HasSignature(data)
    ensures r == Scan(data)
  {
    hide Front;
    if |data| < 16 || U32Be(data, 8) != 13 || data[12..16] != IHDR || |data| < 24 { return Failure(Malformed); }
    var pixels :- Area(U32Be(data, 16), U32Be(data, 20));
    var ended := false;
    var offset := 8;
    while offset < |data|
      invariant 8 <= offset <= |data|
      invariant ended ==> offset == |data| && Rest(data[8..], true) == Success(())
      invariant !ended ==> Rest(data[8..], true) == Rest(data[offset..], offset == 8)
    {
      var chunk := Front(data[offset..]);
      if chunk.None? { return Failure(Malformed); }
      var kind, size := chunk.value.kind, |chunk.value.body|;
      assert data[offset..][size + 12..] == data[offset + size + 12..];
      if kind == ACTL { return Failure(Animated); }
      if kind == IHDR && offset != 8 { return Failure(Malformed); }
      offset := offset + size + 12;
      if kind == IEND {
        if offset != |data| || size != 0 { return Failure(Malformed); }
        ended := true;
      }
    }
    if !ended { return Failure(Malformed); }
    return Success(pixels);
  }
}
