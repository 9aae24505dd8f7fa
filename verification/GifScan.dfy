/**
 The scan of GIF containers (sections 15 and 20 of GIF89a): a screen, then extensions and
 images made of sub-blocks, then the trailer; exactly one image, within the screen.
 */
module GifScan {
  import opened Wrappers
  import opened ImageBytes

  const GIF87A: seq<Byte> := [0x47, 0x49, 0x46, 0x38, 0x37, 0x61]
  const GIF89A: seq<Byte> := [0x47, 0x49, 0x46, 0x38, 0x39, 0x61]
  const TRAILER: Byte := 0x3b
  const EXTENSION: Byte := 0x21
  const IMAGE: Byte := 0x2c

  datatype Block =
    | Extension(control: Byte, parts: seq<seq<Byte>>)
    | Image(descriptor: seq<Byte>, table: seq<Byte>, code: Byte, parts: seq<seq<Byte>>)

  /** The bytes of the colour table that a packed field announces. */
  function TableSize(packed: Byte): nat {
    if packed >= 128 then 3 * Doubled(packed % 8) else 0
  }

  /** Two, doubled `n` times. */
  function Doubled(n: nat): nat {
    if n == 0 then 2 else 2 * Doubled(n - 1)
  }

  // ----- sub-blocks -----

  predicate PartsOk(parts: seq<seq<Byte>>) {
    forall i | 0 <= i < |parts| :: 0 < |parts[i]| < 256
  }

  function SerializeParts(parts: seq<seq<Byte>>): seq<Byte>
    requires PartsOk(parts)
  {
    if parts == [] then [0]
    else
      assert 0 < |parts[0]| < 256;
      [|parts[0]| as Byte] + parts[0] + SerializeParts(parts[1..])
  }

  /** The sub-blocks at the front of the bytes up to their terminator, and how many bytes they take. */
  function Parts(d: seq<Byte>): (r: Option<(seq<seq<Byte>>, nat)>)
    ensures r.Some? ==> 0 < r.value.1 <= |d| && PartsOk(r.value.0)
    decreases |d|
  {
    if d == [] then None
    else if d[0] == 0 then Some(([], 1))
    else if |d| < (d[0] as nat) + 1 then None
    else
      match Parts(d[1 + d[0]..])
      case None => None
      case Some((more, size)) => Some(([d[1..1 + d[0]]] + more, 1 + d[0] + size))
  }

  lemma {:induction false} PartsSerialize(d: seq<Byte>)
    requires Parts(d).Some?
    ensures SerializeParts(Parts(d).value.0) == d[..Parts(d).value.1]
    decreases |d|
  {
    if d[0] == 0 {
      assert d[..1] == [0];
    } else {
      var rest := d[1 + d[0]..];
      PartsSerialize(rest);
      var (more, size) := Parts(rest).value;
      var parts := [d[1..1 + d[0]]] + more;
      assert parts[1..] == more;
      assert d[..1 + d[0] + size] == [d[0]] + d[1..1 + d[0]] + rest[..size];
    }
  }

  lemma PartsCons(part: seq<Byte>, tail: seq<Byte>)
    requires 0 < |part| < 256
    ensures Parts([|part| as Byte] + part + tail) ==
            match Parts(tail) { case None => None case Some((more, size)) => Some(([part] + more, 1 + |part| + size)) }
  {
    var d := [|part| as Byte] + part + tail;
    assert d[0] == |part| && d[1..1 + |part|] == part && d[1 + |part|..] == tail;
  }

  lemma SerializeCons(parts: seq<seq<Byte>>, rest: seq<Byte>)
    requires PartsOk(parts) && parts != []
    ensures PartsOk(parts[1..]) && 0 < |parts[0]| < 256
    ensures SerializeParts(parts) + rest == [|parts[0]| as Byte] + parts[0] + (SerializeParts(parts[1..]) + rest)
    ensures |SerializeParts(parts)| == 1 + |parts[0]| + |SerializeParts(parts[1..])|
  {
  }

  lemma {:induction false} PartsOfSerialized(parts: seq<seq<Byte>>, rest: seq<Byte>)
    requires PartsOk(parts)
    ensures Parts(SerializeParts(parts) + rest) == Some((parts, |SerializeParts(parts)|))
  {
    if parts == [] {
      assert ([0] + rest)[0] == 0;
    } else {
      hide Parts, SerializeParts, PartsOk;
      SerializeCons(parts, rest);
      PartsOfSerialized(parts[1..], rest);
      PartsCons(parts[0], SerializeParts(parts[1..]) + rest);
      assert [parts[0]] + parts[1..] == parts;
    }
  }

  // ----- the scan -----

  /** Checks an image descriptor against the screen. */
  function Descriptor(d: seq<Byte>, width: nat, height: nat): Result<nat, Error>
    requires |d| == 9
  {
    var area :- Area(U16Le(d, 4), U16Le(d, 6));
    if U16Le(d, 0) + U16Le(d, 4) > width || U16Le(d, 2) + U16Le(d, 6) > height then Failure(Malformed) else Success(area)
  }

  /** An image after its introducer: its sub-blocks and how many bytes it takes. */
  function ImageBody(d: seq<Byte>): (r: Option<(seq<seq<Byte>>, nat)>)
    requires |d| >= 9
    ensures r.Some? ==> 0 < r.value.1 <= |d|
  {
    var start := 9 + TableSize(d[8]) + 1;
    if start > |d| then None
    else
      match Parts(d[start..])
      case None => None
      case Some((parts, size)) => Some((parts, start + size))
  }

  function Rest(d: seq<Byte>, width: nat, height: nat, frames: nat): Result<(), Error>
    decreases |d|
  {
    if d == [] then Failure(Malformed)
    else if d[0] == TRAILER then if frames > 0 && |d| == 1 then Success(()) else Failure(Malformed)
    else if d[0] == EXTENSION then
      if |d| < 2 then Failure(Malformed)
      else
        match Parts(d[2..])
        case None => Failure(Malformed)
        case Some((_, size)) => Rest(d[2 + size..], width, height, frames)
    else if d[0] == IMAGE then
      if |d| < 10 then Failure(Malformed)
      else
        var _ :- Descriptor(d[1..10], width, height);
        if frames + 1 > 1 then Failure(Animated)
        else
          match ImageBody(d[1..])
          case None => Failure(Malformed)
          case Some((_, size)) => Rest(d[1 + size..], width, height, frames + 1)
    else Failure(Malformed)
  }

  predicate HasSignature(d: seq<Byte>) {
    |d| >= 10 && (d[..6] == GIF87A || d[..6] == GIF89A)
  }

  /** The area of an accepted image, which is that of its screen, or why it is refused. */
  function Scan(d: seq<Byte>): Result<nat, Error>
    requires HasSignature(d)
  {
    var pixels :- Area(U16Le(d, 6), U16Le(d, 8));
    if |d| < 13 || 13 + TableSize(d[10]) > |d| then Failure(Malformed)
    else
      var _ :- Rest(d[13 + TableSize(d[10])..], U16Le(d, 6), U16Le(d, 8), 0);
      Success(pixels)
  }

  // ----- what is accepted -----

  predicate BlockOk(b: Block, width: nat, height: nat) {
    && PartsOk(b.parts)
    && (b.Image? ==>
          |b.descriptor| == 9 && |b.table| == TableSize(b.descriptor[8]) && Descriptor(b.descriptor, width, height).Success?)
  }

  predicate BlocksOk(bs: seq<Block>, width: nat, height: nat) {
    forall i | 0 <= i < |bs| :: BlockOk(bs[i], width, height)
  }

  function Serialize(b: Block, width: nat, height: nat): seq<Byte>
    requires BlockOk(b, width, height)
  {
    match b
    case Extension(control, parts) => [EXTENSION, control] + SerializeParts(parts)
    case Image(descriptor, table, code, parts) => [IMAGE] + descriptor + table + [code] + SerializeParts(parts)
  }

  function SerializeAll(bs: seq<Block>, width: nat, height: nat): seq<Byte>
    requires BlocksOk(bs, width, height)
  {
    if bs == [] then [TRAILER] else Serialize(bs[0], width, height) + SerializeAll(bs[1..], width, height)
  }

  function Images(bs: seq<Block>): nat {
    if bs == [] then 0 else (if bs[0].Image? then 1 else 0) + Images(bs[1..])
  }

  /** A screen descriptor with its colour table, and the blocks before the trailer. */
  datatype Gif = Gif(signature: seq<Byte>, screen: seq<Byte>, table: seq<Byte>, blocks: seq<Block>)

  predicate ImageOk(g: Gif) {
    && (g.signature == GIF87A || g.signature == GIF89A) && |g.screen| == 7
    && |g.table| == TableSize(g.screen[4])
    && Area(U16Le(g.screen, 0), U16Le(g.screen, 2)).Success?
    && BlocksOk(g.blocks, U16Le(g.screen, 0), U16Le(g.screen, 2))
    && Images(g.blocks) == 1
  }

  function Encode(g: Gif): seq<Byte>
    requires ImageOk(g)
  {
    g.signature + g.screen + g.table + SerializeAll(g.blocks, U16Le(g.screen, 0), U16Le(g.screen, 2))
  }

  lemma ExtensionTiles(d: seq<Byte>) returns (b: Block, size: nat)
    requires |d| >= 2 && d[0] == EXTENSION && Parts(d[2..]).Some?
    ensures size == 2 + Parts(d[2..]).value.1 && b.Extension? && BlockOk(b, 0, 0)
    ensures forall w: nat, h: nat :: BlockOk(b, w, h) && Serialize(b, w, h) == d[..size]
  {
    hide Parts, SerializeParts;
    var (parts, n) := Parts(d[2..]).value;
    PartsSerialize(d[2..]);
    b, size := Extension(d[1], parts), 2 + n;
    assert d[..size] == [d[0], d[1]] + d[2..][..n];
  }

  lemma ImageTiles(d: seq<Byte>, width: nat, height: nat) returns (b: Block, size: nat)
    requires |d| >= 10 && d[0] == IMAGE && Descriptor(d[1..10], width, height).Success? && ImageBody(d[1..]).Some?
    ensures size == 1 + ImageBody(d[1..]).value.1 <= |d| && b.Image? && BlockOk(b, width, height)
    ensures Serialize(b, width, height) == d[..size]
  {
    hide Parts, SerializeParts, Descriptor, TableSize;
    var start := 10 + TableSize(d[9]) + 1;
    assert d[1..][8] == d[9] && d[1..][start - 1..] == d[start..] && d[1..10][8] == d[9];
    var (parts, n) := Parts(d[start..]).value;
    PartsSerialize(d[start..]);
    b, size := Image(d[1..10], d[10..start - 1], d[start - 1], parts), start + n;
    assert d[..size] == [d[0]] + d[1..10] + d[10..start - 1] + [d[start - 1]] + d[start..][..n];
  }

  lemma {:induction false} RestTiles(d: seq<Byte>, width: nat, height: nat, frames: nat) returns (bs: seq<Block>)
    requires Rest(d, width, height, frames).Success? && frames <= 1
    ensures BlocksOk(bs, width, height) && SerializeAll(bs, width, height) == d && frames + Images(bs) == 1
    decreases |d|
  {
    hide BlockOk, Serialize, Parts, ImageBody, Descriptor;
    if d[0] == TRAILER {
      bs := [];
      assert d == [TRAILER];
    } else if d[0] == EXTENSION {
      var b, size := ExtensionTiles(d);
      assert BlockOk(b, width, height);
      var more := RestTiles(d[size..], width, height, frames);
      bs := [b] + more;
      assert bs[1..] == more && d == d[..size] + d[size..];
    } else {
      var b, size := ImageTiles(d, width, height);
      var more := RestTiles(d[size..], width, height, frames + 1);
      bs := [b] + more;
      assert bs[1..] == more && d == d[..size] + d[size..];
    }
  }

  lemma ExtensionAccepted(b: Block, rest: seq<Byte>, width: nat, height: nat, frames: nat)
    requires BlockOk(b, width, height) && b.Extension?
    ensures Rest(Serialize(b, width, height) + rest, width, height, frames) == Rest(rest, width, height, frames)
  {
    hide Parts, SerializeParts, Descriptor, TableSize, ImageBody;
    var d := Serialize(b, width, height) + rest;
    PartsOfSerialized(b.parts, rest);
    assert d[2..] == SerializeParts(b.parts) + rest;
    assert d[2 + |SerializeParts(b.parts)|..] == rest;
  }

  lemma ImageSlices(descriptor: seq<Byte>, table: seq<Byte>, code: Byte, tail: seq<Byte>)
    requires |descriptor| == 9
    ensures var d := [IMAGE] + descriptor + table + [code] + tail;
            && |d| == 11 + |table| + |tail| && d[0] == IMAGE && d[1..10] == descriptor && d[1..][8] == descriptor[8]
            && d[1..][10 + |table|..] == tail
  {
  }

  lemma ImageBodyOfSerialized(b: Block, rest: seq<Byte>, width: nat, height: nat)
    requires BlockOk(b, width, height) && b.Image?
    ensures var d := Serialize(b, width, height) + rest;
            && |d| >= 10 && d[0] == IMAGE && d[1..10] == b.descriptor
            && ImageBody(d[1..]) == Some((b.parts, |Serialize(b, width, height)| - 1))
            && d[|Serialize(b, width, height)|..] == rest
  {
    hide Parts, SerializeParts, Descriptor, TableSize, Rest;
    var d := Serialize(b, width, height) + rest;
    var tail := SerializeParts(b.parts) + rest;
    PartsOfSerialized(b.parts, rest);
    assert d == [IMAGE] + b.descriptor + b.table + [b.code] + tail;
    ImageSlices(b.descriptor, b.table, b.code, tail);
  }

  lemma ImageAccepted(b: Block, rest: seq<Byte>, width: nat, height: nat)
    requires BlockOk(b, width, height) && b.Image?
    ensures Rest(Serialize(b, width, height) + rest, width, height, 0) == Rest(rest, width, height, 1)
  {
    hide Parts, SerializeParts, Descriptor, TableSize, ImageBody, Serialize;
    ImageBodyOfSerialized(b, rest, width, height);
  }

  lemma {:induction false} TilesAreAccepted(bs: seq<Block>, width: nat, height: nat, frames: nat)
    requires BlocksOk(bs, width, height) && frames + Images(bs) == 1
    ensures Rest(SerializeAll(bs, width, height), width, height, frames).Success?
  {
    hide BlockOk, Serialize;
    if bs != [] {
      var rest := SerializeAll(bs[1..], width, height);
      if bs[0].Image? { ImageAccepted(bs[0], rest, width, height); } else { ExtensionAccepted(bs[0], rest, width, height, frames); }
      TilesAreAccepted(bs[1..], width, height, frames + if bs[0].Image? then 1 else 0);
    }
  }

  /** An accepted input is the serialization of a valid image with exactly one frame. */
  lemma AcceptedTiles(d: seq<Byte>) returns (g: Gif)
    requires HasSignature(d) && Scan(d).Success?
    ensures ImageOk(g) && Encode(g) == d
    ensures Scan(d).value == U16Le(g.screen, 0) * U16Le(g.screen, 2) <= MAXIMUM_PIXELS
  {
    hide Rest, TableSize, SerializeAll, BlocksOk, Images;
    var start := 13 + TableSize(d[10]);
    var bs := RestTiles(d[start..], U16Le(d, 6), U16Le(d, 8), 0);
    g := Gif(d[..6], d[6..13], d[13..start], bs);
    assert g.screen[4] == d[10];
    assert U16Le(g.screen, 0) == U16Le(d, 6) && U16Le(g.screen, 2) == U16Le(d, 8);
    assert d == d[..6] + d[6..13] + d[13..start] + d[start..];
  }

  /** Every valid image with exactly one frame is accepted. */
  lemma TilingAccepted(g: Gif)
    requires ImageOk(g)
    ensures HasSignature(Encode(g)) && Scan(Encode(g)).Success?
  {
    hide Rest, TableSize, SerializeAll, BlocksOk, Images;
    var d := Encode(g);
    var tail := SerializeAll(g.blocks, U16Le(g.screen, 0), U16Le(g.screen, 2));
    TilesAreAccepted(g.blocks, U16Le(g.screen, 0), U16Le(g.screen, 2), 0);
    assert d[..6] == g.signature && d[6..13] == g.screen && d[10] == g.screen[4];
    assert U16Le(g.screen, 0) == U16Le(d, 6) && U16Le(g.screen, 2) == U16Le(d, 8);
    assert d[13 + |g.table|..] == tail;
  }

  // ----- as the program scans -----

  /** Skips sub-blocks from `start` up to and including their terminator. */
  method Blocks(data: seq<Byte>, start: nat) returns (end: Option<nat>)
    requires start <= |data|
    ensures end == match Parts(data[start..]) { case None => None case Some((_, size)) => Some(start + size) }
  {
    var offset := start;
    ghost var whole := Parts(data[start..]);
    while true
      invariant start <= offset <= |data|
      invariant match Parts(data[offset..])
                case None => whole.None?
                case Some((_, size)) => whole.Some? && start + whole.value.1 == offset + size
      decreases |data| - offset
    {
      if offset >= |data| { return None; }
      var size := data[offset];
      if size == 0 { return Some(offset + 1); }
      if offset + 1 + size > |data| { return None; }
      assert data[offset..][1 + size..] == data[offset + 1 + size..];
      offset := offset + 1 + size;
    }
  }

  /** Skips an image whose descriptor starts at `at`. */
  method SkipImage(data: seq<Byte>, at: nat) returns (end: Option<nat>)
    requires at + 9 <= |data|
    ensures end == match ImageBody(data[at..]) { case None => None case Some((_, size)) => Some(at + size) }
  {
    hide Parts, TableSize;
    var packed := data[at + 8];
    var body := at + 9 + TableSize(packed) + 1;
    if body > |data| { return None; }
    assert data[at..][body - at..] == data[body..];
    end := Blocks(data, body);
  }

  method BoundedGif(data: seq<Byte>) returns (r: Result<nat, Error>)
    requires HasSignature(data)
    ensures r == Scan(data)
  {
    hide Parts, Descriptor, TableSize, ImageBody, Area;
    var width, height := U16Le(data, 6), U16Le(data, 8);
    var pixels :- Area(width, height);
    if |data| < 13 { return Failure(Malformed); }
    var start := 13 + TableSize(data[10]);
    if start > |data| { return Failure(Malformed); }
    var ok :- ScanBlocks(data, start, width, height);
    return Success(pixels);
  }

  lemma RestAtExtension(data: seq<Byte>, o: nat, width: nat, height: nat, frames: nat)
    requires o < |data| && data[o] == EXTENSION
    ensures Rest(data[o..], width, height, frames) ==
            if o + 2 > |data| then Failure(Malformed)
            else match Parts(data[o + 2..]) {
              case None => Failure(Malformed)
              case Some((_, size)) => Rest(data[o + 2 + size..], width, height, frames)
            }
  {
    hide Parts, ImageBody, Descriptor;
    if o + 2 <= |data| {
      assert data[o..][2..] == data[o + 2..];
      if Parts(data[o + 2..]).Some? {
        var size := Parts(data[o + 2..]).value.1;
        assert data[o..][2 + size..] == data[o + 2 + size..];
      }
    }
  }

  lemma RestAtImage(data: seq<Byte>, o: nat, width: nat, height: nat, frames: nat)
    requires o < |data| && data[o] == IMAGE
    ensures Rest(data[o..], width, height, frames) ==
            if o + 10 > |data| then Failure(Malformed)
            else if Descriptor(data[o + 1..o + 10], width, height).Failure? then Failure(Descriptor(data[o + 1..o + 10], width, height).error)
            else if frames + 1 > 1 then Failure(Animated)
            else match ImageBody(data[o + 1..]) {
              case None => Failure(Malformed)
              case Some((_, size)) => Rest(data[o + 1 + size..], width, height, frames + 1)
            }
  {
    hide Parts, ImageBody, Descriptor;
    if o + 10 <= |data| {
      assert data[o..][1..10] == data[o + 1..o + 10];
      assert data[o..][1..] == data[o + 1..];
      if ImageBody(data[o + 1..]).Some? {
        var size := ImageBody(data[o + 1..]).value.1;
        assert data[o..][1 + size..] == data[o + 1 + size..];
      }
    }
  }

  lemma RestElsewhere(data: seq<Byte>, o: nat, width: nat, height: nat, frames: nat)
    requires o <= |data| && (o < |data| ==> data[o] != EXTENSION && data[o] != IMAGE)
    ensures Rest(data[o..], width, height, frames) ==
            if o < |data| && data[o] == TRAILER && frames > 0 && o + 1 == |data| then Success(()) else Failure(Malformed)
  {
  }

  method ScanBlocks(data: seq<Byte>, start: nat, width: nat, height: nat) returns (r: Result<(), Error>)
    requires start <= |data|
    ensures r == Rest(data[start..], width, height, 0)
  {
    hide Rest, Parts, Descriptor, ImageBody;
    var offset, frames, ended := start, 0, false;
    while offset < |data| && !ended
      invariant start <= offset <= |data|
      invariant ended ==> Rest(data[start..], width, height, 0) == if frames > 0 && offset == |data| then Success(()) else Failure(Malformed)
      invariant !ended ==> Rest(data[start..], width, height, 0) == Rest(data[offset..], width, height, frames)
      decreases |data| - offset, !ended
    {
      var kind := data[offset];
      if kind == TRAILER {
        RestElsewhere(data, offset, width, height, frames);
        offset, ended := offset + 1, true;
      } else if kind == EXTENSION {
        RestAtExtension(data, offset, width, height, frames);
        if offset + 2 > |data| { return Failure(Malformed); }
        var end := Blocks(data, offset + 2);
        if end.None? { return Failure(Malformed); }
        offset := end.value;
      } else if kind == IMAGE {
        RestAtImage(data, offset, width, height, frames);
        if offset + 10 > |data| { return Failure(Malformed); }
        var _ :- Descriptor(data[offset + 1..offset + 10], width, height);
        if frames + 1 > 1 { return Failure(Animated); }
        var end := SkipImage(data, offset + 1);
        if end.None? { return Failure(Malformed); }
        offset, frames := end.value, frames + 1;
      } else {
        RestElsewhere(data, offset, width, height, frames);
        return Failure(Malformed);
      }
    }
    if !ended { RestElsewhere(data, offset, width, height, frames); }
    return if !ended || frames == 0 || offset != |data| then Failure(Malformed) else Success(());
  }
}
