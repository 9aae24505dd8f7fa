/** Bytes of an encoded image, the numbers in them, and what all raster scans share. */
module ImageBytes {
  import opened Wrappers

  type Byte = x: nat | x < 256

  datatype Error = Malformed | TooManyPixels | Animated

  const MAXIMUM_PIXELS: nat := 16777216

  /** Checks declared dimensions; their area is what the image costs. */
  function Area(width: nat, height: nat): Result<nat, Error> {
    if width == 0 || height == 0 then Failure(Malformed)
    else if width * height > MAXIMUM_PIXELS then Failure(TooManyPixels)
    else Success(width * height)
  }

  function Max(a: nat, b: nat): nat {
    if a < b then b else a
  }

  function U16Le(d: seq<Byte>, o: nat): (n: nat)
    requires o + 2 <= |d|
    ensures n < 0x10000
  {
    (d[o] as nat) + 0x100 * (d[o + 1] as nat)
  }

  function U24Le(d: seq<Byte>, o: nat): (n: nat)
    requires o + 3 <= |d|
    ensures n < 0x1000000
  {
    (d[o] as nat) + 0x100 * (d[o + 1] as nat) + 0x10000 * (d[o + 2] as nat)
  }

  function U32Le(d: seq<Byte>, o: nat): (n: nat)
    requires o + 4 <= |d|
    ensures n < 0x100000000
  {
    (d[o] as nat) + 0x100 * (d[o + 1] as nat) + 0x10000 * (d[o + 2] as nat) + 0x1000000 * (d[o + 3] as nat)
  }

  function U32Be(d: seq<Byte>, o: nat): (n: nat)
    requires o + 4 <= |d|
    ensures n < 0x100000000
  {
    0x1000000 * (d[o] as nat) + 0x10000 * (d[o + 1] as nat) + 0x100 * (d[o + 2] as nat) + (d[o + 3] as nat)
  }

  function Le32(n: nat): (b: seq<Byte>)
    requires n < 0x100000000
    ensures |b| == 4
  {
    [n % 0x100, n / 0x100 % 0x100, n / 0x10000 % 0x100, n / 0x1000000]
  }

  function Be32(n: nat): (b: seq<Byte>)
    requires n < 0x100000000
    ensures |b| == 4
  {
    [n / 0x1000000, n / 0x10000 % 0x100, n / 0x100 % 0x100, n % 0x100]
  }

  lemma SplitNumber(n: nat)
    requires n < 0x100000000
    ensures n == n % 0x100 + 0x100 * (n / 0x100 % 0x100) + 0x10000 * (n / 0x10000 % 0x100) + 0x1000000 * (n / 0x1000000)
  {
    var a := n / 0x100;
    var b := a / 0x100;
    assert n / 0x10000 == b && n / 0x1000000 == b / 0x100;
  }

  lemma JoinNumber(a: Byte, b: Byte, c: Byte, e: Byte)
    ensures var n := a + 0x100 * b + 0x10000 * c + 0x1000000 * e;
            n % 0x100 == a && n / 0x100 % 0x100 == b && n / 0x10000 % 0x100 == c && n / 0x1000000 == e
  {
    var n := a + 0x100 * b + 0x10000 * c + 0x1000000 * e;
    assert n / 0x100 == b + 0x100 * c + 0x10000 * e;
    assert n / 0x10000 == c + 0x100 * e;
    assert n / 0x1000000 == e;
  }

  /** A number in four bytes is read back as it was written, in either order. */
  lemma NumbersRoundTrip(n: nat)
    requires n < 0x100000000
    ensures U32Le(Le32(n), 0) == n && U32Be(Be32(n), 0) == n
  {
    SplitNumber(n);
  }

  lemma BytesRoundTrip(d: seq<Byte>, o: nat)
    requires o + 4 <= |d|
    ensures Le32(U32Le(d, o)) == d[o..o + 4] && Be32(U32Be(d, o)) == d[o..o + 4]
  {
    JoinNumber(d[o], d[o + 1], d[o + 2], d[o + 3]);
    JoinNumber(d[o + 3], d[o + 2], d[o + 1], d[o]);
  }

  // ----- the shared budget -----

  const PREVIEW_PIXELS: nat := 2 * MAXIMUM_PIXELS

  function Sum(ns: seq<nat>): nat {
    if ns == [] then 0 else Sum(ns[..|ns| - 1]) + ns[|ns| - 1]
  }

  /** What is admitted, in order, out of the areas asked for. */
  function Admitted(asked: seq<nat>, budget: nat): seq<nat> {
    if asked == [] then []
    else
      var before := Admitted(asked[..|asked| - 1], budget);
      if Sum(before) + asked[|asked| - 1] <= budget then before + [asked[|asked| - 1]] else before
  }

  lemma {:induction false} AdmittedWithinBudget(asked: seq<nat>, budget: nat)
    ensures Sum(Admitted(asked, budget)) <= budget
  {
    if asked != [] {
      var before := Admitted(asked[..|asked| - 1], budget);
      AdmittedWithinBudget(asked[..|asked| - 1], budget);
      assert (before + [asked[|asked| - 1]])[..|before|] == before;
    }
  }

  /** The aggregate pixel budget of one preview. */
  class ImageBudget {
    var remaining: nat
    ghost var asked: seq<nat>

    ghost predicate Valid()
      reads this
    {
      remaining + Sum(Admitted(asked, PREVIEW_PIXELS)) == PREVIEW_PIXELS
    }

    constructor ()
      ensures Valid() && asked == []
    {
      remaining, asked := PREVIEW_PIXELS, [];
    }

    /** Refuses exactly what would exceed the budget, and then admits nothing. */
    method Admit(pixels: nat) returns (ok: bool)
      requires Valid()
      modifies this
      ensures Valid() && asked == old(asked) + [pixels]
      ensures ok <==> Sum(Admitted(old(asked), PREVIEW_PIXELS)) + pixels <= PREVIEW_PIXELS
      ensures remaining == old(remaining) - if ok then pixels else 0
    {
      ghost var before := Admitted(asked, PREVIEW_PIXELS);
      assert (asked + [pixels])[..|asked|] == asked;
      assert (before + [pixels])[..|before|] == before;
      ok := pixels <= remaining;
      if ok { remaining := remaining - pixels; }
      asked := asked + [pixels];
    }
  }
}
