/** Which container scan an input gets, and what it costs the preview budget. */
module ImageBounds {
  import opened Wrappers
  import opened ImageBytes
  import P = PngScan
  import G = GifScan
  import W = WebpScan

  const GIF: seq<Byte> := [0x47, 0x49, 0x46]

  /** The outcome for the three containers; other formats are decided elsewhere. */
  datatype Inspection = Inspected(result: Result<nat, Error>) | OtherFormat

  function Inspect(data: seq<Byte>): Inspection {
    if |data| < 10 then Inspected(Failure(Malformed))
    else if P.HasSignature(data) then Inspected(P.Scan(data))
    else if data[..3] == GIF then Inspected(if G.HasSignature(data) then G.Scan(data) else Failure(Malformed))
    else if data[..4] == W.RIFF && |data| < 12 then Inspected(Failure(Malformed))
    else if W.HasTags(data) then Inspected(W.Scan(data))
    else OtherFormat
  }

  /** An accepted image never costs more than the pixel limit. */
  lemma InspectedAreaBounded(data: seq<Byte>)
    requires Inspect(data).Inspected? && Inspect(data).result.Success?
    ensures Inspect(data).result.value <= MAXIMUM_PIXELS
  {
    hide P.Scan, G.Scan, W.Scan;
    if P.HasSignature(data) {
      var cs := P.AcceptedTiles(data);
    } else if data[..3] == GIF {
      var g := G.AcceptedTiles(data);
    } else {
      var cs := W.AcceptedTiles(data);
    }
  }

  /** Inspects an image and charges its area to the budget; `None` leaves other formats to other checks. */
  method BoundedImage(data: seq<Byte>, budget: ImageBudget) returns (r: Option<bool>)
    requires budget.Valid()
    modifies budget
    ensures budget.Valid()
    ensures r.None? <==> Inspect(data).OtherFormat?
    ensures r == Some(true) ==>
              Inspect(data).result.Success? && old(budget.remaining) >= Inspect(data).result.value
              && budget.remaining == old(budget.remaining) - Inspect(data).result.value
    ensures r != Some(true) ==> budget.remaining == old(budget.remaining)
    ensures r == Some(false) ==> Inspect(data).result.Failure? || Inspect(data).result.value > old(budget.remaining)
  {
    hide P.Scan, G.Scan, W.Scan;
    var pixels: nat := 0;
    if |data| < 10 { return Some(false); }
    if P.HasSignature(data) {
      var scanned := P.BoundedPng(data);
      if scanned.Failure? { return Some(false); }
      pixels := scanned.value;
    } else if data[..3] == GIF {
      if !G.HasSignature(data) { return Some(false); }
      var scanned := G.BoundedGif(data);
      if scanned.Failure? { return Some(false); }
      pixels := scanned.value;
    } else if data[..4] == W.RIFF && |data| < 12 {
      return Some(false);
    } else if W.HasTags(data) {
      var scanned := W.BoundedWebp(data);
      if scanned.Failure? { return Some(false); }
      pixels := scanned.value;
    } else {
      return None;
    }
    var ok := budget.Admit(pixels);
    return Some(ok);
  }
}
