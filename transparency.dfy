/**
 * The checkerboard-to-alpha conversion of convert_transparency.py.
 *
 * An image is a PIL-style pixel buffer: `pixels[x, y]` with x the column
 * (0 <= x < width) and y the row (0 <= y < height), each pixel an RGBA
 * 4-tuple of 8-bit channels.  A pixel is "background" when it is near white
 * or near the 192-gray of a checkerboard within a threshold; the conversion
 * zeroes the alpha of background pixels in place and touches nothing else.
 */
module Transparency {

  /** An 8-bit channel value. */
  type Channel = x: int | 0 <= x < 256

  datatype Pixel = Pixel(r: Channel, g: Channel, b: Channel, a: Channel)

  /** The threshold `main` passes to `make_transparent`. */
  const ConvertThreshold: int := 30

  function Abs(x: int): nat { if x < 0 then -x else x }

  /** Every colour channel lies strictly above 255 - threshold. */
  predicate IsWhite(p: Pixel, threshold: int) {
    p.r > 255 - threshold && p.g > 255 - threshold && p.b > 255 - threshold
  }

  /** Every colour channel lies strictly within threshold of 192. */
  predicate IsLightGray(p: Pixel, threshold: int) {
    Abs(p.r - 192) < threshold && Abs(p.g - 192) < threshold && Abs(p.b - 192) < threshold
  }

  predicate IsBackground(p: Pixel, threshold: int) {
    IsWhite(p, threshold) || IsLightGray(p, threshold)
  }

  /** The colour channels of two pixels agree. */
  predicate SameColour(p: Pixel, q: Pixel) {
    p.r == q.r && p.g == q.g && p.b == q.b
  }

  /**
   * What the conversion makes of one pixel: colour is never altered, and the
   * only change ever made is alpha to 0, made exactly to background pixels.
   */
  function Cleared(p: Pixel, threshold: int): (q: Pixel)
    ensures SameColour(q, p)
    ensures q.a == 0 || q == p
    ensures !IsBackground(p, threshold) ==> q == p
    ensures IsBackground(p, threshold) ==> q.a == 0
  {
    if IsBackground(p, threshold) then Pixel(p.r, p.g, p.b, 0) else p
  }

  /**
   * make_transparent's pixel pass: visit every row, and in it every column,
   * overwriting a background pixel with the same colour and alpha 0.
   */
  method MakeTransparent(pixels: array2<Pixel>, threshold: int)
    modifies pixels
    ensures forall x, y | 0 <= x < pixels.Length0 && 0 <= y < pixels.Length1 ::
      pixels[x, y] == Cleared(old(pixels[x, y]), threshold)
  {
    var width, height := pixels.Length0, pixels.Length1;
    for y := 0 to height
      invariant forall i, j | 0 <= i < width && 0 <= j < y ::
        pixels[i, j] == Cleared(old(pixels[i, j]), threshold)
      invariant forall i, j | 0 <= i < width && y <= j < height ::
        pixels[i, j] == old(pixels[i, j])
    {
      for x := 0 to width
        invariant forall i, j | 0 <= i < width && 0 <= j < y ::
          pixels[i, j] == Cleared(old(pixels[i, j]), threshold)
        invariant forall i | 0 <= i < x :: pixels[i, y] == Cleared(old(pixels[i, y]), threshold)
        invariant forall i, j | 0 <= i < width && y <= j < height && (j != y || x <= i) ::
          pixels[i, j] == old(pixels[i, j])
      {
        var p := pixels[x, y];
        var isWhite := p.r > 255 - threshold && p.g > 255 - threshold && p.b > 255 - threshold;
        var isLightGray := Abs(p.r - 192) < threshold && Abs(p.g - 192) < threshold && Abs(p.b - 192) < threshold;
        if isWhite || isLightGray {
          pixels[x, y] := Pixel(p.r, p.g, p.b, 0);
        }
      }
    }
  }

  /**
   * PIL's `crop((0, top, width, bottom))` for a band of whole rows inside the
   * image: a fresh buffer of the same width whose row y is row top + y.
   */
  method CropRows(img: array2<Pixel>, top: nat, bottom: nat) returns (cropped: array2<Pixel>)
    requires top <= bottom <= img.Length1
    ensures fresh(cropped)
    ensures cropped.Length0 == img.Length0 && cropped.Length1 == bottom - top
    ensures forall x, y | 0 <= x < cropped.Length0 && 0 <= y < cropped.Length1 ::
      cropped[x, y] == img[x, top + y]
  {
    var width, height := img.Length0, bottom - top;
    cropped := new Pixel[width, height]((x, y) reads img
      requires 0 <= x < width && 0 <= y < height => img[x, top + y]);
  }

  // ---- Properties of the per-pixel rule ----

  /** Classification reads colour only, so converting twice is converting once. */
  lemma ClearedIdempotent(p: Pixel, threshold: int)
    ensures Cleared(Cleared(p, threshold), threshold) == Cleared(p, threshold)
  {
    assert IsBackground(Cleared(p, threshold), threshold) == IsBackground(p, threshold);
  }

  /** With threshold <= 0 no 8-bit pixel is white or light gray, so nothing changes. */
  lemma NonPositiveThresholdChangesNothing(p: Pixel, threshold: int)
    requires threshold <= 0
    ensures !IsBackground(p, threshold)
    ensures Cleared(p, threshold) == p
  {
  }

  /** A pixel cleared at some threshold is cleared at every larger threshold. */
  lemma BackgroundMonotone(p: Pixel, t: int, t': int)
    requires t <= t'
    requires IsBackground(p, t)
    ensures IsBackground(p, t')
    ensures Cleared(p, t').a == 0
  {
  }

  /** The worked examples at the threshold `main` uses. */
  lemma ConvertExamples()
    ensures Cleared(Pixel(255, 255, 255, 255), ConvertThreshold) == Pixel(255, 255, 255, 0)
    ensures Cleared(Pixel(192, 192, 192, 255), ConvertThreshold) == Pixel(192, 192, 192, 0)
    ensures Cleared(Pixel(100, 100, 100, 255), ConvertThreshold) == Pixel(100, 100, 100, 255)
  {
  }
}
