/**
 * The palette-mapping pass: every pixel takes the RGB of its nearest palette entry, cast to
 * unsigned char, and keeps its own alpha. The sequential program runs it as a host loop; the
 * OpenCL program runs the same per-pixel rule in its mapping kernel.
 */
module Mapping {
  import opened Colors
  import opened Nearest

  /** The `(unsigned char)` cast of a float in [0, 255]: truncation, which is `Floor` there. */
  function ToByte(x: real): (b: byte)
    requires 0.0 <= x <= 255.0
    ensures b as real <= x < b as real + 1.0
  {
    x.Floor
  }

  /** The palette entry pixel `i` is mapped to. */
  function Chosen(img: Rgba, pal: seq<Color>, i: nat): (c: Color)
    requires |pal| > 0 && i < NumPixels(img)
    ensures c in pal
  {
    pal[NearestIndex(PixelColor(img, i), pal)]
  }

  /** Byte `k` of the output image. */
  function OutByte(img: Rgba, pal: seq<Color>, k: nat): byte
    requires |pal| > 0 && AllInGamut(pal) && k < |img|
  {
    if k % 4 == 3 then img[k]
    else
      var c := pal[NearestIndex(PixelColor(img, k / 4), pal)];
      ToByte(Channel(c, k % 4))
  }

  /**
   * The output image: the same size as the input; per pixel, the truncated RGB of the nearest
   * palette entry and the input pixel's alpha.
   */
  function MapImage(img: Rgba, pal: seq<Color>): (out: Rgba)
    requires |pal| > 0 && AllInGamut(pal)
    ensures |out| == |img|
    ensures forall i :: 0 <= i < NumPixels(img) ==>
              && PixelByte(out, i, 0) == Chosen(img, pal, i).r.Floor
              && PixelByte(out, i, 1) == Chosen(img, pal, i).g.Floor
              && PixelByte(out, i, 2) == Chosen(img, pal, i).b.Floor
              && PixelByte(out, i, 3) == PixelByte(img, i, 3)
  {
    var out := seq(|img|, k requires 0 <= k < |img| => OutByte(img, pal, k));
    assert forall i :: 0 <= i < NumPixels(img) ==>
             (4 * i) / 4 == i && (4 * i + 1) / 4 == i && (4 * i + 2) / 4 == i && (4 * i + 3) % 4 == 3;
    out
  }

  /**
   * For a palette of whole-number colours (the palette-file path), mapping a mapped image
   * again changes nothing: every output pixel already is a palette entry.
   */
  lemma MapIdempotent(img: Rgba, pal: seq<Color>)
    requires |pal| > 0 && AllByteColors(pal)
    ensures MapImage(MapImage(img, pal), pal) == MapImage(img, pal)
  {
    var out := MapImage(img, pal);
    var again := MapImage(out, pal);
    forall i | 0 <= i < NumPixels(img)
      ensures Chosen(out, pal, i) == Chosen(img, pal, i)
    {
      var c := Chosen(img, pal, i);
      var n :| 0 <= n < |pal| && pal[n] == c;
      assert PixelColor(out, i) == c;
      NearestOfMember(c, pal, n);
    }
    forall k | 0 <= k < |img|
      ensures again[k] == out[k]
    {
      var i, ch := k / 4, k % 4;
      assert k == 4 * i + ch;
    }
  }

  /** A reddish pixel and a red/green palette: red is at squared distance 3225, green far beyond. */
  lemma ReddishPixelPicksRed()
    ensures NearestIndex(Color(200.0, 10.0, 10.0), [Color(255.0, 0.0, 0.0), Color(0.0, 255.0, 0.0)]) == 0
  {
    var p, pal := Color(200.0, 10.0, 10.0), [Color(255.0, 0.0, 0.0), Color(0.0, 255.0, 0.0)];
    assert Square(-55.0) == 3025.0 && Square(10.0) == 100.0 && Square(200.0) == 40000.0;
    assert Square(-245.0) == 60025.0 && Square(0.0) == 0.0;
    assert Dist2(p, pal[0]) == Square(-55.0) + Square(10.0) + Square(10.0) == 3225.0;
    assert Dist2(p, pal[1]) == Square(200.0) + Square(-245.0) + Square(10.0) == 100125.0;
  }
}
