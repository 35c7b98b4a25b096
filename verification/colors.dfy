/** Pixels, colours and the squared RGB distance shared by both programs. */
module Colors {

  /** One 8-bit channel of the decoded image. */
  type byte = x: int | 0 <= x < 256

  /** A decoded image: four bytes R, G, B, A per pixel, pixels one after the other. */
  type Rgba = s: seq<byte> | |s| % 4 == 0

  /** A colour as the programs hold it: three floats, modelled as exact rationals. */
  datatype Color = Color(r: real, g: real, b: real)

  function NumPixels(img: Rgba): nat
  {
    |img| / 4
  }

  /** Byte `ch` (0 = R, 1 = G, 2 = B, 3 = A) of pixel `i`. */
  function PixelByte(img: Rgba, i: nat, ch: nat): byte
    requires i < NumPixels(img) && ch < 4
  {
    img[4 * i + ch]
  }

  /** The RGB part of pixel `i`, widened to a colour. */
  function PixelColor(img: Rgba, i: nat): (c: Color)
    requires i < NumPixels(img)
    ensures IsByteColor(c)
  {
    Color(PixelByte(img, i, 0) as real, PixelByte(img, i, 1) as real, PixelByte(img, i, 2) as real)
  }

  /** Channel `ch` (0 = R, 1 = G, 2 = B) of a colour. */
  function Channel(c: Color, ch: nat): real
    requires ch < 3
  {
    if ch == 0 then c.r else if ch == 1 then c.g else c.b
  }

  /** Every channel lies in [0, 255]; the cast to unsigned char is then defined. */
  predicate InGamut(c: Color)
  {
    0.0 <= c.r <= 255.0 && 0.0 <= c.g <= 255.0 && 0.0 <= c.b <= 255.0
  }

  /** Every channel is a whole number in [0, 255]: a colour that an 8-bit pixel can hold exactly. */
  predicate IsByteColor(c: Color)
  {
    InGamut(c) && c.r.Floor as real == c.r && c.g.Floor as real == c.g && c.b.Floor as real == c.b
  }

  predicate AllInGamut(cs: seq<Color>)
  {
    forall j :: 0 <= j < |cs| ==> InGamut(cs[j])
  }

  predicate AllByteColors(cs: seq<Color>)
  {
    forall j :: 0 <= j < |cs| ==> IsByteColor(cs[j])
  }

  /** Squared Euclidean RGB distance (`dist2`). It is zero exactly between equal colours. */
  function Dist2(a: Color, b: Color): (d: real)
    ensures d >= 0.0
    ensures d == 0.0 <==> a == b
  {
    SquareSign(a.r - b.r);
    SquareSign(a.g - b.g);
    SquareSign(a.b - b.b);
    Square(a.r - b.r) + Square(a.g - b.g) + Square(a.b - b.b)
  }

  /** A real product. Kept behind a function so that the solver treats it as one term. */
  function Mul(x: real, y: real): real
  {
    x * y
  }

  function Square(x: real): real
  {
    Mul(x, x)
  }

  lemma ProductPositive(x: real, y: real)
    requires (x > 0.0 && y > 0.0) || (x < 0.0 && y < 0.0)
    ensures Mul(x, y) > 0.0
  {
  }

  lemma SquareSign(x: real)
    ensures x == 0.0 ==> Square(x) == 0.0
    ensures x != 0.0 ==> Square(x) > 0.0
  {
    if x != 0.0 {
      ProductPositive(x, x);
    }
  }
}
