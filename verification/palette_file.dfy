/**
 * Palette-source decision and palette-file parsing: `is_number`, the decimal value `atoi`
 * gives a digit string, and the per-line rule of `load_palette` with its 1024-entry cap.
 * A palette file is modelled as the sequence of its lines.
 */
module PaletteFile {
  import opened Colors
  import opened Wrappers

  /** Number of entries `load_palette` allocates room for and at most returns. */
  const Capacity: nat := 1024

  predicate IsDigit(ch: char)
  {
    '0' <= ch <= '9'
  }

  /** `is_number`: rejects the empty string, then rejects at the first non-digit. */
  function IsNumber(s: string): (b: bool)
    ensures b <==> |s| > 0 && forall i :: 0 <= i < |s| ==> IsDigit(s[i])
  {
    |s| > 0 && AllDigits(s)
  }

  function AllDigits(s: string): (b: bool)
    ensures b <==> forall i :: 0 <= i < |s| ==> IsDigit(s[i])
  {
    if |s| == 0 then true
    else IsDigit(s[0]) && AllDigits(s[1..])
  }

  /** The value `atoi` returns for a string of decimal digits (overflow aside). */
  function Atoi(s: string): (n: nat)
    requires AllDigits(s)
    ensures n == 0 <==> forall i :: 0 <= i < |s| ==> s[i] == '0'
  {
    if |s| == 0 then 0
    else
      var init := s[..|s| - 1];
      assert forall i :: 0 <= i < |init| ==> init[i] == s[i];
      10 * Atoi(init) + (s[|s| - 1] as int - '0' as int)
  }

  predicate IsHexDigit(ch: char)
  {
    '0' <= ch <= '9' || 'a' <= ch <= 'f' || 'A' <= ch <= 'F'
  }

  function HexValue(ch: char): (v: nat)
    requires IsHexDigit(ch)
    ensures v < 16
  {
    if '0' <= ch <= '9' then ch as int - '0' as int
    else if 'a' <= ch <= 'f' then ch as int - 'a' as int + 10
    else ch as int - 'A' as int + 10
  }

  /** The byte a `%02x` conversion reads from two hex digits. */
  function HexPair(hi: char, lo: char): (v: byte)
    requires IsHexDigit(hi) && IsHexDigit(lo)
  {
    16 * HexValue(hi) + HexValue(lo)
  }

  /** A line of the form `#RRGGBB`, followed by anything. */
  predicate IsColorLine(line: string)
  {
    |line| >= 7 && line[0] == '#' && forall i :: 1 <= i < 7 ==> IsHexDigit(line[i])
  }

  /**
   * The per-line rule of `load_palette`: a line not starting with `#` is skipped, and so is one
   * whose next six characters are not three hex pairs; otherwise the pairs are R, G and B.
   */
  function ParseLine(line: string): (c: Option<Color>)
    ensures c.Some? <==> IsColorLine(line)
    ensures c.Some? ==> IsByteColor(c.value)
  {
    if |line| == 0 || line[0] != '#' then None
    else if |line| < 7 || !(forall i :: 1 <= i < 7 ==> IsHexDigit(line[i])) then None
    else
      Some(Color(HexPair(line[1], line[2]) as real,
                 HexPair(line[3], line[4]) as real,
                 HexPair(line[5], line[6]) as real))
  }

  /** Every colour the file holds, in file order, with no cap: the reference for `LoadPalette`. */
  function AcceptedColors(lines: seq<string>): (cs: seq<Color>)
    ensures |cs| <= |lines|
    ensures AllByteColors(cs)
    ensures |cs| == 0 <==> forall i :: 0 <= i < |lines| ==> !IsColorLine(lines[i])
  {
    if |lines| == 0 then []
    else
      var rest := AcceptedColors(lines[1..]);
      assert forall i :: 1 <= i < |lines| ==> lines[i] == lines[1..][i - 1];
      match ParseLine(lines[0])
      case None => rest
      case Some(c) => [c] + rest
  }

  /**
   * The reading loop of `load_palette`, `kept` being the entries stored so far: a colour is
   * stored, and the loop stops as soon as the count reaches `Capacity`.
   */
  function LoadFrom(lines: seq<string>, kept: seq<Color>): (p: seq<Color>)
    requires |kept| < Capacity
    ensures |kept| <= |p| <= Capacity
    ensures p[..|kept|] == kept
    ensures |p| < Capacity ==> p == kept + AcceptedColors(lines)
    decreases |lines|
  {
    if |lines| == 0 then kept
    else
      match ParseLine(lines[0])
      case None => LoadFrom(lines[1..], kept)
      case Some(c) =>
        if |kept| + 1 >= Capacity then kept + [c]
        else LoadFrom(lines[1..], kept + [c])
  }

  function Min(a: nat, b: nat): nat
  {
    if a <= b then a else b
  }

  /**
   * `load_palette` on a file's lines: the first `Capacity` accepted colours, in file order; an
   * empty result exactly when no line has the `#RRGGBB` form.
   */
  function LoadPalette(lines: seq<string>): (p: seq<Color>)
    ensures |p| == Min(|AcceptedColors(lines)|, Capacity)
    ensures p == AcceptedColors(lines)[..|p|]
    ensures AllByteColors(p)
    ensures |p| == 0 <==> forall i :: 0 <= i < |lines| ==> !IsColorLine(lines[i])
  {
    LoadFromKeepsPrefix(lines, []);
    LoadFrom(lines, [])
  }

  lemma {:induction false} LoadFromKeepsPrefix(lines: seq<string>, kept: seq<Color>)
    requires |kept| < Capacity
    ensures LoadFrom(lines, kept)
            == kept + AcceptedColors(lines)[..Min(|AcceptedColors(lines)|, Capacity - |kept|)]
    decreases |lines|
  {
    if |lines| > 0 {
      var rest := AcceptedColors(lines[1..]);
      match ParseLine(lines[0])
      case None =>
        LoadFromKeepsPrefix(lines[1..], kept);
      case Some(c) =>
        var all := [c] + rest;
        assert AcceptedColors(lines) == all;
        if |kept| + 1 >= Capacity {
          assert all[..1] == [c];
        } else {
          LoadFromKeepsPrefix(lines[1..], kept + [c]);
          var m := Min(|rest|, Capacity - |kept| - 1);
          assert all[..m + 1] == [c] + rest[..m];
        }
    }
  }

  /** The upper-case hex digit for a value below 16. */
  function HexDigitChar(v: nat): (ch: char)
    requires v < 16
    ensures IsHexDigit(ch) && HexValue(ch) == v
  {
    if v < 10 then ('0' as int + v) as char else ('A' as int + v - 10) as char
  }

  /** The `#RRGGBB` line a palette file holds for a colour. */
  function FormatLine(r: byte, g: byte, b: byte): string
  {
    ['#', HexDigitChar(r / 16), HexDigitChar(r % 16),
          HexDigitChar(g / 16), HexDigitChar(g % 16),
          HexDigitChar(b / 16), HexDigitChar(b % 16)]
  }

  /** Writing a colour as `#RRGGBB` and reading the line back gives the colour, whatever follows it. */
  lemma ParseFormatLine(r: byte, g: byte, b: byte, rest: string)
    ensures ParseLine(FormatLine(r, g, b) + rest) == Some(Color(r as real, g as real, b as real))
  {
    var line := FormatLine(r, g, b) + rest;
    assert line[1..7] == FormatLine(r, g, b)[1..7];
    assert HexPair(line[1], line[2]) == r;
    assert HexPair(line[3], line[4]) == g;
    assert HexPair(line[5], line[6]) == b;
  }
}
