/**
 * The nearest-colour search both programs run per pixel: a scan from index 0 that replaces the
 * best entry only on a strictly smaller squared distance, so the lowest index wins ties.
 */
module Nearest {
  import opened Colors

  /**
   * `n` is where a scan of the first `upTo` entries settles: no entry among them is closer to `p`,
   * and every entry before `n` is strictly farther.
   */
  predicate NearestAmong(p: Color, pal: seq<Color>, upTo: nat, n: int)
    requires upTo <= |pal|
  {
    && 0 <= n < upTo
    && (forall j :: 0 <= j < upTo ==> Dist2(p, pal[n]) <= Dist2(p, pal[j]))
    && (forall j :: 0 <= j < n ==> Dist2(p, pal[n]) < Dist2(p, pal[j]))
  }

  /** `n` is the lowest index of a palette entry at minimal squared distance from `p`. */
  predicate IsNearest(p: Color, pal: seq<Color>, n: int)
  {
    NearestAmong(p, pal, |pal|, n)
  }

  /** The inner loop from entry `j` on, `best` being the winner among the entries before `j`. */
  function ScanFrom(p: Color, pal: seq<Color>, j: nat, best: nat): (n: nat)
    requires j <= |pal| && NearestAmong(p, pal, j, best)
    ensures IsNearest(p, pal, n)
    decreases |pal| - j
  {
    if j == |pal| then best
    else if Dist2(p, pal[j]) < Dist2(p, pal[best]) then ScanFrom(p, pal, j + 1, j)
    else ScanFrom(p, pal, j + 1, best)
  }

  /** The scan started with `best = 0`; the source needs at least one entry. */
  function NearestIndex(p: Color, pal: seq<Color>): (n: nat)
    requires |pal| > 0
    ensures IsNearest(p, pal, n)
  {
    ScanFrom(p, pal, 1, 0)
  }

  /** At most one index satisfies `IsNearest`: the tie-breaking rule leaves no choice. */
  lemma NearestUnique(p: Color, pal: seq<Color>, a: int, b: int)
    requires IsNearest(p, pal, a) && IsNearest(p, pal, b)
    ensures a == b
  {
    var da, db := Dist2(p, pal[a]), Dist2(p, pal[b]);
    assert da <= db && db <= da;
  }

  /** A colour that occurs in the palette selects its first occurrence. */
  lemma NearestOfMember(p: Color, pal: seq<Color>, j: nat)
    requires j < |pal| && pal[j] == p
    ensures pal[NearestIndex(p, pal)] == p
    ensures NearestIndex(p, pal) <= j
  {
    var n := NearestIndex(p, pal);
    assert Dist2(p, pal[n]) <= Dist2(p, pal[j]) == 0.0;
  }
}
