/**
 * The parts of a Lloyd (k-means) step that both programs share: seeding from pixel colours,
 * the assignment pass, the per-cluster sum/count reduction and the centroid update that leaves
 * empty clusters alone.
 */
module KMeans {
  import opened Colors
  import opened Nearest

  /** `MAX_ITERATIONS`, the iteration cap `main` passes to `kmeans_palette`. */
  const MaxIterations: nat := 100

  /**
   * Seeding: centroid `j` is the colour of pixel `draw(j) % npix`, `draw(j)` standing for the
   * `j`-th `rand()` result. `rand() % npix` needs at least one pixel.
   */
  function Seed(img: Rgba, k: nat, draw: nat -> nat): (cents: seq<Color>)
    requires NumPixels(img) > 0
    ensures |cents| == k
    ensures forall j :: 0 <= j < k ==> cents[j] == PixelColor(img, draw(j) % NumPixels(img))
    ensures forall j :: 0 <= j < k ==> exists i :: 0 <= i < NumPixels(img) && cents[j] == PixelColor(img, i)
    ensures AllByteColors(cents)
  {
    seq(k, j requires 0 <= j < k => PixelColor(img, draw(j) % NumPixels(img)))
  }

  /** Every label names one of `k` clusters. */
  predicate ValidLabels(labels: seq<int>, k: nat)
  {
    forall i :: 0 <= i < |labels| ==> 0 <= labels[i] < k
  }

  /** The assignment pass: each pixel is labelled with its nearest centroid, lowest index on ties. */
  function Assign(img: Rgba, cents: seq<Color>): (labels: seq<int>)
    requires |cents| > 0
    ensures |labels| == NumPixels(img)
    ensures forall i :: 0 <= i < |labels| ==> IsNearest(PixelColor(img, i), cents, labels[i])
    ensures ValidLabels(labels, |cents|)
  {
    seq(NumPixels(img), i requires 0 <= i < NumPixels(img) => NearestIndex(PixelColor(img, i), cents) as int)
  }

  /** How many of the pixels `labels` covers are labelled `j`. */
  function CountLabel(labels: seq<int>, j: int): nat
  {
    if |labels| == 0 then 0
    else CountLabel(labels[..|labels| - 1], j) + (if labels[|labels| - 1] == j then 1 else 0)
  }

  /** Sum of channel `ch` over the pixels labelled `j` among the first `|labels|` pixels. */
  function ChannelTotal(img: Rgba, labels: seq<int>, j: int, ch: nat): int
    requires |labels| <= NumPixels(img) && ch < 3
  {
    if |labels| == 0 then 0
    else
      var i := |labels| - 1;
      ChannelTotal(img, labels[..i], j, ch) + (if labels[i] == j then PixelByte(img, i, ch) else 0)
  }

  /** One cluster's accumulator: channel sums and member count. */
  datatype Acc = Acc(sr: int, sg: int, sb: int, cnt: nat)

  /** The accumulator cluster `j` should hold: its members' channel totals and their number. */
  function Members(img: Rgba, labels: seq<int>, j: int): Acc
    requires |labels| <= NumPixels(img)
  {
    Acc(ChannelTotal(img, labels, j, 0), ChannelTotal(img, labels, j, 1),
        ChannelTotal(img, labels, j, 2), CountLabel(labels, j))
  }

  /**
   * The reduction loop: accumulators start at zero and pixel `i` adds its R, G, B and one to
   * the accumulator of cluster `labels[i]`.
   */
  function Reduce(img: Rgba, labels: seq<int>, k: nat): (acc: seq<Acc>)
    requires |labels| <= NumPixels(img) && ValidLabels(labels, k)
    ensures |acc| == k
    ensures forall j :: 0 <= j < k ==> acc[j] == Members(img, labels, j)
    decreases |labels|
  {
    if |labels| == 0 then seq(k, _ => Acc(0, 0, 0, 0))
    else
      var i := |labels| - 1;
      var prev := Reduce(img, labels[..i], k);
      var c := labels[i];
      prev[c := Acc(prev[c].sr + PixelByte(img, i, 0), prev[c].sg + PixelByte(img, i, 1),
                    prev[c].sb + PixelByte(img, i, 2), prev[c].cnt + 1)]
  }

  function TotalCount(acc: seq<Acc>): nat
  {
    if |acc| == 0 then 0 else acc[0].cnt + TotalCount(acc[1..])
  }

  /** After the reduction the member counts add up to the number of pixels reduced. */
  lemma {:induction false} CountsSumToPixels(img: Rgba, labels: seq<int>, k: nat)
    requires |labels| <= NumPixels(img) && ValidLabels(labels, k)
    ensures TotalCount(Reduce(img, labels, k)) == |labels|
    decreases |labels|
  {
    if |labels| == 0 {
      ZeroTotal(k);
    } else {
      var i := |labels| - 1;
      CountsSumToPixels(img, labels[..i], k);
      var prev := Reduce(img, labels[..i], k);
      var c := labels[i];
      TotalCountUpdate(prev, c, Acc(prev[c].sr + PixelByte(img, i, 0), prev[c].sg + PixelByte(img, i, 1),
                                    prev[c].sb + PixelByte(img, i, 2), prev[c].cnt + 1));
    }
  }

  lemma {:induction false} ZeroTotal(k: nat)
    ensures TotalCount(seq(k, _ => Acc(0, 0, 0, 0))) == 0
  {
    if k > 0 {
      ZeroTotal(k - 1);
      assert seq(k, _ => Acc(0, 0, 0, 0))[1..] == seq(k - 1, _ => Acc(0, 0, 0, 0));
    }
  }

  lemma {:induction false} TotalCountUpdate(acc: seq<Acc>, c: nat, a: Acc)
    requires c < |acc|
    ensures TotalCount(acc[c := a]) + acc[c].cnt == TotalCount(acc) + a.cnt
  {
    if c > 0 {
      TotalCountUpdate(acc[1..], c - 1, a);
      assert acc[c := a][1..] == acc[1..][c - 1 := a];
    }
  }

  /** Every member's channel value is a byte, so a cluster's total lies in [0, 255 * count]. */
  lemma {:induction false} ChannelTotalBounds(img: Rgba, labels: seq<int>, j: int, ch: nat)
    requires |labels| <= NumPixels(img) && ch < 3
    ensures 0 <= ChannelTotal(img, labels, j, ch) <= 255 * CountLabel(labels, j)
  {
    if |labels| > 0 {
      ChannelTotalBounds(img, labels[..|labels| - 1], j, ch);
    }
  }

  /** The per-channel mean of an accumulator, as the float division `sum / (float)cnt` gives it. */
  function Mean(a: Acc): (m: Color)
    requires a.cnt > 0
    ensures Mul(m.r, a.cnt as real) == a.sr as real
    ensures Mul(m.g, a.cnt as real) == a.sg as real
    ensures Mul(m.b, a.cnt as real) == a.sb as real
  {
    Color(a.sr as real / a.cnt as real, a.sg as real / a.cnt as real, a.sb as real / a.cnt as real)
  }

  /** `c` is the exact mean of cluster `j`: each channel times the member count is the channel total. */
  predicate IsMemberMean(img: Rgba, labels: seq<int>, j: int, c: Color)
    requires |labels| <= NumPixels(img)
  {
    var n := CountLabel(labels, j) as real;
    && Mul(c.r, n) == ChannelTotal(img, labels, j, 0) as real
    && Mul(c.g, n) == ChannelTotal(img, labels, j, 1) as real
    && Mul(c.b, n) == ChannelTotal(img, labels, j, 2) as real
  }

  /** The mean of cluster `j`'s members: the exact mean, and inside the byte range. */
  function MemberMean(img: Rgba, labels: seq<int>, j: int): (c: Color)
    requires |labels| <= NumPixels(img) && CountLabel(labels, j) > 0
    ensures IsMemberMean(img, labels, j, c)
    ensures InGamut(c)
  {
    var m := Members(img, labels, j);
    ChannelTotalBounds(img, labels, j, 0);
    ChannelTotalBounds(img, labels, j, 1);
    ChannelTotalBounds(img, labels, j, 2);
    QuotientFacts(m.sr, m.cnt);
    QuotientFacts(m.sg, m.cnt);
    QuotientFacts(m.sb, m.cnt);
    Mean(m)
  }

  lemma QuotientFacts(t: int, n: nat)
    requires n > 0 && 0 <= t <= 255 * n
    ensures Mul(t as real / n as real, n as real) == t as real
    ensures 0.0 <= t as real / n as real <= 255.0
  {
  }

  /**
   * The centroid update after a reduction: a cluster with no members keeps its centroid, every
   * other cluster moves to the exact mean of its members. Centroids inside the byte range stay
   * inside it.
   */
  function Recenter(img: Rgba, labels: seq<int>, cents: seq<Color>): (next: seq<Color>)
    requires |labels| == NumPixels(img) && ValidLabels(labels, |cents|)
    ensures |next| == |cents|
    ensures forall j :: 0 <= j < |cents| && CountLabel(labels, j) == 0 ==> next[j] == cents[j]
    ensures forall j :: 0 <= j < |cents| && CountLabel(labels, j) > 0 ==> IsMemberMean(img, labels, j, next[j])
    ensures AllInGamut(cents) ==> AllInGamut(next)
  {
    var acc := Reduce(img, labels, |cents|);
    assert forall j :: 0 <= j < |cents| && acc[j].cnt > 0 ==> Mean(acc[j]) == MemberMean(img, labels, j);
    seq(|cents|, j requires 0 <= j < |cents| => if acc[j].cnt > 0 then Mean(acc[j]) else cents[j])
  }
}
