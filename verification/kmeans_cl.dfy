/**
 * Host side of `kmeans_palette` in the OpenCL program. Labels come from the `assign_labels`
 * kernel; the update overwrites a non-empty cluster only when its mean differs from the
 * centroid, and reports a change when it does; the loop stops after a step without change.
 */
module KMeansCl {
  import opened Colors
  import opened Nearest
  import opened KMeans

  /** The `cent_flat` / `pal_flat` buffer: r, g, b of each colour in turn. */
  function Flatten(cents: seq<Color>): (flat: seq<real>)
    ensures |flat| == 3 * |cents|
    ensures forall j :: 0 <= j < |cents| ==>
              flat[3 * j] == cents[j].r && flat[3 * j + 1] == cents[j].g && flat[3 * j + 2] == cents[j].b
  {
    if |cents| == 0 then []
    else [cents[0].r, cents[0].g, cents[0].b] + Flatten(cents[1..])
  }

  /** How a kernel reads colour `j` back out of a flat buffer. */
  function Unflatten(flat: seq<real>): (cents: seq<Color>)
    requires |flat| % 3 == 0
    ensures |cents| == |flat| / 3
    ensures Flatten(cents) == flat
  {
    var cents := seq(|flat| / 3, j requires 0 <= j < |flat| / 3 => Color(flat[3 * j], flat[3 * j + 1], flat[3 * j + 2]));
    FlattenReadout(flat, cents);
    cents
  }

  lemma UnflattenFlatten(cents: seq<Color>)
    ensures Unflatten(Flatten(cents)) == cents
  {
  }

  /** Reading colour `j` from `flat[3j..3j+3]` and flattening the colours again gives `flat` back. */
  lemma FlattenReadout(flat: seq<real>, cents: seq<Color>)
    requires |flat| % 3 == 0 && |cents| == |flat| / 3
    requires forall j :: 0 <= j < |cents| ==> cents[j] == Color(flat[3 * j], flat[3 * j + 1], flat[3 * j + 2])
    ensures Flatten(cents) == flat
  {
    var back := Flatten(cents);
    forall k | 0 <= k < |flat|
      ensures back[k] == flat[k]
    {
      var j := k / 3;
      assert j < |cents| && cents[j] == Color(flat[3 * j], flat[3 * j + 1], flat[3 * j + 2]);
      assert k == 3 * j || k == 3 * j + 1 || k == 3 * j + 2;
    }
  }

  /** Result of the update loop: the centroids and the `changed` flag. */
  datatype Update = Update(centroids: seq<Color>, changed: bool)

  /** The update loop from cluster `j` on, `changed` being the flag so far. */
  function UpdateFrom(cents: seq<Color>, acc: seq<Acc>, j: nat, changed: bool): (u: Update)
    requires |acc| == |cents| && j <= |cents|
    ensures |u.centroids| == |cents|
    ensures forall i :: 0 <= i < j ==> u.centroids[i] == cents[i]
    ensures forall i :: j <= i < |cents| ==>
              u.centroids[i] == (if acc[i].cnt > 0 then Mean(acc[i]) else cents[i])
    ensures u.changed <==> changed || exists i :: j <= i < |cents| && acc[i].cnt > 0 && Mean(acc[i]) != cents[i]
    decreases |cents| - j
  {
    if j == |cents| then Update(cents, changed)
    else if acc[j].cnt > 0 && Mean(acc[j]) != cents[j] then
      UpdateFrom(cents[j := Mean(acc[j])], acc, j + 1, true)
    else
      UpdateFrom(cents, acc, j + 1, changed)
  }

  /**
   * One host step given the kernel's labels: reduce, then update. The centroids it leaves are
   * those of the sequential update, and it reports a change exactly when some non-empty
   * cluster's mean differs from its centroid.
   */
  function Step(img: Rgba, cents: seq<Color>, labels: seq<int>): (u: Update)
    requires |labels| == NumPixels(img) && ValidLabels(labels, |cents|)
    ensures u.centroids == Recenter(img, labels, cents)
    ensures u.changed <==> exists j :: 0 <= j < |cents| && CountLabel(labels, j) > 0 && MemberMean(img, labels, j) != cents[j]
    ensures !u.changed ==> u.centroids == cents
  {
    var acc := Reduce(img, labels, |cents|);
    assert forall j :: 0 <= j < |cents| && acc[j].cnt > 0 ==> Mean(acc[j]) == MemberMean(img, labels, j);
    UpdateFrom(cents, acc, 0, false)
  }

  /** Outcome of the loop: final centroids, steps run, and whether the last one changed nothing. */
  datatype Run = Run(centroids: seq<Color>, passes: nat, converged: bool)

  /**
   * The loop with `fuel` iterations left. The labels of each step are those the assignment
   * pass gives for the current centroids (the kernel's contract).
   */
  function Lloyd(img: Rgba, cents: seq<Color>, fuel: nat): (run: Run)
    requires |cents| > 0
    ensures |run.centroids| == |cents|
    ensures run.passes <= fuel
    ensures !run.converged ==> run.passes == fuel
    ensures run.converged ==> run.passes > 0 && !Step(img, run.centroids, Assign(img, run.centroids)).changed
    ensures fuel > 0 && !Step(img, cents, Assign(img, cents)).changed ==> run == Run(cents, 1, true)
    ensures AllInGamut(cents) ==> AllInGamut(run.centroids)
    decreases fuel
  {
    if fuel == 0 then Run(cents, 0, false)
    else
      var u := Step(img, cents, Assign(img, cents));
      if !u.changed then Run(u.centroids, 1, true)
      else
        var run := Lloyd(img, u.centroids, fuel - 1);
        run.(passes := run.passes + 1)
  }

  /** `kmeans_palette` of the OpenCL program: seed from `k` random pixels, then run the loop. */
  function KMeansPalette(img: Rgba, k: nat, maxIter: nat, draw: nat -> nat): (run: Run)
    requires NumPixels(img) > 0 && k > 0
    ensures |run.centroids| == k
    ensures run.passes <= maxIter
    ensures AllInGamut(run.centroids)
  {
    Lloyd(img, Seed(img, k, draw), maxIter)
  }
}
