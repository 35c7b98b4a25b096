/**
 * `kmeans_palette` of the sequential program: labels persist between iterations, the pass
 * counts how many labels changed, and the loop stops before the update when none did.
 */
module KMeansSeq {
  import opened Colors
  import opened Nearest
  import opened KMeans

  /** The `changed` counter of one assignment pass: positions where the label differs. */
  function Changed(prev: seq<int>, next: seq<int>): (n: nat)
    requires |prev| == |next|
    ensures n <= |prev|
    ensures n == 0 <==> prev == next
  {
    if |prev| == 0 then 0
    else
      var rest := Changed(prev[1..], next[1..]);
      assert prev == [prev[0]] + prev[1..] && next == [next[0]] + next[1..];
      (if prev[0] != next[0] then 1 else 0) + rest
  }

  /**
   * Outcome of the loop: final centroids, the labels array, how many assignment passes ran,
   * and whether it stopped because no label changed.
   */
  datatype Run = Run(centroids: seq<Color>, labels: seq<int>, passes: nat, converged: bool)

  /**
   * The loop with `fuel` iterations left: assign, count changes, stop when there are none,
   * otherwise reduce and update and go round again.
   */
  function Lloyd(img: Rgba, cents: seq<Color>, labels: seq<int>, fuel: nat): (run: Run)
    requires |cents| > 0 && |labels| == NumPixels(img)
    ensures |run.centroids| == |cents|
    ensures |run.labels| == NumPixels(img)
    ensures run.passes <= fuel
    ensures !run.converged ==> run.passes == fuel
    ensures run.converged ==> run.passes > 0 && Assign(img, run.centroids) == run.labels
    ensures AllInGamut(cents) ==> AllInGamut(run.centroids)
    ensures fuel > 0 && Assign(img, cents) == labels ==> run == Run(cents, labels, 1, true)
    decreases fuel
  {
    if fuel == 0 then Run(cents, labels, 0, false)
    else
      var next := Assign(img, cents);
      if Changed(labels, next) == 0 then Run(cents, next, 1, true)
      else
        var run := Lloyd(img, Recenter(img, next, cents), next, fuel - 1);
        run.(passes := run.passes + 1)
  }

  /**
   * `kmeans_palette(img, w, h, k, max_iter)`: seed from `k` random pixels, then run the loop.
   * `initLabels` is the uninitialised labels array the first pass compares against.
   */
  function KMeansPalette(img: Rgba, k: nat, maxIter: nat, draw: nat -> nat, initLabels: seq<int>): (run: Run)
    requires NumPixels(img) > 0 && k > 0 && |initLabels| == NumPixels(img)
    ensures |run.centroids| == k
    ensures run.passes <= maxIter
    ensures AllInGamut(run.centroids)
    ensures run.converged ==> Assign(img, run.centroids) == run.labels
  {
    Lloyd(img, Seed(img, k, draw), initLabels, maxIter)
  }
}
