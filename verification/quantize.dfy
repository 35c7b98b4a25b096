/**
 * `main` of both programs, between decoding and encoding: decide from the first argument
 * whether to cluster or to load a palette file, then map the image against the palette.
 */
module Quantize {
  import opened Wrappers
  import opened Colors
  import opened PaletteFile
  import opened KMeans
  import opened Mapping
  import KMeansSeq
  import KMeansCl

  /** The sequential program or the OpenCL one. */
  datatype Program = Sequential | OpenCl

  datatype InputError = ClusterCountBelowOne | EmptyPalette

  /**
   * The palette `main` maps with. A digit string is the cluster count `k`, a count below one
   * is refused, and otherwise `kmeans_palette` yields `k` centroids; any other argument names a
   * palette file, and a file without a single `#RRGGBB` line is refused. `draw` stands for the
   * `rand()` results and `initLabels` for the uninitialised labels array.
   */
  function ResolvePalette(prog: Program, arg: string, lines: seq<string>, img: Rgba,
                          draw: nat -> nat, initLabels: seq<int>): (r: Result<seq<Color>, InputError>)
    requires IsNumber(arg) ==> NumPixels(img) > 0 && |initLabels| == NumPixels(img)
    ensures r.Success? ==> |r.value| > 0 && AllInGamut(r.value)
    ensures IsNumber(arg) ==> (r.Success? <==> Atoi(arg) >= 1)
    ensures IsNumber(arg) && r.Success? ==> |r.value| == Atoi(arg)
    ensures !IsNumber(arg) ==> (r.Success? <==> exists i :: 0 <= i < |lines| && IsColorLine(lines[i]))
    ensures !IsNumber(arg) && r.Success? ==> r.value == LoadPalette(lines)
  {
    if IsNumber(arg) then
      var k := Atoi(arg);
      if k < 1 then Failure(ClusterCountBelowOne)
      else if prog == Sequential then
        Success(KMeansSeq.KMeansPalette(img, k, MaxIterations, draw, initLabels).centroids)
      else
        Success(KMeansCl.KMeansPalette(img, k, MaxIterations, draw).centroids)
    else
      var pal := LoadPalette(lines);
      if |pal| == 0 then Failure(EmptyPalette) else Success(pal)
  }

  /**
   * The whole quantisation: resolve the palette, then map every pixel to its nearest entry.
   * The output has the input's size and alpha; it exists exactly when a palette was resolved.
   */
  function Quantize(prog: Program, arg: string, lines: seq<string>, img: Rgba,
                    draw: nat -> nat, initLabels: seq<int>): (r: Result<Rgba, InputError>)
    requires IsNumber(arg) ==> NumPixels(img) > 0 && |initLabels| == NumPixels(img)
    ensures r.Success? <==> ResolvePalette(prog, arg, lines, img, draw, initLabels).Success?
    ensures r.Success? ==> |r.value| == |img|
    ensures r.Success? ==> forall i :: 0 <= i < NumPixels(img) ==> PixelByte(r.value, i, 3) == PixelByte(img, i, 3)
    ensures r.Success? ==> r.value == MapImage(img, ResolvePalette(prog, arg, lines, img, draw, initLabels).value)
  {
    match ResolvePalette(prog, arg, lines, img, draw, initLabels)
    case Failure(e) => Failure(e)
    case Success(pal) => Success(MapImage(img, pal))
  }

  /**
   * How each program, as written, leaves the palette stage: it exits on its own input check,
   * an OpenCL call fails and `CL_CHECK` exits, or it reaches the mapping stage with `entries`
   * palette entries.
   */
  datatype Outcome = InputExit | DeviceErrorExit | Mapped(entries: nat)

  /**
   * The programs as written. The sequential program exits on `k < 1` and checks nothing else.
   * The OpenCL program checks neither `k` nor the palette size. With `k = 0` its centroid buffer
   * has zero bytes, so creating it fails. Writing to it inside the first pass of the bounded loop
   * then fails under `CL_CHECK`, which exits. An empty palette file reaches the mapping stage
   * in both programs.
   */
  function OutcomeAsWritten(prog: Program, arg: string, lines: seq<string>): (o: Outcome)
    ensures o.Mapped? && IsNumber(arg) ==> o.entries == Atoi(arg)
    ensures o.Mapped? && !IsNumber(arg) ==> o.entries == |LoadPalette(lines)|
    ensures o.InputExit? <==> prog.Sequential? && IsNumber(arg) && Atoi(arg) == 0
    ensures o.DeviceErrorExit? <==> prog.OpenCl? && IsNumber(arg) && Atoi(arg) == 0
  {
    if IsNumber(arg) then
      var k := Atoi(arg);
      if k >= 1 then Mapped(k)
      else if prog == Sequential then InputExit
      else DeviceErrorExit
    else Mapped(|LoadPalette(lines)|)
  }

  /** A palette file without a `#RRGGBB` line gets past the sequential program's checks with no entries. */
  lemma EmptyPaletteFileReachesMapping()
    ensures OutcomeAsWritten(Sequential, "colors.txt", ["red", "#zzzzzz"]) == Mapped(0)
  {
    assert !IsNumber("colors.txt") by { assert !IsDigit("colors.txt"[0]); }
    assert !IsColorLine("red") && !IsColorLine("#zzzzzz") by { assert !IsHexDigit("#zzzzzz"[1]); }
  }

  /**
   * The argument `0` is not refused as an input error by the OpenCL program: it passes the
   * argument checks and fails only later, on the OpenCL runtime.
   */
  lemma ZeroClustersNotRefusedAsInput()
    ensures OutcomeAsWritten(OpenCl, "0", []) == DeviceErrorExit
  {
    assert IsNumber("0") && "0"[0] == '0';
  }

  /**
   * The corrected resolution refuses exactly the inputs on which the programs as written exit
   * or reach the mapping stage with an empty palette. It gives an OpenCL failure on `k = 0` the
   * input error the sequential program gives. On all other inputs the palette sizes agree.
   */
  lemma ResolveRefusesEmptyMapping(prog: Program, arg: string, lines: seq<string>, img: Rgba,
                                   draw: nat -> nat, initLabels: seq<int>)
    requires IsNumber(arg) ==> NumPixels(img) > 0 && |initLabels| == NumPixels(img)
    ensures var r := ResolvePalette(prog, arg, lines, img, draw, initLabels);
            var o := OutcomeAsWritten(prog, arg, lines);
            && (r.Failure? <==> !o.Mapped? || o.entries == 0)
            && (r.Success? ==> o == Mapped(|r.value|))
            && (!o.Mapped? ==> r == Failure(ClusterCountBelowOne))
  {
  }
}
