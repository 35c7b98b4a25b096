# Colour quantisation, modelled in Dafny

Two C programs reduce an RGBA image to a small palette and remap every pixel to its nearest
palette entry. `color_quantization_seq/main.c` does everything on the host.
`color_quantization/main.c` runs the per-pixel work in OpenCL kernels and keeps convergence
control and centroid arithmetic on the host.

Both programs read a first argument. If it is a digit string (`is_number`), it is the cluster
count `k`, and `kmeans_palette` derives `k` centroids by Lloyd's algorithm. Otherwise it names
a palette file, and `load_palette` reads its `#RRGGBB` lines, at most 1024 of them. The image is
then mapped: each pixel gets the RGB of the palette entry at minimal squared RGB distance, with
the lowest index winning ties, and keeps its alpha.

The model is pure and functional:

- `colors.dfy` holds the image as a flat `seq` of bytes (4 per pixel), colours with `real`
  channels, and `dist2`.
- `palette_file.dfy` covers `is_number`, `atoi` on digit strings, the per-line rule of
  `load_palette` and its cap.
- `nearest.dfy` is the lowest-index nearest scan.
- `mapping.dfy` is the mapping pass.
- `kmeans.dfy` holds the seeding, assignment, reduction and centroid update that both programs share.
- `kmeans_seq.dfy` and `kmeans_cl.dfy` are the two iteration loops.
- `quantize.dfy` is the `main` flow of both programs.

Floats are modelled as exact rationals (`real`). The `(unsigned char)` cast of a value in
[0, 255] is `Floor`. The loops are recursive functions whose fuel is the iteration cap.

Modelling choices:

- **Random seeding.** `rand()` becomes an injected function `draw`, where `draw(j)` is the j-th result.
  The seeding index is then `draw(j) % npix`, as in the source.
- **Uninitialised labels.** The sequential program compares its first assignment against an
  uninitialised labels array. That array is an arbitrary input, `initLabels`.
- **OpenCL kernels.** The `assign_labels` and `map_palette` kernels are not part of this model.
  The OpenCL step `KMeansCl.Step` takes the kernel's labels as an input, with each label in
  [0, k). The loop uses the sequential nearest scan (`KMeans.Assign`) as the kernel's semantics,
  and the mapping uses `Mapping.MapImage`.
- **Palette file.** The file is its sequence of lines.
- **Shared code.** `is_number`, `load_palette` and the seeding loop are textually the same in
  both files (color_quantization/main.c:51-58, 60-103, 110-115). They are modelled once, and the
  table cites the sequential file for them.

In three places the code does not do what a quantiser would be expected to do. One would expect it
to treat an empty palette or a cluster count below one as an input error, and to stop clustering
when no label changes. The model follows the code:

- The OpenCL loop does not count label changes. It reports a change when some non-empty
  cluster's mean differs from its centroid, and it performs the update before it tests the flag.
- Neither program checks `k > npix`. Seeding samples with replacement, so such a `k` is accepted.
- Neither program rejects an empty palette. The OpenCL program does not reject `k == 0` as an
  input error; that case fails later in the OpenCL runtime. The corrected model refuses both and
  records the discrepancy under "Findings".

## Model

| member | source | states |
|---|---|---|
| Colors.Dist2 | color_quantization_seq/main.c:17-22 | squared RGB distance is never negative, and is zero exactly when the two colours are equal |
| PaletteFile.IsNumber | color_quantization_seq/main.c:24-31 | true iff the string is non-empty and every character is in '0'..'9' |
| PaletteFile.AllDigits | color_quantization_seq/main.c:26-29 | the scan loop succeeds iff every character is a decimal digit |
| PaletteFile.Atoi | color_quantization_seq/main.c:160 | the value of a digit string is zero iff every digit is '0', which is when the `k < 1` guard fires |
| PaletteFile.ParseLine | color_quantization_seq/main.c:50-56 | a line yields a colour iff it is '#' followed by six hex digits; the colour has whole channels in 0..255 |
| PaletteFile.ParseFormatLine | color_quantization_seq/main.c:52 | reading back a colour written as `#RRGGBB` gives the same colour, whatever text follows on the line |
| PaletteFile.AcceptedColors | color_quantization_seq/main.c:49-58 | the accepted colours, uncapped, are byte colours, at most one per line, and none exactly when no line has the `#RRGGBB` form |
| PaletteFile.LoadFrom | color_quantization_seq/main.c:47-63 | the reading loop keeps the entries stored so far, never holds more than 1024, and when it stops below the cap it has appended every accepted colour |
| PaletteFile.LoadFromKeepsPrefix | color_quantization_seq/main.c:47-63 | the reading loop keeps the entries stored so far and appends accepted colours in file order until the count reaches 1024 |
| PaletteFile.LoadPalette | color_quantization_seq/main.c:40-75 | the palette is the first min(n, 1024) accepted colours in file order, each a byte colour; it is empty iff no line matches |
| Nearest.ScanFrom | color_quantization_seq/main.c:99-105 | continuing the scan from any prefix winner ends at an entry no farther than any other and strictly nearer than every earlier one |
| Nearest.NearestIndex | color_quantization_seq/main.c:97-105 | the scan from best = 0 returns an index in [0, pn) whose distance is minimal and which is the lowest such index |
| Nearest.NearestUnique | color_quantization_seq/main.c:101 | the strict '<' tie-break leaves exactly one admissible index |
| Nearest.NearestOfMember | color_quantization_seq/main.c:171-179 | a colour present in the palette selects its first occurrence |
| Mapping.ToByte | color_quantization_seq/main.c:180-182 | the cast gives the byte b with b <= x < b + 1 |
| Mapping.MapImage | color_quantization_seq/main.c:167-184 | output has 4·npix bytes; pixel i's RGB is the truncated RGB of its nearest palette entry and its alpha is the input's alpha |
| Mapping.MapIdempotent | color_quantization_seq/main.c:169-184 | with a palette of whole-number colours, mapping the output again gives the output unchanged |
| Mapping.ReddishPixelPicksRed | color_quantization_seq/main.c:171-179 | pixel (200, 10, 10) against palette [red, green] selects red |
| KMeans.Seed | color_quantization_seq/main.c:85-90 | k centroids, centroid j the colour of pixel draw(j) % npix, so every seed is the colour of a pixel in [0, npix) and a byte colour |
| KMeans.Assign | color_quantization_seq/main.c:95-105 | one label per pixel, each the lowest-index nearest centroid, hence in [0, k) |
| KMeans.Reduce | color_quantization_seq/main.c:113-123 | after the reduction each cluster's sums are its members' channel totals and its count is the number of pixels labelled with it |
| KMeans.CountsSumToPixels | color_quantization_seq/main.c:117-123 | the per-cluster counts add up to the number of pixels |
| KMeans.ChannelTotalBounds | color_quantization_seq/main.c:119-122 | a cluster's channel total lies between 0 and 255 times its member count |
| KMeans.Mean | color_quantization_seq/main.c:126-128 | each channel of `sum / (float)cnt`, multiplied back by the count, gives the channel sum |
| KMeans.MemberMean | color_quantization_seq/main.c:126-128 | the new centroid times the member count equals the channel total, and the mean lies in [0, 255] |
| KMeans.Recenter | color_quantization_seq/main.c:124-130 | an empty cluster keeps its centroid, a non-empty one becomes the exact mean of its members; centroids in [0, 255] stay there |
| KMeansSeq.Changed | color_quantization_seq/main.c:106-110 | the change counter is zero iff the new labels equal the old ones |
| KMeansSeq.Lloyd | color_quantization_seq/main.c:92-135 | at most the given number of passes, and exactly that many unless it converged; k centroids kept; on convergence the labels are a fixed point of assignment; when the first pass changes no label, the centroids are returned untouched |
| KMeansSeq.KMeansPalette | color_quantization_seq/main.c:79-141 | returns exactly k centroids in [0, 255] after at most max_iter passes |
| KMeansCl.Flatten | color_quantization/main.c:126-130 | 3k values with flat[3j], flat[3j+1], flat[3j+2] the r, g, b of centroid j |
| KMeansCl.UnflattenFlatten | color_quantization/main.c:207-212 | reading colours back out of the flat buffer recovers the palette |
| KMeansCl.Unflatten | color_quantization/main.c:126-130 | reading colour j from flat[3j..3j+3] yields |flat|/3 colours whose flattening is the buffer again |
| KMeansCl.FlattenReadout | color_quantization/main.c:125-132 | any colour sequence that reads colour j from flat[3j..3j+3] flattens back to the buffer |
| KMeansCl.UpdateFrom | color_quantization/main.c:153-165 | clusters before j are untouched; from j on, a non-empty cluster holds its mean and an empty one keeps its centroid; the flag is set iff some non-empty cluster's mean differed |
| KMeansCl.Step | color_quantization/main.c:143-165 | the step's centroids are the sequential update's; changed iff some non-empty cluster's mean differs from its centroid; no change means the centroids are exactly as before |
| KMeansCl.Lloyd | color_quantization/main.c:123-171 | at most the given number of steps, and exactly that many unless it converged; k centroids kept; on convergence one more step would change nothing; a first step that reports no change ends the loop with the centroids untouched |
| KMeansCl.KMeansPalette | color_quantization/main.c:105-180 | returns exactly k centroids in [0, 255] after at most MAX_ITERATIONS steps |
| Quantize.ResolvePalette | color_quantization_seq/main.c:159-166 | a digit argument is k, refused when below 1, otherwise k centroids; any other argument loads the palette file, refused when empty; an accepted palette is non-empty and in range |
| Quantize.Quantize | color_quantization_seq/main.c:159-184 | the output exists exactly when a palette was resolved; it is the mapping of the image against that palette, with the input's size and alpha |
| Quantize.OutcomeAsWritten | color_quantization/main.c:199-204 | as written, the sequential program exits on k = 0 and the OpenCL program fails in its runtime on k = 0; otherwise mapping gets k entries for a digit argument and the loaded count for a file |
| Quantize.EmptyPaletteFileReachesMapping | color_quantization_seq/main.c:164-172 | a palette file without a matching line reaches the mapping loop with zero entries |
| Quantize.ZeroClustersNotRefusedAsInput | color_quantization/main.c:119-132 | the argument "0" passes the OpenCL program's argument checks and ends in an OpenCL error exit, not an input-error exit |
| Quantize.ResolveRefusesEmptyMapping | color_quantization_seq/main.c:159-172 | the corrected resolution refuses exactly the inputs where the programs exit or map with an empty palette, gives an OpenCL failure on k = 0 the input error, and otherwise agrees on the palette size |

## Left out

- Image decoding and encoding (stb), `fopen`/`fgets`/`realloc`, `printf`, `clock` timing: I/O. A palette file that cannot be opened exits the program, and the model does not cover that path.
- `fgets` splitting lines longer than 255 bytes into several chunks: the model takes the file's lines as they are.
- ParseLine: models the strict `#RRGGBB` form only. `sscanf`'s leniencies (leading whitespace, signs, `0x` prefixes, one-digit fields) are not modelled, so the model accepts fewer lines than the source. `#12345`, for example, is read by the source as (0x12, 0x34, 0x5) and rejected by the model.
- Atoi: values beyond `int` are not modelled (the source's `atoi` overflow is undefined).
- The OpenCL plumbing: device set-up, buffers, kernel arguments, enqueue/finish, releases and the `CL_CHECK` exits are foreign API calls. The one runtime failure the model records is the zero-byte centroid buffer on `k = 0` (`Quantize.OutcomeAsWritten`). The two kernels are not part of this model; their semantics are the sequential scan and mapping.
- `srand`/`rand`: replaced by the injected `draw` function.
- IEEE float rounding: centroids and distances are exact rationals, so the float equality test of the OpenCL update is exact equality here.
- An image with no pixels on the clustering path (`rand() % npix` divides by zero) is excluded by precondition.
- The `(unsigned char)` cast is modelled only for values in [0, 255]. Palettes and centroids always lie there.
- 000_vector/main.c and 08_matrix/main.c are OpenCL benchmark and plumbing code outside this model.

## Findings

| source | as written | input that shows it | evidently intended | confidence | as-written member | corrected member |
|---|---|---|---|---|---|---|
| color_quantization_seq/main.c:164-172 | `load_palette` may return zero entries; the mapping loop then reads `palette[0]` | a palette file whose lines are `red` and `#zzzzzz` | refuse an empty palette as an input error before mapping | not executed | Quantize.EmptyPaletteFileReachesMapping | Quantize.ResolvePalette |
| color_quantization/main.c:199-202 | `k = atoi(p)` is used with no `k < 1` check, unlike the sequential program's line 161; `k = 0` then makes the zero-byte centroid buffer (line 119) fail, and the `CL_CHECK` at line 132 exits with an OpenCL error | the first argument `0` | refuse a cluster count below one as an input error before any device work | not executed | Quantize.ZeroClustersNotRefusedAsInput | Quantize.ResolvePalette |
