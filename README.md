# Classical-forensics deepfake risk: a Dafny model

This project models the analyzer of a small deepfake-detection service. The
service takes two face images and returns a heuristic "deepfake risk". The
model covers the three pieces of `DeepfakeAnalyzer` that are logic rather than
image numerics:

- **Face locator** (`extract_face`, module `FaceLocator`). The detector's
  boxes are the input. The locator picks the box of largest area. Its sort is
  stable, so among equal areas the first box in detector order wins. The box
  is padded inward by `int(0.12 * w)` on every side and the corners are
  clamped to the image. No boxes means no face.
- **Edge density** (`edge_density`, module `EdgeMap`). This is the share of
  cells of a Canny edge map that are positive. The map is a sequence of rows,
  counted row by row.
- **Forensic comparator** (`compare_images`, module `ForensicComparator`). If
  either image has no face, the result holds only the error message.
  Otherwise four signals are scored against fixed thresholds:
  - similarity below 0.80 gives 35 points, and from 0.80 up to below 0.88 it
    gives 20;
  - a sharpness gap over 120 gives 25;
  - an edge-density gap over 0.04 gives 20;
  - a colour distance over 0.30 gives 20.

  The points are summed and capped at 100. A total of 50 or more reads
  "Likely Manipulated / Face Swap"; anything lower reads "Likely Same Real
  Face".

The rows are padded by the pad computed from the width `w`, not by 12% of
the height (detector.py:23-27), and `FaceLocator.CropOf` does the same. The
crop is then read as `img[y1:y2, x1:x2]` with Python's slicing rules, which
`FaceLocator.SliceLength` models. Two lemmas show what a box much wider than
it is tall does:

- `FaceLocator.WideBoxHasNoRows`: the slice can have no rows.
- `FaceLocator.FlatBoxWrapsAround`: when the row end is negative, it wraps
  around to the bottom of the image.

The cascade's boxes are square, so neither case arises from them.

The risk fusion is written twice, for two purposes:

- `ForensicComparator.FuseRisk` is a method with a running total, as the
  source has it.
- `ForensicComparator.Risk` is the pure capped sum that the lemmas talk about.

`FuseRisk`'s contract ties the two together.

Inputs that stand in for library code:

- Detector boxes (from OpenCV's cascade classifier) are plain values.
- The Canny edge map is a sequence of rows of cells.
- The four signals come from a `measure` function over the two crops, which is
  a parameter of `ForensicComparator.CompareImages`.

## Model

| member | source | states |
|---|---|---|
| `FaceLocator.ExtractFace` | detector.py:17-27 | no face exactly when the detector reported no box; otherwise the crop of the box `FirstLargest` selects, which lies inside the image |
| `FaceLocator.SortByArea` | detector.py:20 | the sorted boxes are a permutation of the detector's boxes, ordered by decreasing `w*h` |
| `FaceLocator.InsertByArea` | detector.py:20 | one insertion step of the stable sort adds exactly the new box to the multiset of boxes |
| `FaceLocator.InsertKeepsSorted` | detector.py:20 | inserting a box into a list sorted by decreasing area keeps it sorted |
| `FaceLocator.FirstLargest` | detector.py:20-21 | reference choice: an index whose area no box exceeds, with every earlier box strictly smaller |
| `FaceLocator.SortHeadIsFirstLargest` | detector.py:20-21 | the head of the stable descending sort, `faces[0]`, is the first box of largest area in detector order |
| `FaceLocator.Pad` | detector.py:23 | the pad is 0.12 * w truncated toward zero: non-negative and within one pixel below 0.12 * w for w >= 0, mirrored for negative w |
| `FaceLocator.CropOf` | detector.py:23-27 | the corners satisfy 0 <= x1, 0 <= y1, x2 <= width, y2 <= height; each corner is the padded corner whenever that lies in the image, and otherwise exactly 0 (for x1, y1) or the image bound width, height (for x2, y2) |
| `FaceLocator.SliceIndex` | detector.py:29 | where Python puts a slice bound: unchanged inside [0, len], counted from the end when in [-len, 0), and clamped to 0 or len beyond |
| `FaceLocator.SliceLength` | detector.py:29 | the number of rows or columns a slice covers is at most the axis length, is stop - start for bounds inside the axis, and is 0 when stop <= start with a non-negative stop |
| `FaceLocator.CropNonEmpty` | detector.py:23-27 | a box inside the image that is taller than twice its pad gives a slice of exactly y2 - y1 > 0 rows and x2 - x1 > 0 columns |
| `FaceLocator.WideBoxHasNoRows` | detector.py:23-27 | the y axis uses the width's pad: a 100x20 box gets pad 12 and corners with rows 12..8, a slice with no rows |
| `FaceLocator.FlatBoxWrapsAround` | detector.py:23-29 | a 100x5 box in a 200x200 image gets row end -7, and img[12:-7] covers 181 rows |
| `EdgeMap.EdgeCount` | detector.py:41 | the number of positive cells is at most the cell count; it is 0 exactly when no cell is positive and equals the cell count exactly when all are |
| `EdgeMap.EdgeCountIsCellCount` | detector.py:41 | the count equals the size of the set of positions holding a positive cell |
| `EdgeMap.EdgeCountConcat` | detector.py:41 | the count of two joined pieces is the sum of their counts |
| `EdgeMap.Flatten` | detector.py:41 | the row-major cells of a map number exactly its cell count, edges.size |
| `EdgeMap.RowEdgeCountIsEdgeCount` | detector.py:41 | counting edge cells row by row gives the count over the whole map, as np.sum over the 2-D array does |
| `EdgeMap.EdgeDensity` | detector.py:39-41 | for a non-empty map the density lies in [0, 1], is 0 exactly when there is no edge cell and 1 exactly when every cell is an edge, and equals the number of edge cells over the cell count, which is also the row-by-row count over the cell count |
| `ForensicComparator.SsimPoints` | detector.py:79-82 | the similarity rule gives 35 exactly below 0.80, 20 exactly in [0.80, 0.88) and 0 exactly from 0.88, so one of three exclusive bands |
| `ForensicComparator.SharpnessPoints` | detector.py:84-85 | 25 points exactly when the absolute sharpness gap exceeds 120, else 0 |
| `ForensicComparator.EdgePoints` | detector.py:87-88 | 20 points exactly when the absolute edge-density gap exceeds 0.04, else 0 |
| `ForensicComparator.ColorPoints` | detector.py:90-91 | 20 points exactly when the colour distance exceeds 0.30, else 0 |
| `ForensicComparator.FuseRisk` | detector.py:77-93 | the running total with its final min equals the capped sum `Risk` and lies in [0, 100] |
| `ForensicComparator.Interpretation` | detector.py:103-107 | "Likely Manipulated / Face Swap" exactly when risk >= 50, "Likely Same Real Face" exactly when risk < 50 |
| `ForensicComparator.RiskBounded` | detector.py:77-93 | the uncapped sum is at most 35+25+20+20 = 100, so the cap never changes it and the risk lies in [0, 100] |
| `ForensicComparator.RiskFullIff` | detector.py:77-93 | the risk reaches 100 exactly when all four rules fire, with similarity in the lowest band |
| `ForensicComparator.RiskMonotone` | detector.py:79-91 | lower similarity, wider sharpness and edge gaps and a larger colour distance never lower the risk |
| `ForensicComparator.Swapped` | detector.py:84-87 | exchanging the two images' sharpness and edge densities keeps the absolute gaps the rules test, and keeps similarity and colour distance |
| `ForensicComparator.SwappedTwice` | detector.py:84-87 | exchanging twice gives back the original signals |
| `ForensicComparator.RiskSymmetric` | detector.py:84-88 | exchanging the two images' sharpness and edge densities changes neither the risk nor the label |
| `ForensicComparator.RiskZeroIff` | detector.py:77-93 | the risk is 0 exactly when similarity >= 0.88, both gaps are within their limits and colour distance <= 0.30 |
| `ForensicComparator.IdenticalSignalsNoRisk` | detector.py:77-107 | identical signals (similarity >= 0.88, equal sharpness, equal edge density, colour distance <= 0.30) give risk 0 and "Likely Same Real Face" |
| `ForensicComparator.OtherRulesFired` | detector.py:84-91 | at most three of the non-similarity rules fire; with n of them firing their points lie between 20n and 25n, and none fires exactly when the point sum is the similarity points alone |
| `ForensicComparator.ManipulatedIff` | detector.py:79-107 | "manipulated" exactly when: low similarity and at least one other rule; or middle similarity and at least two others; or all three others |
| `ForensicComparator.SixtyPointExample` | detector.py:79-107 | similarity 0.75 with a sharpness gap of 150, an edge gap of 0.01 and colour distance 0.10 gives risk 60, read as manipulated |
| `ForensicComparator.CompareImages` | detector.py:55-107 | the error mapping with its message exactly when either image has no detected face; otherwise a report with the signals measured on the two chosen crops, risk `Risk(signals)` in [0, 100], and its interpretation |

## Left out

- The cascade face detector (`detectMultiScale` with scale 1.3 and 5 neighbours) and the greyscale conversion it works on are external. Their output, the box list, is an input.
- Slicing the crop out of the image and resizing it to 256x256 are image operations. The model stops at the corners and the extent of the slice (`SliceLength`). A slice with no rows or no columns (see `FaceLocator.WideBoxHasNoRows`) makes the resize raise an error, and that failure path is not modelled.
- Sharpness (Laplacian variance), the HSV colour-histogram Bhattacharyya distance and structural similarity are floating-point library numerics. They sit behind the `measure` parameter of `CompareImages`. So do the edge densities it reports.
- The Canny detector is not modelled. `EdgeDensity` takes its output map as given.
- `EdgeMap.EdgeDensity` requires a non-empty map. The crops are always 256x256. For an empty map numpy would return NaN, which is not modelled.
- ForensicComparator.CompareImages: the edge densities in `Signals` come from `measure`. The [0, 1] bound that `EdgeMap.EdgeDensity` proves is not carried over to them.
- `FaceLocator.Pad` treats `int(0.12 * w)` as exact integer arithmetic, `(12*w)/100` truncated toward zero. It does not model the rounding of the floating-point product.
- The thresholds 0.80, 0.88, 0.04 and 0.30 are exact real numbers in the model, not the nearest binary doubles.
- ForensicComparator.SharpnessPoints and ForensicComparator.EdgePoints: the gaps `sharp1 - sharp2` and `edge1 - edge2` are exact reals. The source subtracts doubles, and rounding can take a gap just above a limit (120 or 0.04) down onto the limit.
- FaceLocator.Area: the key `w * h` is unbounded. In the source it is a product of the detector's int32 values, which would wrap above 2^31 - 1. That happens only for boxes over about 46341 pixels on a side.
- Rounding of the reported metrics (`round(..., n)`) is output formatting and does not feed the score. A `Report` carries the unrounded signals.
- The base64 debug images (`face_to_base64`, JPEG encoding) are library encodings and are left out.
- The module-level `FACE_CASCADE` classifier is external state and is not modelled.
- The HTTP layer in app.py (routing, the HTML form, reading uploads, image decoding) is I/O plumbing with no logic of its own.
- FaceLocator.SortByArea: stability (equal areas keep detector order) is proved only for the head of the sorted list, the one box the locator uses. It is not proved for the whole list.
- ForensicComparator.RiskSymmetric: exchanging the two images also exchanges the arguments of the similarity and colour-distance computations. The lemma assumes those two library values are unchanged by the swap, since the Bhattacharyya distance and SSIM are symmetric in their two arguments.
