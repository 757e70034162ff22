/** The face locator of the analyzer (DeepfakeAnalyzer.extract_face).

    The cascade classifier is not modelled: its output, the list of detected
    boxes in the order the detector reports them, is the input here. The
    locator keeps the box of largest area (the first one among equals, since
    the sort it uses is stable), pads it inward by twelve percent of its width
    and clamps the corners to the image. */
module FaceLocator {

  datatype Option<T> = None | Some(value: T)

  /** A detection: top-left corner (x, y), width w and height h, in pixels. */
  datatype Box = Box(x: int, y: int, w: int, h: int)

  /** The corners extract_face computes: the crop is img[y1:y2, x1:x2], read
      with Python's slicing rules (see SliceLength), so a negative end counts
      from the far edge of the image. */
  datatype Crop = Crop(x1: int, y1: int, x2: int, y2: int)

  /** The sort key of the detector's boxes. */
  function Area(b: Box): int {
    b.w * b.h
  }

  /** Largest area first. */
  ghost predicate SortedByArea(s: seq<Box>) {
    forall i, j :: 0 <= i < j < |s| ==> Area(s[i]) >= Area(s[j])
  }

  /** One insertion step of a stable sort by decreasing area: b goes in front of
      the first box whose area is not larger than its own, so b stays ahead of
      every later box of the same area. */
  function InsertByArea(b: Box, t: seq<Box>): (r: seq<Box>)
    ensures |r| == |t| + 1
    ensures multiset(r) == multiset(t) + multiset{b}
  {
    if t == [] || Area(b) >= Area(t[0]) then [b] + t
    else
      assert t == [t[0]] + t[1..];
      [t[0]] + InsertByArea(b, t[1..])
  }

  lemma {:induction false} InsertKeepsSorted(b: Box, t: seq<Box>)
    requires SortedByArea(t)
    ensures SortedByArea(InsertByArea(b, t))
  {
    if t != [] && Area(b) < Area(t[0]) {
      var rest := InsertByArea(b, t[1..]);
      InsertKeepsSorted(b, t[1..]);
      HeadDominates(t[0], b, t[1..], rest);
      assert InsertByArea(b, t) == [t[0]] + rest;
    }
  }

  /** A box at least as large as b and as every box of t is at least as large
      as every box of a permutation of t with b added. */
  lemma HeadDominates(a: Box, b: Box, t: seq<Box>, rest: seq<Box>)
    requires Area(a) >= Area(b)
    requires forall j :: 0 <= j < |t| ==> Area(a) >= Area(t[j])
    requires multiset(rest) == multiset(t) + multiset{b}
    ensures forall j :: 0 <= j < |rest| ==> Area(a) >= Area(rest[j])
  {
    forall j | 0 <= j < |rest|
      ensures Area(a) >= Area(rest[j])
    {
      assert rest[j] in multiset(rest);
      if rest[j] != b {
        assert rest[j] in multiset(t);
        var k :| 0 <= k < |t| && t[k] == rest[j];
      }
    }
  }

  /** The detector's boxes sorted by decreasing area, stably: Python's
      sorted(..., reverse=True) keeps equal keys in their original order. */
  function SortByArea(s: seq<Box>): (r: seq<Box>)
    ensures |r| == |s|
    ensures multiset(r) == multiset(s)
    ensures SortedByArea(r)
  {
    if s == [] then []
    else
      assert s == [s[0]] + s[1..];
      InsertKeepsSorted(s[0], SortByArea(s[1..]));
      InsertByArea(s[0], SortByArea(s[1..]))
  }

  /** Reference definition of the box the locator must choose: the index of
      the first box whose area no other box exceeds. */
  function FirstLargest(s: seq<Box>): (i: nat)
    requires |s| > 0
    ensures i < |s|
    ensures forall j :: 0 <= j < |s| ==> Area(s[j]) <= Area(s[i])
    ensures forall j :: 0 <= j < i ==> Area(s[j]) < Area(s[i])
  {
    if |s| == 1 then 0
    else
      var k := 1 + FirstLargest(s[1..]);
      if Area(s[0]) >= Area(s[k]) then 0 else k
  }

  lemma InsertByAreaHead(b: Box, t: seq<Box>)
    ensures InsertByArea(b, t)[0] == if t == [] || Area(b) >= Area(t[0]) then b else t[0]
  {
  }

  /** The head of the stable sort is the first box of largest area, in
      detector order. */
  lemma {:induction false} SortHeadIsFirstLargest(s: seq<Box>)
    requires |s| > 0
    ensures SortByArea(s)[0] == s[FirstLargest(s)]
  {
    var t := SortByArea(s[1..]);
    InsertByAreaHead(s[0], t);
    if |s| > 1 {
      SortHeadIsFirstLargest(s[1..]);
    }
  }

  /** The inward pad, int(0.12 * w): twelve percent of the width, truncated
      toward zero as Python's int() does. */
  function Pad(w: int): (p: int)
    ensures 0 <= w ==> 0 <= p && p as real <= 0.12 * w as real < p as real + 1.0
    ensures w < 0 ==> p <= 0 && p as real - 1.0 < 0.12 * w as real <= p as real
  {
    if w >= 0 then (12 * w) / 100 else -((-12 * w) / 100)
  }

  /** The crop of box b in an image of the given width and height: every side
      moved inward by Pad(b.w) (the rows too, with the pad of the width), then
      the corners clamped to the image. */
  function CropOf(b: Box, width: nat, height: nat): (c: Crop)
    ensures 0 <= c.x1 && 0 <= c.y1 && c.x2 <= width && c.y2 <= height
    ensures c.x1 >= b.x + Pad(b.w) && c.y1 >= b.y + Pad(b.w)
    ensures c.x2 <= b.x + b.w - Pad(b.w) && c.y2 <= b.y + b.h - Pad(b.w)
    ensures b.x + Pad(b.w) >= 0 ==> c.x1 == b.x + Pad(b.w)
    ensures b.y + Pad(b.w) >= 0 ==> c.y1 == b.y + Pad(b.w)
    ensures b.x + b.w - Pad(b.w) <= width ==> c.x2 == b.x + b.w - Pad(b.w)
    ensures b.y + b.h - Pad(b.w) <= height ==> c.y2 == b.y + b.h - Pad(b.w)
    ensures b.x + Pad(b.w) < 0 ==> c.x1 == 0
    ensures b.y + Pad(b.w) < 0 ==> c.y1 == 0
    ensures b.x + b.w - Pad(b.w) > width ==> c.x2 == width
    ensures b.y + b.h - Pad(b.w) > height ==> c.y2 == height
  {
    var pad := Pad(b.w);
    Crop(Max(b.x + pad, 0), Max(b.y + pad, 0),
         Min(b.x + b.w - pad, width), Min(b.y + b.h - pad, height))
  }

  function Max(a: int, b: int): int {
    if a >= b then a else b
  }

  function Min(a: int, b: int): int {
    if a <= b then a else b
  }

  /** extract_face on the detector's boxes: no face exactly when nothing was
      detected; otherwise the crop of the first box of largest area. */
  function ExtractFace(faces: seq<Box>, width: nat, height: nat): (r: Option<Crop>)
    ensures r.None? <==> faces == []
    ensures r.Some? ==> r.value == CropOf(faces[FirstLargest(faces)], width, height)
    ensures r.Some? ==> 0 <= r.value.x1 && 0 <= r.value.y1
                        && r.value.x2 <= width && r.value.y2 <= height
  {
    if faces == [] then None
    else
      SortHeadIsFirstLargest(faces);
      Some(CropOf(SortByArea(faces)[0], width, height))
  }

  /** Where Python puts a slice bound i on an axis of length len: a negative
      bound counts from the end, and the result is clamped into [0, len]. */
  function SliceIndex(i: int, len: nat): (k: int)
    ensures 0 <= k <= len
    ensures 0 <= i <= len ==> k == i
    ensures -(len as int) <= i < 0 ==> k == len + i
    ensures i > len ==> k == len
    ensures i < -(len as int) ==> k == 0
  {
    if i < 0 then Max(i + len, 0) else Min(i, len)
  }

  /** The number of rows (or columns) of a[start:stop] on an axis of length
      len. */
  function SliceLength(start: int, stop: int, len: nat): (n: nat)
    ensures n <= len
    ensures 0 <= start <= stop <= len ==> n == stop - start
    ensures 0 <= stop <= start ==> n == 0
  {
    var a, z := SliceIndex(start, len), SliceIndex(stop, len);
    if a <= z then z - a else 0
  }

  /** A box that lies inside the image and is taller than twice its pad gives
      a crop whose slice has y2 - y1 > 0 rows and x2 - x1 > 0 columns. */
  lemma CropNonEmpty(b: Box, width: nat, height: nat)
    requires 0 <= b.x && 0 <= b.y && 0 < b.w
    requires b.x + b.w <= width && b.y + b.h <= height
    requires 2 * Pad(b.w) < b.h
    ensures var c := CropOf(b, width, height);
      0 < c.x2 - c.x1 == SliceLength(c.x1, c.x2, width)
      && 0 < c.y2 - c.y1 == SliceLength(c.y1, c.y2, height)
  {
  }

  /** Because the rows are padded with the width's pad, a box much wider than
      it is tall can give a slice with no rows. */
  lemma WideBoxHasNoRows()
    ensures Pad(100) == 12
    ensures CropOf(Box(0, 0, 100, 20), 200, 200) == Crop(12, 12, 88, 8)
    ensures SliceLength(12, 8, 200) == 0
  {
  }

  /** When the padded bottom edge lies above row 0, the negative end wraps
      around: img[12:-7] of a 200-row image has 181 rows. */
  lemma FlatBoxWrapsAround()
    ensures CropOf(Box(0, 0, 100, 5), 200, 200) == Crop(12, 12, 88, -7)
    ensures SliceLength(12, -7, 200) == 181
  {
  }
}
