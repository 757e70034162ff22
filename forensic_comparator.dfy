/** The forensic comparator (DeepfakeAnalyzer.compare_images): the error path
    when a face is missing, the additive risk fusion of four signals, and the
    binary interpretation of the risk.

    The signals themselves (structural similarity, Laplacian variance, Canny
    edge density, Bhattacharyya histogram distance) come from image
    libraries; here they are the reals a measuring function returns for the
    two crops, taken before any rounding, as the thresholds see them. */
module ForensicComparator {
  import opened FaceLocator

  /** The unrounded signals the fusion reads. */
  datatype Signals = Signals(
    ssim: real,       // structural similarity of the two grey crops
    sharp1: real,     // Laplacian variance of the original crop
    sharp2: real,     // Laplacian variance of the suspected crop
    edge1: real,      // edge density of the original crop
    edge2: real,      // edge density of the suspected crop
    colorDiff: real)  // Bhattacharyya distance of the hue-saturation histograms

  /** What the detector saw in one input image. */
  datatype Image = Image(width: nat, height: nat, detections: seq<Box>)

  /** The result mapping: the error entry alone, or the report. */
  datatype Outcome =
    | Failed(error: string)
    | Report(signals: Signals, risk: int, interpretation: string)

  const SsimLow: real := 0.80
  const SsimHigh: real := 0.88
  const SharpGapLimit: real := 120.0
  const EdgeGapLimit: real := 0.04
  const ColorLimit: real := 0.30
  const RiskCap: int := 100
  const ManipulatedAt: int := 50

  const ManipulatedLabel: string := "Likely Manipulated / Face Swap"
  const SameFaceLabel: string := "Likely Same Real Face"
  const NoFaceMessage: string := "Face not detected in one or both images"

  function Abs(x: real): (r: real)
    ensures 0.0 <= r && (r == x || r == -x)
  {
    if x < 0.0 then -x else x
  }

  /** The similarity rule: three exclusive bands worth 35, 20 and 0 points. */
  function SsimPoints(ssim: real): (p: int)
    ensures p == 35 <==> ssim < SsimLow
    ensures p == 20 <==> SsimLow <= ssim < SsimHigh
    ensures p == 0 <==> SsimHigh <= ssim
  {
    if ssim < SsimLow then 35
    else if ssim < SsimHigh then 20
    else 0
  }

  /** 25 points when the sharpness values differ by more than the limit. */
  function SharpnessPoints(sharp1: real, sharp2: real): (p: int)
    ensures p == 25 <==> Abs(sharp1 - sharp2) > SharpGapLimit
    ensures p == 0 <==> Abs(sharp1 - sharp2) <= SharpGapLimit
  {
    if Abs(sharp1 - sharp2) > SharpGapLimit then 25 else 0
  }

  /** 20 points when the edge densities differ by more than the limit. */
  function EdgePoints(edge1: real, edge2: real): (p: int)
    ensures p == 20 <==> Abs(edge1 - edge2) > EdgeGapLimit
    ensures p == 0 <==> Abs(edge1 - edge2) <= EdgeGapLimit
  {
    if Abs(edge1 - edge2) > EdgeGapLimit then 20 else 0
  }

  /** 20 points when the colour distance exceeds the limit. */
  function ColorPoints(colorDiff: real): (p: int)
    ensures p == 20 <==> colorDiff > ColorLimit
    ensures p == 0 <==> colorDiff <= ColorLimit
  {
    if colorDiff > ColorLimit then 20 else 0
  }

  /** The points of all four rules before the cap. */
  function PointSum(s: Signals): int {
    SsimPoints(s.ssim) + SharpnessPoints(s.sharp1, s.sharp2)
      + EdgePoints(s.edge1, s.edge2) + ColorPoints(s.colorDiff)
  }

  /** The risk the source reports: the point sum capped at RiskCap. */
  function Risk(s: Signals): int {
    Min(PointSum(s), RiskCap)
  }

  /** The risk fusion as the source runs it: a running total that each rule
      may raise, then the cap. */
  method FuseRisk(s: Signals) returns (risk: int)
    ensures risk == Risk(s)
    ensures 0 <= risk <= RiskCap
  {
    risk := 0;
    if s.ssim < SsimLow {
      risk := risk + 35;
    } else if s.ssim < SsimHigh {
      risk := risk + 20;
    }
    if Abs(s.sharp1 - s.sharp2) > SharpGapLimit {
      risk := risk + 25;
    }
    if Abs(s.edge1 - s.edge2) > EdgeGapLimit {
      risk := risk + 20;
    }
    if s.colorDiff > ColorLimit {
      risk := risk + 20;
    }
    risk := Min(risk, RiskCap);
  }

  /** The label of a risk value. */
  function Interpretation(risk: int): (text: string)
    ensures text == ManipulatedLabel <==> risk >= ManipulatedAt
    ensures text == SameFaceLabel <==> risk < ManipulatedAt
  {
    if risk >= ManipulatedAt then ManipulatedLabel else SameFaceLabel
  }

  /** The risk always lies in [0, 100], and since the rules give at most
      35 + 25 + 20 + 20 = 100 points the cap never changes it. */
  lemma RiskBounded(s: Signals)
    ensures 0 <= PointSum(s) <= RiskCap
    ensures Risk(s) == PointSum(s)
    ensures 0 <= Risk(s) <= RiskCap
  {
  }

  /** The cap is reached exactly when all four rules fire at full strength. */
  lemma RiskFullIff(s: Signals)
    ensures Risk(s) == RiskCap <==>
      s.ssim < SsimLow && Abs(s.sharp1 - s.sharp2) > SharpGapLimit
      && Abs(s.edge1 - s.edge2) > EdgeGapLimit && s.colorDiff > ColorLimit
  {
  }

  /** Less similar images with wider sharpness and edge gaps and a larger
      colour distance never get a lower risk. */
  lemma RiskMonotone(s: Signals, t: Signals)
    requires t.ssim <= s.ssim
    requires Abs(t.sharp1 - t.sharp2) >= Abs(s.sharp1 - s.sharp2)
    requires Abs(t.edge1 - t.edge2) >= Abs(s.edge1 - s.edge2)
    requires t.colorDiff >= s.colorDiff
    ensures Risk(t) >= Risk(s)
  {
  }

  /** The same signals with the two images' own measurements exchanged; the
      gaps the rules test are the same either way round. */
  function Swapped(s: Signals): (t: Signals)
    ensures Abs(t.sharp1 - t.sharp2) == Abs(s.sharp1 - s.sharp2)
    ensures Abs(t.edge1 - t.edge2) == Abs(s.edge1 - s.edge2)
    ensures t.ssim == s.ssim && t.colorDiff == s.colorDiff
  {
    s.(sharp1 := s.sharp2, sharp2 := s.sharp1, edge1 := s.edge2, edge2 := s.edge1)
  }

  /** Exchanging twice gives back the original signals. */
  lemma SwappedTwice(s: Signals)
    ensures Swapped(Swapped(s)) == s
  {
  }

  /** Only the gaps between the two images' sharpness and edge density
      matter, so exchanging them leaves the risk unchanged. */
  lemma RiskSymmetric(s: Signals)
    ensures Risk(Swapped(s)) == Risk(s)
    ensures Interpretation(Risk(Swapped(s))) == Interpretation(Risk(s))
  {
  }

  /** No rule fires exactly when the risk is 0. */
  lemma RiskZeroIff(s: Signals)
    ensures Risk(s) == 0 <==>
      SsimHigh <= s.ssim && Abs(s.sharp1 - s.sharp2) <= SharpGapLimit
      && Abs(s.edge1 - s.edge2) <= EdgeGapLimit && s.colorDiff <= ColorLimit
  {
  }

  /** A crop compared with itself: full similarity, equal sharpness and edge
      density, no colour distance, so no risk and the "same face" label. */
  lemma IdenticalSignalsNoRisk(s: Signals)
    requires SsimHigh <= s.ssim
    requires s.sharp1 == s.sharp2 && s.edge1 == s.edge2
    requires s.colorDiff <= ColorLimit
    ensures Risk(s) == 0
    ensures Interpretation(Risk(s)) == SameFaceLabel
  {
  }

  /** The number of the three rules other than similarity that fire; each
      is worth between 20 and 25 points. */
  function OtherRulesFired(s: Signals): (n: nat)
    ensures n <= 3
    ensures 20 * n <= PointSum(s) - SsimPoints(s.ssim) <= 25 * n
    ensures n == 0 <==> PointSum(s) == SsimPoints(s.ssim)
  {
    (if Abs(s.sharp1 - s.sharp2) > SharpGapLimit then 1 else 0)
      + (if Abs(s.edge1 - s.edge2) > EdgeGapLimit then 1 else 0)
      + (if s.colorDiff > ColorLimit then 1 else 0)
  }

  /** When the label reads "manipulated", stated without point values: low
      similarity and any other rule, middling similarity and any two others,
      or all three others. */
  lemma ManipulatedIff(s: Signals)
    ensures Interpretation(Risk(s)) == ManipulatedLabel <==>
      (s.ssim < SsimLow && OtherRulesFired(s) >= 1)
      || (SsimLow <= s.ssim < SsimHigh && OtherRulesFired(s) >= 2)
      || OtherRulesFired(s) == 3
  {
  }

  /** Similarity 0.75 (35 points) and a sharpness gap of 150 (25 points),
      with a small edge gap and colour distance, give risk 60: manipulated. */
  lemma SixtyPointExample()
    ensures Risk(Signals(0.75, 300.0, 150.0, 0.10, 0.11, 0.10)) == 60
    ensures Interpretation(60) == ManipulatedLabel
  {
  }

  /** compare_images on what the detector saw in the two images; `measure`
      stands for the library computations of the signals from the crops. */
  method CompareImages(img1: Image, img2: Image, measure: (Crop, Crop) -> Signals)
    returns (out: Outcome)
    ensures out.Failed? <==> img1.detections == [] || img2.detections == []
    ensures out.Failed? ==> out.error == NoFaceMessage
    ensures out.Report? ==>
      var face1 := ExtractFace(img1.detections, img1.width, img1.height).value;
      var face2 := ExtractFace(img2.detections, img2.width, img2.height).value;
      out.signals == measure(face1, face2)
    ensures out.Report? ==> out.risk == Risk(out.signals) && 0 <= out.risk <= RiskCap
    ensures out.Report? ==> out.interpretation == Interpretation(out.risk)
  {
    var face1 := ExtractFace(img1.detections, img1.width, img1.height);
    var face2 := ExtractFace(img2.detections, img2.width, img2.height);
    if face1.None? || face2.None? {
      return Failed(NoFaceMessage);
    }
    var signals := measure(face1.value, face2.value);
    var risk := FuseRisk(signals);
    out := Report(signals, risk, Interpretation(risk));
  }
}
