/** The panoramic object-feature extraction of `Eval.get_visual_features`:
    one detector result per panorama view goes in, one object-feature record
    per view comes out, with every per-object array cut to the view's cap. */
module Eval {
  import opened GeometryUtils

  // ---------------------------------------------------------------------
  // Data model
  // ---------------------------------------------------------------------

  /** A detection box in pixel space, ordered [x1, y1, x2, y2]. */
  datatype Box = Box(x1: real, y1: real, x2: real, y2: real)

  /** The per-view metadata produced with the panorama. The evaluation code
      reads the two fields of view; the remaining metadata is carried along
      untouched, as `pose`. */
  datatype CameraInfo = CameraInfo(hViewAngle: real, vViewAngle: real, pose: seq<real>)

  /** One view's detector output: parallel arrays, one row per detection,
      in the detector's own order. A mask is the flattened per-pixel map of
      one detection. */
  datatype DetectorOutput = DetectorOutput(
    features: seq<seq<real>>,
    boxes: seq<Box>,
    scores: seq<real>,
    labels: seq<int>,
    masks: seq<seq<real>>)
  {
    /** The detector's own promise: every array has one row per box. The
        evaluation code does not check it. */
    predicate WellFormed()
    {
      |features| == |boxes| && |scores| == |boxes| && |labels| == |boxes| && |masks| == |boxes|
    }
  }

  /** The record appended for one view. */
  datatype ObjectFeatures = ObjectFeatures(
    boxFeatures: seq<seq<real>>,
    roiAngles: seq<(real, real)>,
    boxes: seq<Box>,
    masks: seq<seq<bool>>,
    classProbs: seq<real>,
    classLabels: seq<int>,
    cameraInfo: CameraInfo,
    numObjects: nat)

  /** Which lookup table raised the `IndexError`. */
  datatype Table = PanoramicBoxes | CameraInfos

  datatype EvalError = IndexError(table: Table, view: nat)

  datatype Result<T> = Ok(value: T) | Err(error: EvalError)

  /** A pixel is part of the object when its raw mask value exceeds this. */
  const MaskThreshold: real := 0.5

  function Min(a: int, b: int): (m: int) { if a <= b then a else b }

  function Max(a: int, b: int): (m: int) { if a <= b then b else a }

  // ---------------------------------------------------------------------
  // Python prefix slicing `s[:n]`
  // ---------------------------------------------------------------------

  /** Length of `s[:n]` for a sequence of length `len`: a non-negative `n`
      keeps at most `n` rows, a negative `n` drops `-n` rows from the end. */
  function KeptCount(len: nat, n: int): (k: nat)
    ensures k <= len
    ensures 0 <= n ==> k <= n && (k == n || k == len)
    ensures n < 0 ==> k == Max(len + n, 0)
  {
    if 0 <= n then Min(n, len) else Max(len + n, 0)
  }

  /** `s[:n]`: the first rows of `s`, in their original order, as many as
      `KeptCount` says. */
  function Prefix<T>(s: seq<T>, n: int): (r: seq<T>)
    ensures r <= s
    ensures |r| == KeptCount(|s|, n)
  {
    s[..KeptCount(|s|, n)]
  }

  // ---------------------------------------------------------------------
  // Per-view work
  // ---------------------------------------------------------------------

  /** `(x1 + x2) // 2, (y1 + y2) // 2`: floor division on the box
      coordinates, so the centre is the pixel at or just before the exact
      midpoint. */
  function Center(b: Box): (c: (int, int))
    ensures 2.0 * c.0 as real <= b.x1 + b.x2 < 2.0 * c.0 as real + 2.0
    ensures 2.0 * c.1 as real <= b.y1 + b.y2 < 2.0 * c.1 as real + 2.0
  {
    (((b.x1 + b.x2) / 2.0).Floor, ((b.y1 + b.y2) / 2.0).Floor)
  }

  /** The two centre columns of a box array. */
  function Centers(boxes: seq<Box>): (c: (seq<int>, seq<int>))
    ensures |c.0| == |boxes| && |c.1| == |boxes|
    ensures forall j :: 0 <= j < |boxes| ==> (c.0[j], c.1[j]) == Center(boxes[j])
  {
    (seq(|boxes|, j requires 0 <= j < |boxes| => Center(boxes[j]).0),
     seq(|boxes|, j requires 0 <= j < |boxes| => Center(boxes[j]).1))
  }

  /** `np.stack([h, v], 1)`: an N x 2 array of angle pairs. */
  function Stack(h: seq<real>, v: seq<real>): (r: seq<(real, real)>)
    requires |h| == |v|
    ensures |r| == |h|
    ensures forall j :: 0 <= j < |r| ==> r[j].0 == h[j] && r[j].1 == v[j]
  {
    seq(|h|, j requires 0 <= j < |h| => (h[j], v[j]))
  }

  /** The angle of every box centre, taken with this view's own fields of
      view: row j is (h_angle[j], v_angle[j]). */
  function BoxAngles(boxes: seq<Box>, cam: CameraInfo, calculateAngles: AngleFn): (r: seq<(real, real)>)
    requires PreservesLength(calculateAngles)
    ensures |r| == |boxes|
    ensures var angles := calculateAngles(Centers(boxes).0, Centers(boxes).1, cam.hViewAngle, cam.vViewAngle);
            forall j :: 0 <= j < |r| ==> r[j] == (angles.0[j], angles.1[j])
  {
    var (xs, ys) := Centers(boxes);
    var (h, v) := calculateAngles(xs, ys, cam.hViewAngle, cam.vViewAngle);
    Stack(h, v)
  }

  /** `mask > 0.5` on one detection's mask. */
  function BinarizeMask(m: seq<real>): (r: seq<bool>)
    ensures |r| == |m|
    ensures forall k :: 0 <= k < |m| ==> (r[k] <==> m[k] > MaskThreshold)
  {
    if m == [] then [] else [m[0] > MaskThreshold] + BinarizeMask(m[1..])
  }

  /** `masks > 0.5` on the whole mask tensor of a view. */
  function BinarizeMasks(ms: seq<seq<real>>): (r: seq<seq<bool>>)
    ensures |r| == |ms|
    ensures forall j :: 0 <= j < |ms| ==> r[j] == BinarizeMask(ms[j])
  {
    seq(|ms|, j requires 0 <= j < |ms| => BinarizeMask(ms[j]))
  }

  /** The body of the loop over views: angles from this view's camera, every
      per-object array cut to the first `cap` rows, masks thresholded after
      the cut, and the camera info and kept count packed with them. */
  function AssembleView(det: DetectorOutput, cam: CameraInfo, cap: int, calculateAngles: AngleFn): (r: ObjectFeatures)
    requires PreservesLength(calculateAngles)
    // the camera info of this view, unchanged
    ensures r.cameraInfo == cam
    // the count is the number of kept feature rows
    ensures r.numObjects == |r.boxFeatures|
    // every kept array is the front of the detector's array: no reordering, no selection by score
    ensures r.boxFeatures <= det.features && |r.boxFeatures| == KeptCount(|det.features|, cap)
    ensures r.boxes <= det.boxes && |r.boxes| == KeptCount(|det.boxes|, cap)
    ensures r.classProbs <= det.scores && |r.classProbs| == KeptCount(|det.scores|, cap)
    ensures r.classLabels <= det.labels && |r.classLabels| == KeptCount(|det.labels|, cap)
    // one angle pair per kept box; row j from this view's fields of view
    ensures |r.roiAngles| == |r.boxes|
    ensures var angles := calculateAngles(Centers(det.boxes).0, Centers(det.boxes).1, cam.hViewAngle, cam.vViewAngle);
            forall j :: 0 <= j < |r.roiAngles| ==> r.roiAngles[j] == (angles.0[j], angles.1[j])
    // one binary mask per kept raw mask, pixel set exactly when the raw value exceeds 0.5
    ensures |r.masks| == KeptCount(|det.masks|, cap)
    ensures forall j :: 0 <= j < |r.masks| ==>
              |r.masks[j]| == |det.masks[j]| &&
              forall k :: 0 <= k < |r.masks[j]| ==> (r.masks[j][k] <==> det.masks[j][k] > MaskThreshold)
    // with consistent detector output and a non-negative cap, all six arrays keep min(K, cap) rows
    ensures det.WellFormed() && 0 <= cap ==>
              var n := Min(|det.boxes|, cap);
              && r.numObjects == n
              && |r.roiAngles| == n && |r.boxes| == n && |r.masks| == n
              && |r.classProbs| == n && |r.classLabels| == n
              && r.numObjects <= cap && r.numObjects <= |det.boxes|
  {
    var angles := if |det.boxes| > 0 then BoxAngles(det.boxes, cam, calculateAngles) else [];
    var boxFeatures := Prefix(det.features, cap);
    ObjectFeatures(
      boxFeatures := boxFeatures,
      roiAngles := Prefix(angles, cap),
      boxes := Prefix(det.boxes, cap),
      masks := BinarizeMasks(Prefix(det.masks, cap)),
      classProbs := Prefix(det.scores, cap),
      classLabels := Prefix(det.labels, cap),
      cameraInfo := cam,
      numObjects := |boxFeatures|)
  }

  // ---------------------------------------------------------------------
  // The loop over views
  // ---------------------------------------------------------------------

  /** The records for a whole panorama: one per detector result, in view
      order, view i assembled with camera info i and cap i. */
  ghost function AllViews(results: seq<DetectorOutput>, cameraInfos: seq<CameraInfo>,
                          panoramicBoxes: seq<int>, calculateAngles: AngleFn): (r: seq<ObjectFeatures>)
    requires |results| <= |cameraInfos| && |results| <= |panoramicBoxes|
    requires PreservesLength(calculateAngles)
  {
    if results == [] then []
    else [AssembleView(results[0], cameraInfos[0], panoramicBoxes[0], calculateAngles)]
         + AllViews(results[1..], cameraInfos[1..], panoramicBoxes[1..], calculateAngles)
  }

  /** One record per view, and record j is view j's. */
  lemma {:induction false} AllViewsAt(results: seq<DetectorOutput>, cameraInfos: seq<CameraInfo>,
                                      panoramicBoxes: seq<int>, calculateAngles: AngleFn)
    requires |results| <= |cameraInfos| && |results| <= |panoramicBoxes|
    requires PreservesLength(calculateAngles)
    ensures |AllViews(results, cameraInfos, panoramicBoxes, calculateAngles)| == |results|
    ensures forall j :: 0 <= j < |results| ==>
              AllViews(results, cameraInfos, panoramicBoxes, calculateAngles)[j]
              == AssembleView(results[j], cameraInfos[j], panoramicBoxes[j], calculateAngles)
  {
    if results != [] {
      AllViewsAt(results[1..], cameraInfos[1..], panoramicBoxes[1..], calculateAngles);
    }
  }

  /** `get_visual_features` after the detector has run: walks the detector
      results in order and appends one record per view. The first view
      without a cap or without camera info raises `IndexError`; when it
      lacks both, the cap is reported, as it is looked up first. */
  method GetVisualFeatures(results: seq<DetectorOutput>, cameraInfos: seq<CameraInfo>,
                           panoramicBoxes: seq<int>, calculateAngles: AngleFn)
    returns (r: Result<seq<ObjectFeatures>>)
    requires PreservesLength(calculateAngles)
    ensures r.Ok? <==> |results| <= |panoramicBoxes| && |results| <= |cameraInfos|
    ensures r.Ok? ==> r.value == AllViews(results, cameraInfos, panoramicBoxes, calculateAngles)
    ensures r.Err? ==>
              if |panoramicBoxes| <= |cameraInfos| then r.error == IndexError(PanoramicBoxes, |panoramicBoxes|)
              else r.error == IndexError(CameraInfos, |cameraInfos|)
  {
    var objectFeatures: seq<ObjectFeatures> := [];
    var i := 0;
    while i < |results|
      invariant i <= |results| && i <= |panoramicBoxes| && i <= |cameraInfos|
      invariant |objectFeatures| == i
      invariant forall j :: 0 <= j < i ==>
                  objectFeatures[j] == AssembleView(results[j], cameraInfos[j], panoramicBoxes[j], calculateAngles)
    {
      if i == |panoramicBoxes| {
        return Err(IndexError(PanoramicBoxes, i));
      }
      if i == |cameraInfos| {
        return Err(IndexError(CameraInfos, i));
      }
      objectFeatures := objectFeatures + [AssembleView(results[i], cameraInfos[i], panoramicBoxes[i], calculateAngles)];
      i := i + 1;
    }
    AllViewsAt(results, cameraInfos, panoramicBoxes, calculateAngles);
    return Ok(objectFeatures);
  }

  // ---------------------------------------------------------------------
  // Properties
  // ---------------------------------------------------------------------

  /** Box (1, 1, 2, 2) has centre (1, 1), not (1.5, 1.5). */
  lemma UnitBoxCenter()
    ensures Center(Box(1.0, 1.0, 2.0, 2.0)) == (1, 1)
  {
  }

  /** The centre is the only integer pair with the floor property. */
  lemma CenterIsUnique(b: Box, cx: int, cy: int)
    requires 2.0 * cx as real <= b.x1 + b.x2 < 2.0 * cx as real + 2.0
    requires 2.0 * cy as real <= b.y1 + b.y2 < 2.0 * cy as real + 2.0
    ensures Center(b) == (cx, cy)
  {
  }

  /** 0.5 itself is background; anything above it is object. */
  lemma ThresholdIsStrict()
    ensures BinarizeMask([0.5, 0.500001, 0.0, 1.0]) == [false, true, false, true]
  {
  }

  /** Thresholding after the cut equals cutting after thresholding:
      binarisation touches the mask values only. */
  lemma BinarizeCommutesWithPrefix(ms: seq<seq<real>>, cap: int)
    ensures BinarizeMasks(Prefix(ms, cap)) == Prefix(BinarizeMasks(ms), cap)
  {
  }

  /** A view without detections still gets a record, with every array
      empty and no objects. */
  lemma EmptyViewRecord(det: DetectorOutput, cam: CameraInfo, cap: int, calculateAngles: AngleFn)
    requires PreservesLength(calculateAngles)
    requires det.WellFormed() && |det.boxes| == 0
    ensures var r := AssembleView(det, cam, cap, calculateAngles);
            && r.boxFeatures == [] && r.roiAngles == [] && r.boxes == [] && r.masks == []
            && r.classProbs == [] && r.classLabels == [] && r.numObjects == 0 && r.cameraInfo == cam
  {
  }

  /** Two views, the first with three detections and the second with none,
      both capped at 2: two records, of 2 and of 0 objects. */
  lemma TwoViewPanorama(d0: DetectorOutput, d1: DetectorOutput, c0: CameraInfo, c1: CameraInfo, calculateAngles: AngleFn)
    requires PreservesLength(calculateAngles)
    requires d0.WellFormed() && |d0.boxes| == 3
    requires d1.WellFormed() && |d1.boxes| == 0
    ensures var r := AllViews([d0, d1], [c0, c1], [2, 2], calculateAngles);
            && |r| == 2
            && r[0].numObjects == 2 && r[0].boxes == d0.boxes[..2] && r[0].cameraInfo == c0
            && r[1].numObjects == 0 && r[1].boxes == [] && r[1].roiAngles == [] && r[1].cameraInfo == c1
  {
    AllViewsAt([d0, d1], [c0, c1], [2, 2], calculateAngles);
  }
}
