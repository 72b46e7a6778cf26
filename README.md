# Panoramic object features of the evaluation harness

This project models, in Dafny, how the evaluation harness turns the region
detector's output for a panorama into the per-view object features that the
policy model consumes. The operation is `Eval.get_visual_features`. The
harness captures a panorama, runs the Mask R-CNN detector once on all views,
and then walks the detector results in view order. For each view it:

- looks up that view's object cap in `args.panoramic_boxes`;
- computes every box centre by floor division;
- turns the centres into (horizontal, vertical) angle pairs using that view's
  fields of view;
- keeps the first `cap` rows of every per-object array;
- thresholds the masks at 0.5;
- appends one record with the camera info and the number of kept objects.

Files:

- `geometry_utils.dfy` (module `GeometryUtils`): the contract of
  `calculate_angles`. Its body is not part of this model. The evaluation code
  receives it as a function value `calculateAngles` and relies only on
  `PreservesLength`: for N centres it returns two sequences of N angles.
- `eval.dfy` (module `Eval`) holds the data model (`Box`, `CameraInfo`,
  `DetectorOutput`, `ObjectFeatures`, the `IndexError` result) and the rest:
  - Python's prefix slice `s[:n]` (`KeptCount`, `Prefix`);
  - the per-view assembly as functions (`Center`, `Centers`, `Stack`,
    `BoxAngles`, `BinarizeMask`, `BinarizeMasks`, `AssembleView`);
  - the loop over views as a method (`GetVisualFeatures`), proved against
    the ghost specification `AllViews`;
  - lemmas for the properties the code promises.

Modelling choices, each following the code:

- The detector's arrays are cut one by one (models/eval/eval.py:191-196) and
  their lengths are never compared. So the model takes no equal-length
  precondition: each array keeps `KeptCount(|array|, cap)` rows. The
  statement "all six arrays keep min(K, cap) rows" holds when the detector's
  output is consistent (`DetectorOutput.WellFormed`). The code raises no
  shape-mismatch error, and neither does the model.
- The cap is an `int` with Python's slice meaning. A negative cap drops that
  many rows from the end. The bounds "at most `cap`, at most K" are stated for
  `0 <= cap`.
- A view whose index is past the end of `panoramic_boxes` or `camera_infos`
  raises `IndexError` in the code, and the record list is lost. The model
  returns `Err(IndexError(table, view))` for the first view that is missing
  either entry. When that view is missing both, `panoramic_boxes` is
  reported, because it is read first (line 167).
- Box coordinates, scores, angles and mask values are `real`. numpy's `//`
  on floats is `.Floor` of the exact quotient.
- A mask is the flattened pixel map of one detection (`seq<real>`).

## Model

| member | source | states |
|---|---|---|
| `Eval.KeptCount` | models/eval/eval.py:191-196 | `s[:n]` keeps at most `len` rows. For `n >= 0` it keeps at most `n` rows: exactly `n`, or all of them. For `n < 0` it keeps `max(len + n, 0)` rows. |
| `Eval.Prefix` | models/eval/eval.py:191-196 | The slice `s[:n]` is a prefix of `s`, so the original order is kept, and its length is `KeptCount(|s|, n)`. |
| `Eval.Center` | models/eval/eval.py:176-177 | The centre `(cx, cy)` satisfies `2*cx <= x1+x2 < 2*cx+2`, and the same for `y`. So it is the floor of the midpoint, not the midpoint. |
| `Eval.CenterIsUnique` | models/eval/eval.py:176-177 | Any integer pair with the floor property above is the computed centre. |
| `Eval.UnitBoxCenter` | models/eval/eval.py:176-177 | Box (1, 1, 2, 2) has centre (1, 1). |
| `Eval.Centers` | models/eval/eval.py:176-177 | The two centre columns have one entry per box, and entry j is box j's centre. |
| `Eval.Stack` | models/eval/eval.py:186 | `np.stack([h, v], 1)` has one row per angle, and row j is `(h[j], v[j])`. |
| `Eval.BoxAngles` | models/eval/eval.py:179-186 | There is one angle pair per box. Row j is `calculate_angles` applied to all box centres with this view's `h_view_angle` and `v_view_angle`, at index j. |
| `Eval.BinarizeMask` | models/eval/eval.py:202 | The binary mask has the raw mask's length. Pixel k is set exactly when the raw value is `> 0.5`. |
| `Eval.BinarizeMasks` | models/eval/eval.py:202 | There is one binary mask per raw mask, each thresholded on its own. |
| `Eval.ThresholdIsStrict` | models/eval/eval.py:202 | An example of the strict threshold: 0.5 maps to false, and 0.500001 maps to true. The statement for every value is `BinarizeMask`'s. |
| `Eval.BinarizeCommutesWithPrefix` | models/eval/eval.py:194-202 | Thresholding after the cut gives the same result as cutting after thresholding. Binarisation changes mask values only. |
| `Eval.AssembleView` | models/eval/eval.py:167-207 | The record carries this view's camera info unchanged, and `num_objects` is the number of kept feature rows. Features, boxes, scores and labels are prefixes of the detector's arrays, of length `KeptCount`. There is one angle pair per kept box, taken from this view's fields of view. Masks are cut, then thresholded at `> 0.5`. For consistent detector output and `cap >= 0`, all six arrays have `min(K, cap)` rows, which is at most `cap` and at most K. |
| `Eval.EmptyViewRecord` | models/eval/eval.py:174-198 | A view with no detections still yields a record. All six arrays are empty and `num_objects` is 0. |
| `Eval.AllViewsAt` | models/eval/eval.py:164-198 | The panorama has one record per detector result, and record j is view j's, built with camera info j and cap j. |
| `Eval.GetVisualFeatures` | models/eval/eval.py:164-209 | It succeeds exactly when both tables cover every view, and then returns `AllViews`. Otherwise it returns the `IndexError` of the first view that is missing a cap or camera info. If that view is missing both, the cap is reported. |
| `Eval.TwoViewPanorama` | models/eval/eval.py:164-209 | Take two views, one with 3 detections and one with none, both with cap 2. The result is two records, holding 2 objects and 0 objects, and the second has empty boxes and angles. |

## Left out

- `Eval.__init__` (models/eval/eval.py:22-70) is left out. It loads checkpoints and JSON files, imports modules dynamically, places models on the GPU, preprocesses the dataset and seeds the random generator from the clock. All of that is I/O.
- `queue_tasks` and `spawn_threads` (models/eval/eval.py:72-110) are left out. They are a multiprocessing queue, a lock, worker processes and a random shuffle.
- `setup_scene` (models/eval/eval.py:112-134) is left out. It only forwards calls to the simulator.
- `run`, `evaluate`, `save_results` and `create_stats` (models/eval/eval.py:136-148) are left out. In this file they only raise `NotImplementedError`.
- `create_panorama`, `image_loader` and `region_detector` are left out, along with the transfers to and from the device (models/eval/eval.py:154-162, 175, 199-204). Simulator, detector and device code is not part of this model. `GetVisualFeatures` takes the detector results and camera infos as inputs instead.
- `calculate_angles` is left out apart from its length contract. Its trigonometry is not part of this model.
- Floating-point rounding and tensor dtypes are left out. Values are exact reals.
- The spatial shape of a mask is left out. The threshold is per element, so a flat sequence shows the same behaviour.
