/** The contract of `calculate_angles` from the geometry utilities.

    Its body (floating-point trigonometry over pixel centres) is not part of
    this model: the evaluation code receives it as a value of type `AngleFn`
    and relies only on the shape promise stated by `PreservesLength`. */
module GeometryUtils {

  /** `calculate_angles(xs, ys, h_view_angle, v_view_angle)`: horizontal and
      vertical angles of every pixel centre, relative to the optical centre
      of a view with the given fields of view. */
  type AngleFn = (seq<int>, seq<int>, real, real) -> (seq<real>, seq<real>)

  /** Vectorised over the points: for N centres it returns two sequences of
      N angles each, for any fields of view. */
  ghost predicate PreservesLength(calculateAngles: AngleFn)
  {
    forall xs: seq<int>, ys: seq<int>, h: real, v: real ::
      |xs| == |ys| ==> |calculateAngles(xs, ys, h, v).0| == |xs| && |calculateAngles(xs, ys, h, v).1| == |xs|
  }
}
