/**
 * The geometry helpers: the joint angle folded into [0, 180] degrees and
 * the conversion of a normalised landmark to pixel coordinates.
 *
 * `np.arctan2` and the factor 180 / pi are outside the model: an angle is
 * computed from the two directions, in degrees, that arctan2 gives for the
 * rays from the middle landmark b to the outer landmarks c and a.
 */
module Helpers {
  import opened Basics

  /** The fold of `calculate_angle`: the absolute difference `|d|` is kept
      when it is at most 180 and replaced by `360 - |d|` otherwise. */
  function FoldAngle(d: real): (r: real)
    ensures Abs(d) <= 180.0 ==> r == Abs(d)
    ensures Abs(d) > 180.0 ==> r == 360.0 - Abs(d)
    ensures -360.0 <= d <= 360.0 ==> 0.0 <= r <= 180.0
    ensures 0.0 <= d <= 180.0 ==> r == d
  {
    var angle := Abs(d);
    if angle > 180.0 then 360.0 - angle else angle
  }

  /** `calculate_angle(a, b, c)` given `dirC` = arctan2 of c - b and `dirA` =
      arctan2 of a - b, both in degrees. */
  function CalculateAngle(dirC: real, dirA: real): (r: real)
    ensures -180.0 <= dirC <= 180.0 && -180.0 <= dirA <= 180.0 ==> 0.0 <= r <= 180.0
  {
    FoldAngle(dirC - dirA)
  }

  /** Swapping the outer landmarks a and c negates the difference, which the
      fold does not see: `calculate_angle(a, b, c) == calculate_angle(c, b, a)`. */
  lemma CalculateAngleSymmetric(dirC: real, dirA: real)
    ensures CalculateAngle(dirC, dirA) == CalculateAngle(dirA, dirC)
  {
  }

  /** The fold is idempotent on every difference arctan2 can produce. */
  lemma FoldAngleIdempotent(d: real)
    requires -360.0 <= d <= 360.0
    ensures FoldAngle(FoldAngle(d)) == FoldAngle(d)
  {
  }

  /** Python's `int()` on a float: truncation toward zero. */
  function Trunc(x: real): (n: int)
    ensures x >= 0.0 ==> n as real <= x < n as real + 1.0
    ensures x < 0.0 ==> n as real - 1.0 < x <= n as real
  {
    if x >= 0.0 then x.Floor else -((-x).Floor)
  }

  /** The shape `(height, width)` of a video frame. */
  datatype Shape = Shape(height: nat, width: nat)

  /** `convert_coordinates`: x is scaled by the width (`shape[1]`) and y by the
      height (`shape[0]`), each truncated. */
  function ConvertCoordinates(landmark: Point, shape: Shape): (pixel: (int, int))
    ensures 0.0 <= landmark.x <= 1.0 ==> 0 <= pixel.0 <= shape.width
    ensures 0.0 <= landmark.y <= 1.0 ==> 0 <= pixel.1 <= shape.height
    ensures landmark.x >= 0.0 ==> pixel.0 as real <= landmark.x * shape.width as real < pixel.0 as real + 1.0
    ensures landmark.y >= 0.0 ==> pixel.1 as real <= landmark.y * shape.height as real < pixel.1 as real + 1.0
  {
    var px := landmark.x * shape.width as real;
    var py := landmark.y * shape.height as real;
    assert 0.0 <= landmark.x <= 1.0 ==> 0.0 <= px <= shape.width as real;
    assert 0.0 <= landmark.y <= 1.0 ==> 0.0 <= py <= shape.height as real;
    (Trunc(px), Trunc(py))
  }
}
