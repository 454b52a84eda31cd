/**
 * Values shared by every part of the form-evaluation model: optional values,
 * Python floats that may be infinite, the running minimum and maximum folds,
 * 2-D landmark points, the camera view and the verdict labels.
 */
module Basics {

  datatype Option<T> = None | Some(value: T)

  /** A Python float as this model needs it: finite, or one of the sentinels
      `float('-inf')` and `float('inf')`. */
  datatype ExtReal = NegInf | Finite(r: real) | PosInf

  /** Python's `<` on two such floats. */
  predicate Less(a: ExtReal, b: ExtReal)
  {
    match a
    case NegInf => !b.NegInf?
    case Finite(x) => b.PosInf? || (b.Finite? && x < b.r)
    case PosInf => false
  }

  /** Python's `abs` on a float. */
  function Abs(x: real): (r: real)
    ensures r >= 0.0 && (r == x || r == -x)
  {
    if x < 0.0 then -x else x
  }

  /** Python's `min(a, b)` and `max(a, b)` on finite floats. */
  function Min(a: real, b: real): (r: real)
    ensures r <= a && r <= b && (r == a || r == b)
  {
    if b < a then b else a
  }

  function Max(a: real, b: real): (r: real)
    ensures r >= a && r >= b && (r == a || r == b)
  {
    if b > a then b else a
  }

  /** The running minimum of a stream: the value `min(smallest, next)` holds
      after the stream `s` has been folded in, in order. */
  function SeqMin(s: seq<real>): (m: real)
    requires |s| > 0
    ensures forall i :: 0 <= i < |s| ==> m <= s[i]
    ensures exists i :: 0 <= i < |s| && m == s[i]
    decreases |s|
  {
    if |s| == 1 then s[0]
    else
      var p := s[..|s| - 1];
      var m := Min(SeqMin(p), s[|s| - 1]);
      assert forall i :: 0 <= i < |p| ==> p[i] == s[i];
      m
  }

  /** The running maximum of a stream, folded in order. */
  function SeqMax(s: seq<real>): (m: real)
    requires |s| > 0
    ensures forall i :: 0 <= i < |s| ==> m >= s[i]
    ensures exists i :: 0 <= i < |s| && m == s[i]
    decreases |s|
  {
    if |s| == 1 then s[0]
    else
      var p := s[..|s| - 1];
      var m := Max(SeqMax(p), s[|s| - 1]);
      assert forall i :: 0 <= i < |p| ==> p[i] == s[i];
      m
  }

  /** Folding one more value into a running minimum. */
  lemma SeqMinSnoc(s: seq<real>, x: real)
    requires |s| > 0
    ensures SeqMin(s + [x]) == Min(SeqMin(s), x)
  {
    assert (s + [x])[..|s|] == s;
  }

  lemma SeqMaxSnoc(s: seq<real>, x: real)
    requires |s| > 0
    ensures SeqMax(s + [x]) == Max(SeqMax(s), x)
  {
    assert (s + [x])[..|s|] == s;
  }

  /** Extending a stream can only lower its minimum and raise its maximum. */
  lemma SeqMinMaxExtend(s: seq<real>, t: seq<real>)
    requires |s| > 0
    ensures SeqMin(s + t) <= SeqMin(s) && SeqMax(s + t) >= SeqMax(s)
  {
    var i :| 0 <= i < |s| && SeqMin(s) == s[i];
    assert (s + t)[i] == s[i];
    var j :| 0 <= j < |s| && SeqMax(s) == s[j];
    assert (s + t)[j] == s[j];
  }

  /** The minimum and the maximum of a stream do not depend on the order in
      which its values arrive. */
  lemma SeqMinMaxPermutation(s: seq<real>, t: seq<real>)
    requires |s| > 0 && multiset(s) == multiset(t)
    ensures |t| > 0
    ensures SeqMin(s) == SeqMin(t) && SeqMax(s) == SeqMax(t)
  {
    assert |t| == |multiset(t)| == |multiset(s)| == |s|;
    forall u, v | multiset(u) == multiset(v) && |u| > 0
      ensures |v| > 0 && SeqMin(u) >= SeqMin(v) && SeqMax(u) <= SeqMax(v)
    {
      assert |v| == |multiset(v)| == |multiset(u)| == |u|;
      var i :| 0 <= i < |u| && SeqMin(u) == u[i];
      assert u[i] in multiset(v);
      var k :| 0 <= k < |u| && SeqMax(u) == u[k];
      assert u[k] in multiset(v);
    }
  }

  /** A landmark coordinate `[x, y]`, normalised to [0, 1] by the pose detector. */
  datatype Point = Point(x: real, y: real)

  /** The landmark dictionary one frame produces: the twelve joints the
      analysers read. */
  datatype Landmarks = Landmarks(
    leftHip: Point, rightHip: Point,
    leftKnee: Point, rightKnee: Point,
    leftHeel: Point, rightHeel: Point,
    leftShoulder: Point, rightShoulder: Point,
    leftToes: Point, rightToes: Point,
    leftAnkle: Point, rightAnkle: Point)

  /** The `view` string of the dictionary-based analysers: "front", "left",
      "right", or anything else (not yet determined). */
  datatype View = Front | Left | Right | OtherView

  /** The `current` labels written into the results dictionaries; `Unset` is
      the empty string each record starts with. */
  datatype Label =
    | Unset | Upright | Adequate | Forward | Shallow | Deep
    | Far | Close | Outward | Inward | High | Overextended | Overflexed
}
