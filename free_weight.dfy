/**
 * The bar-path tracker of `FreeWeight.detect_barbell`: detections of the
 * object detector are filtered by confidence and class, the smallest and the
 * largest accepted x coordinate are kept, and after every accepted detection
 * the path is judged straight when they lie at most 50 units apart.
 *
 * The video loop and the detector are outside the model: the input is the
 * sequence of all detections in the order the loops visit them (frame by
 * frame, result by result, box by box).
 */
module FreeWeight {
  import opened Basics

  /** One detected box: its confidence, its class id and the x coordinate of
      its centre (`xywh[0][0]`). */
  datatype Detection = Detection(confidence: real, cls: int, x: real)

  /** The two tests a detection passes to count as the barbell. */
  predicate Accepted(d: Detection)
  {
    d.confidence > 0.7 && d.cls == 0
  }

  /** The x coordinates of the accepted detections, in order. */
  function AcceptedXs(ds: seq<Detection>): (xs: seq<real>)
    ensures |xs| <= |ds|
    ensures |xs| == 0 <==> forall k :: 0 <= k < |ds| ==> !Accepted(ds[k])
  {
    if |ds| == 0 then []
    else
      var rest := AcceptedXs(ds[1..]);
      assert forall k :: 0 <= k < |ds| - 1 ==> ds[1..][k] == ds[k + 1];
      if Accepted(ds[0]) then [ds[0].x] + rest else rest
  }

  lemma AcceptedXsSnoc(ds: seq<Detection>, d: Detection)
    ensures AcceptedXs(ds + [d]) == AcceptedXs(ds) + (if Accepted(d) then [d.x] else [])
  {
    if |ds| > 0 {
      assert (ds + [d])[1..] == ds[1..] + [d];
      AcceptedXsSnoc(ds[1..], d);
    }
  }

  /** `analyse_bar_path`: the path is not straight exactly when the two
      extreme x coordinates are more than 50 units apart. */
  function AnalyseBarPath(c0: real, c1: real): (straight: bool)
    ensures straight <==> -50.0 <= c1 - c0 <= 50.0
  {
    !(Abs(c0 - c1) > 50.0)
  }

  /** The verdict kept for a non-empty stream of accepted x coordinates. */
  function Straightness(xs: seq<real>): (r: Option<bool>)
    ensures r.None? <==> |xs| == 0
  {
    if |xs| == 0 then None else Some(AnalyseBarPath(SeqMin(xs), SeqMax(xs)))
  }

  /** The verdict in terms of the accepted values alone: the path is
      straight exactly when every two accepted x coordinates lie at most 50
      apart. */
  lemma StraightnessPairwise(xs: seq<real>)
    ensures Straightness(xs) == Some(true) <==>
      |xs| > 0 && forall i, j :: 0 <= i < |xs| && 0 <= j < |xs| ==> xs[i] - xs[j] <= 50.0
  {
    if |xs| > 0 {
      var lo, hi := SeqMin(xs), SeqMax(xs);
      var i :| 0 <= i < |xs| && lo == xs[i];
      var j :| 0 <= j < |xs| && hi == xs[j];
      assert Straightness(xs) == Some(true) <==> hi - lo <= 50.0;
    }
  }

  /** The list `barbell_x_coordinates` once the stream `xs` of accepted x
      coordinates has been folded in: `[inf, -inf]` before the first one,
      then the smallest and the largest. */
  function XRange(xs: seq<real>): (c: seq<ExtReal>)
    ensures |c| == 2
    ensures |xs| == 0 ==> c == [PosInf, NegInf]
    ensures |xs| > 0 ==>
      && c[0].Finite? && c[1].Finite?
      && (forall i :: 0 <= i < |xs| ==> c[0].r <= xs[i] <= c[1].r)
      && (exists i :: 0 <= i < |xs| && c[0].r == xs[i])
      && (exists i :: 0 <= i < |xs| && c[1].r == xs[i])
  {
    if |xs| == 0 then [PosInf, NegInf] else [Finite(SeqMin(xs)), Finite(SeqMax(xs))]
  }

  /** One accepted coordinate folded in by the two comparisons of the loop. */
  lemma XRangeSnoc(xs: seq<real>, x: real)
    ensures XRange(xs + [x]) ==
      var c := XRange(xs);
      var c' := if Less(Finite(x), c[0]) then c[0 := Finite(x)] else c;
      if Less(c'[1], Finite(x)) then c'[1 := Finite(x)] else c'
  {
    if |xs| > 0 {
      SeqMinSnoc(xs, x);
      SeqMaxSnoc(xs, x);
    } else {
      assert xs + [x] == [x];
    }
  }

  /** The per-detection fold of `detect_barbell`. `coords` is the list
      `barbell_x_coordinates`, starting at `[inf, -inf]`. */
  method DetectBarbell(ds: seq<Detection>) returns (barbellDetected: bool, barPathStraight: Option<bool>)
    ensures barbellDetected <==> exists k :: 0 <= k < |ds| && Accepted(ds[k])
    ensures barPathStraight == Straightness(AcceptedXs(ds))
    ensures barbellDetected <==> barPathStraight.Some?
  {
    barbellDetected := false;
    barPathStraight := None;
    var coords := [PosInf, NegInf];
    var i := 0;
    while i < |ds|
      invariant 0 <= i <= |ds|
      invariant coords == XRange(AcceptedXs(ds[..i]))
      invariant barbellDetected <==> |AcceptedXs(ds[..i])| > 0
      invariant barPathStraight == Straightness(AcceptedXs(ds[..i]))
    {
      var d := ds[i];
      assert ds[..i + 1] == ds[..i] + [d];
      AcceptedXsSnoc(ds[..i], d);
      assert AcceptedXs(ds[..i]) + [] == AcceptedXs(ds[..i]);
      if d.confidence > 0.7 {
        if d.cls == 0 {
          barbellDetected := true;
          XRangeSnoc(AcceptedXs(ds[..i]), d.x);
          var x := Finite(d.x);
          if Less(x, coords[0]) {
            coords := coords[0 := x];
          }
          if Less(coords[1], x) {
            coords := coords[1 := x];
          }
          barPathStraight := Some(AnalyseBarPath(coords[0].r, coords[1].r));
        }
      }
      i := i + 1;
    }
    assert ds[..|ds|] == ds;
  }

  /** A single accepted detection is a straight path. */
  lemma SingleDetectionStraight(d: Detection)
    requires Accepted(d)
    ensures Straightness(AcceptedXs([d])) == Some(true)
  {
    assert AcceptedXs([d]) == [d.x];
  }

  /** The verdict depends only on which x coordinates were accepted, not on
      the order in which they arrived. */
  lemma StraightnessOrderIndependent(xs: seq<real>, ys: seq<real>)
    requires multiset(xs) == multiset(ys)
    ensures Straightness(xs) == Straightness(ys)
  {
    if |xs| > 0 {
      SeqMinMaxPermutation(xs, ys);
    } else {
      assert |ys| == |multiset(ys)| == 0;
    }
  }

  /** The spread never shrinks: once the path is judged not straight, no
      later detection makes it straight again. */
  lemma NotStraightPersists(ds: seq<Detection>, later: seq<Detection>)
    requires Straightness(AcceptedXs(ds)) == Some(false)
    ensures Straightness(AcceptedXs(ds + later)) == Some(false)
  {
    AcceptedXsAppend(ds, later);
    SeqMinMaxExtend(AcceptedXs(ds), AcceptedXs(later));
  }

  lemma {:induction false} AcceptedXsAppend(ds: seq<Detection>, es: seq<Detection>)
    ensures AcceptedXs(ds + es) == AcceptedXs(ds) + AcceptedXs(es)
  {
    if |ds| > 0 {
      assert (ds + es)[1..] == ds[1..] + es;
      AcceptedXsAppend(ds[1..], es);
    } else {
      assert ds + es == es;
    }
  }
}
