/**
 * The flag-based deadlift analyser of deadlift_analyser.py (class
 * `DeadliftAnalyser`): `determine_view` sets view flags from the knee
 * visibilities, and `analyse_side_view` runs the performing / top-position
 * state and the sticky hip and back flags, all on the shared
 * `DeadliftResults` object.
 *
 * The shoulder-hip-knee angle is an input (the value `calculate_angle` gives
 * for the frame's landmarks); drawing is left out.
 */
module DeadliftAnalysis {
  import opened Basics
  import opened DeadliftSummary

  /** The knee test of `determine_view`. */
  predicate KneeVisible(visibility: real)
  {
    visibility > 0.8
  }

  /** `determine_view`: both knees visible set the front flag, only the right
      one the right flag, only the left one the left flag, neither nothing.
      No flag is ever cleared. */
  function ViewStep(v: ViewFlags, rightKneeVisibility: real, leftKneeVisibility: real): (v': ViewFlags)
    ensures v'.front == (v.front || (KneeVisible(rightKneeVisibility) && KneeVisible(leftKneeVisibility)))
    ensures v'.right == (v.right || (KneeVisible(rightKneeVisibility) && !KneeVisible(leftKneeVisibility)))
    ensures v'.left == (v.left || (!KneeVisible(rightKneeVisibility) && KneeVisible(leftKneeVisibility)))
  {
    var right, left := KneeVisible(rightKneeVisibility), KneeVisible(leftKneeVisibility);
    if right && left then v.(front := true)
    else if right && !left then v.(right := true)
    else if left && !right then v.(left := true)
    else v
  }

  /** The start-position, performing and top-position tests. An angle below
      150 marks the lift as in progress and raises the top angle to it when
      larger; `top_position` is then recomputed from the updated values; the
      other fields of the lift state are untouched. */
  function LiftStep(l: LiftState, angle: real): (l': LiftState)
    ensures l'.performing == (l.performing || angle < 150.0)
    ensures l'.topPositionAngle == (if angle < 150.0 && angle > l.topPositionAngle then angle else l.topPositionAngle)
    ensures l'.topPosition == (angle >= l'.topPositionAngle && l'.performing)
    ensures l'.completed == l.completed && l'.bottomPositionReached == l.bottomPositionReached
    ensures l'.bottomPositionAngle == l.bottomPositionAngle
  {
    var l1 :=
      if angle > 150.0 && !l.performing then l.(performing := false)
      else if angle < 150.0 then
        var l0 := l.(performing := true);
        if angle > l0.topPositionAngle then l0.(topPositionAngle := angle) else l0
      else l;
    l1.(topPosition := angle >= l1.topPositionAngle && l1.performing)
  }

  predicate HipsAboveShoulders(lm: Landmarks)
  {
    lm.leftHip.y < lm.leftShoulder.y
  }

  predicate Overextended(angle: real)
  {
    angle > 175.0
  }

  /** The back test: at the top position an angle beyond 175 sets the
      overextended flag and any other angle the neutral flag; away from the
      top nothing changes. Neither flag is ever cleared. */
  function BackStep(b: BackFlags, atTop: bool, angle: real): (b': BackFlags)
    ensures b'.overextended == (b.overextended || (atTop && Overextended(angle)))
    ensures b'.neutral == (b.neutral || (atTop && !Overextended(angle)))
  {
    if atTop then
      if Overextended(angle) then b.(overextended := true) else b.(neutral := true)
    else b
  }

  /** `analyse_side_view` on one frame: the lift tests, the hip test (a
      sticky flag) and, with the new top position, the back test. The view
      flags, the barbell flag and the flags no test sets are untouched. */
  function SideViewStep(r: DeadliftResults, angle: real, lm: Landmarks): (r': DeadliftResults)
    ensures r'.view == r.view && r'.barbell == r.barbell && r'.other == r.other
    ensures r'.lift == LiftStep(r.lift, angle)
    ensures r'.hipsHigherThanShoulders == (r.hipsHigherThanShoulders || HipsAboveShoulders(lm))
    ensures r'.back == BackStep(r.back, r'.lift.topPosition, angle)
  {
    var l := LiftStep(r.lift, angle);
    r.(lift := l,
       hipsHigherThanShoulders := r.hipsHigherThanShoulders || HipsAboveShoulders(lm),
       back := BackStep(r.back, l.topPosition, angle))
  }

  /** With a top angle of at least 150 (the default), the top angle never
      changes, and the top position is reached exactly when a lift in
      progress comes back to 150 or above. */
  lemma TopAngleFixed(l: LiftState, angle: real)
    requires l.topPositionAngle >= 150.0
    ensures LiftStep(l, angle).topPositionAngle == l.topPositionAngle
    ensures LiftStep(l, angle).topPosition <==> l.performing && angle >= l.topPositionAngle
  {
  }

  /** The dispatch of `process_video`: after `determine_view`, the front flag
      wins; a side flag runs the side analysis; with no flag nothing else
      happens. */
  function FrameStep(r: DeadliftResults, fr: Frame): (r': DeadliftResults)
    ensures r'.view == ViewStep(r.view, fr.rightKneeVisibility, fr.leftKneeVisibility)
    ensures r'.view.front || (!r'.view.right && !r'.view.left) ==> r' == r.(view := r'.view)
    ensures !r'.view.front && (r'.view.right || r'.view.left) ==>
      r' == SideViewStep(r.(view := r'.view), fr.angle, fr.landmarks)
  {
    var r1 := r.(view := ViewStep(r.view, fr.rightKneeVisibility, fr.leftKneeVisibility));
    if r1.view.front then r1
    else if r1.view.right || r1.view.left then SideViewStep(r1, fr.angle, fr.landmarks)
    else r1
  }

  /** One frame of `process_video` with landmarks: the knee visibilities,
      the frame's landmarks and the shoulder-hip-knee angle derived from
      them. */
  datatype Frame = Frame(rightKneeVisibility: real, leftKneeVisibility: real, landmarks: Landmarks, angle: real)

  /** The results after a sequence of frames. */
  function Run(r: DeadliftResults, frames: seq<Frame>): DeadliftResults
    decreases |frames|
  {
    if |frames| == 0 then r else Run(FrameStep(r, frames[0]), frames[1..])
  }

  /** The frame loop of `process_video` processes frames one at a time:
      running two batches in turn is running their concatenation. */
  lemma {:induction false} RunAppend(r: DeadliftResults, a: seq<Frame>, b: seq<Frame>)
    ensures Run(r, a + b) == Run(Run(r, a), b)
    decreases |a|
  {
    if |a| == 0 {
      assert a + b == b;
    } else {
      assert (a + b)[0] == a[0];
      assert (a + b)[1..] == a[1..] + b;
      RunAppend(FrameStep(r, a[0]), a[1..], b);
    }
  }

  /** The facts a run keeps: once set, the view flags, `performing_deadlift`,
      the hip flag and the back flags stay set; a top angle of 150 or more
      never moves; the flags no test sets keep their values. */
  predicate Keeps(r: DeadliftResults, r': DeadliftResults)
  {
    && (r.view.front ==> r'.view.front)
    && (r.view.right ==> r'.view.right)
    && (r.view.left ==> r'.view.left)
    && (r.lift.performing ==> r'.lift.performing)
    && (r.hipsHigherThanShoulders ==> r'.hipsHigherThanShoulders)
    && (r.back.overextended ==> r'.back.overextended)
    && (r.back.neutral ==> r'.back.neutral)
    && (r.lift.topPositionAngle >= 150.0 ==> r'.lift.topPositionAngle == r.lift.topPositionAngle)
    && r'.lift.completed == r.lift.completed
    && r'.lift.bottomPositionReached == r.lift.bottomPositionReached
    && r'.barbell == r.barbell && r'.other == r.other
  }

  lemma KeepsTransitive(r: DeadliftResults, s: DeadliftResults, t: DeadliftResults)
    requires Keeps(r, s) && Keeps(s, t)
    ensures Keeps(r, t)
  {
  }

  lemma FrameStepKeeps(r: DeadliftResults, fr: Frame)
    ensures Keeps(r, FrameStep(r, fr))
  {
  }

  /** Every run keeps those facts; in particular `performing_deadlift`,
      once set, is never cleared, and neither `completed_deadlift` nor
      `bottom_position_reached` is ever set. */
  lemma {:induction false} RunKeeps(r: DeadliftResults, frames: seq<Frame>)
    ensures Keeps(r, Run(r, frames))
    decreases |frames|
  {
    if |frames| > 0 {
      var r1 := FrameStep(r, frames[0]);
      FrameStepKeeps(r, frames[0]);
      RunKeeps(r1, frames[1..]);
      KeepsTransitive(r, r1, Run(r1, frames[1..]));
    }
  }

  /** From the defaults the top angle stays 150 whatever the frames (so,
      by `TopAngleFixed`, the top position is a lift in progress back at 150
      or above). */
  lemma DefaultTopAngleStays(frames: seq<Frame>)
    ensures Run(DefaultResults, frames).lift.topPositionAngle == 150.0
  {
    RunKeeps(DefaultResults, frames);
  }

  /** Once `front_view` is set, a frame changes nothing but the view
      flags: the side analysis never runs again. */
  lemma FrontViewFreezes(r: DeadliftResults, fr: Frame)
    requires r.view.front
    ensures FrameStep(r, fr).(view := r.view) == r
    ensures FrameStep(r, fr).view.front
  {
  }

  /** Over a run, too: from a results object with `front_view` set, only the
      view flags ever change. */
  lemma {:induction false} RunFrontViewFreezes(r: DeadliftResults, frames: seq<Frame>)
    requires r.view.front
    ensures Run(r, frames).(view := r.view) == r
    decreases |frames|
  {
    if |frames| > 0 {
      var r1 := FrameStep(r, frames[0]);
      FrontViewFreezes(r, frames[0]);
      RunFrontViewFreezes(r1, frames[1..]);
    }
  }

  /** With no view flag set and neither knee visible, the frame changes
      nothing. */
  lemma NoViewNoChange(r: DeadliftResults, fr: Frame)
    requires !r.view.front && !r.view.right && !r.view.left
    requires !KneeVisible(fr.rightKneeVisibility) && !KneeVisible(fr.leftKneeVisibility)
    ensures FrameStep(r, fr) == r
  {
  }

  /** The analyser object: the landmark dictionary of the current frame and
      the results object it updates. */
  class DeadliftAnalyser {
    var results: DeadliftResults
    var landmarks: Landmarks

    constructor (landmarks: Landmarks)
      ensures results == DefaultResults
      ensures this.landmarks == landmarks
    {
      results := DefaultResults;
      this.landmarks := landmarks;
    }

    method DetermineView(rightKneeVisibility: real, leftKneeVisibility: real)
      modifies this`results
      ensures results == old(results).(view := ViewStep(old(results).view, rightKneeVisibility, leftKneeVisibility))
    {
      if rightKneeVisibility > 0.8 && leftKneeVisibility > 0.8 {
        results := results.(view := results.view.(front := true));
      } else if rightKneeVisibility > 0.8 && !(leftKneeVisibility > 0.8) {
        results := results.(view := results.view.(right := true));
      } else if leftKneeVisibility > 0.8 && !(rightKneeVisibility > 0.8) {
        results := results.(view := results.view.(left := true));
      }
    }

    method AnalyseSideView(angle: real)
      modifies this`results
      ensures results == SideViewStep(old(results), angle, landmarks)
    {
      var lift := results.lift;
      // start position and performing deadlift
      if angle > 150.0 && lift.performing == false {
        lift := lift.(performing := false);
      } else if angle < 150.0 {
        lift := lift.(performing := true);
        if angle > lift.topPositionAngle {
          lift := lift.(topPositionAngle := angle);
        }
      }
      // top position
      if angle >= lift.topPositionAngle && lift.performing == true {
        lift := lift.(topPosition := true);
      } else {
        lift := lift.(topPosition := false);
      }
      assert lift == LiftStep(old(results).lift, angle);
      results := results.(lift := lift);
      // hips against shoulders
      if landmarks.leftHip.y < landmarks.leftShoulder.y {
        results := results.(hipsHigherThanShoulders := true);
      }
      // back at the top position
      if lift.topPosition {
        if angle > 175.0 {
          results := results.(back := results.back.(overextended := true));
        } else {
          results := results.(back := results.back.(neutral := true));
        }
      }
    }

    /** One frame of `process_video` with landmarks: `determine_view`,
        `extract_landmarks`, then the dispatch on the view flags. */
    method ProcessFrame(fr: Frame)
      modifies this`results, this`landmarks
      ensures landmarks == fr.landmarks
      ensures results == FrameStep(old(results), fr)
    {
      DetermineView(fr.rightKneeVisibility, fr.leftKneeVisibility);
      landmarks := fr.landmarks;
      if results.view.front {
        // "Front View." is printed; the front analysis is switched off
      } else if results.view.right || results.view.left {
        AnalyseSideView(fr.angle);
      }
    }
  }
}
