/**
 * The results object of the flag-based deadlift analyser (deadlift_results.py,
 * class `DeadliftResults`): its class-level defaults and `print_results`,
 * which chooses one hip line and one back line from the flags.
 */
module DeadliftSummary {
  import opened Basics

  /** `front_view`, `right_view`, `left_view`. */
  datatype ViewFlags = ViewFlags(front: bool, right: bool, left: bool)

  /** The lift state: `performing_deadlift`, `completed_deadlift`,
      `top_position`, `bottom_position_reached`, and the two angles.
      `top_position_angle` is a number (the integer 150 by default);
      `bottom_position_angle` may be infinite. */
  datatype LiftState = LiftState(
    performing: bool, completed: bool, topPosition: bool, bottomPositionReached: bool,
    topPositionAngle: real, bottomPositionAngle: ExtReal)

  /** `back_neutral`, `back_overextended`. */
  datatype BackFlags = BackFlags(neutral: bool, overextended: bool)

  /** The side-view flags no analysis sets: `shoulders_retracted`,
      `knees_locked_at_top`, `bar_moves_straight`, `bar_along_leg`. */
  datatype OtherFlags = OtherFlags(shouldersRetracted: bool, kneesLockedAtTop: bool, barMovesStraight: bool, barAlongLeg: bool)

  /** The attributes of `DeadliftResults`, grouped. */
  datatype DeadliftResults = DeadliftResults(
    barbell: bool, view: ViewFlags, lift: LiftState,
    hipsHigherThanShoulders: bool, back: BackFlags, other: OtherFlags)

  /** The class-level defaults: every flag False, the top angle 150 and the
      bottom angle infinite. */
  const DefaultResults := DeadliftResults(
    false, ViewFlags(false, false, false),
    LiftState(false, false, false, false, 150.0, PosInf),
    false, BackFlags(false, false), OtherFlags(false, false, false, false))

  const HipsHighLine := "Hips are higher than shoulders :("
  const HipsLowLine := "Hips are lower than shoulders :)"
  const BackOverextendedLine := "Back is overextended at top of deadlift."
  const BackNeutralLine := "Back position is neutral at the top of deadlift."
  const BackErrorLine := "Error determining back score at top of deadlift."

  /** The hip line depends on `hips_higher_than_shoulders` alone. */
  function HipsMessage(hipsHigherThanShoulders: bool): (msg: string)
    ensures msg == HipsHighLine <==> hipsHigherThanShoulders
    ensures msg == HipsLowLine <==> !hipsHigherThanShoulders
  {
    if hipsHigherThanShoulders then HipsHighLine else HipsLowLine
  }

  /** The back line: overextended wins over neutral, and with neither flag
      the error line is chosen. */
  function BackMessage(backOverextended: bool, backNeutral: bool): (msg: string)
    ensures msg == BackOverextendedLine <==> backOverextended
    ensures msg == BackNeutralLine <==> !backOverextended && backNeutral
    ensures msg == BackErrorLine <==> !backOverextended && !backNeutral
  {
    if backOverextended then BackOverextendedLine
    else if backNeutral then BackNeutralLine
    else BackErrorLine
  }

  /** `print_results`: the hip line, then the back line. */
  function PrintResults(r: DeadliftResults): (lines: seq<string>)
    ensures |lines| == 2
    ensures lines[0] == HipsMessage(r.hipsHigherThanShoulders)
    ensures lines[1] == BackMessage(r.back.overextended, r.back.neutral)
  {
    [HipsMessage(r.hipsHigherThanShoulders), BackMessage(r.back.overextended, r.back.neutral)]
  }

  /** The summary reads three flags and nothing else: two results that agree
      on them print the same lines. */
  lemma PrintResultsReadsThreeFlags(r: DeadliftResults, s: DeadliftResults)
    requires r.hipsHigherThanShoulders == s.hipsHigherThanShoulders
    requires r.back == s.back
    ensures PrintResults(r) == PrintResults(s)
  {
  }

  /** The defaults print the low-hips line and the back error line. */
  lemma DefaultSummary()
    ensures PrintResults(DefaultResults) == [HipsLowLine, BackErrorLine]
  {
  }
}
