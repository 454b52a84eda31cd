/**
 * The squat results object of squat_results.py (class `SquatResults`): its
 * class-level defaults and `print_results`, an if/elif selection with one
 * front-view section (feet, toes, knees) and one side-view section (depth,
 * torso). The knee and torso lines compare frame counters; the others read
 * flags.
 */
module SquatSummary {
  import opened Basics

  /** The attributes of `SquatResults`. The knee and torso entries are
      integer counters; `deepest_squat_angle` and `tallest_squat_height` may
      be infinite. */
  datatype SquatResults = SquatResults(
    barbell: bool, barPathStraight: bool,
    frontView: bool, rightView: bool, leftView: bool,
    performingSquat: bool, completedSquat: bool,
    deepestSquatAngle: ExtReal, tallestSquatHeight: ExtReal,
    feetTooFar: bool, feetTooClose: bool,
    leftToesTooInward: bool, leftToesTooOutward: bool,
    rightToesTooInward: bool, rightToesTooOutward: bool,
    leftKneeInward: int, leftKneeAdequate: int,
    rightKneeInward: int, rightKneeAdequate: int,
    torsoTooForward: int, torsoTooUpright: int, torsoAdequate: int,
    tooShallow: bool, tooDeep: bool)

  /** The class-level defaults: flags False, counters 0, the deepest angle
      `inf` and the tallest height `-inf`. */
  const DefaultResults := SquatResults(
    false, false,
    false, false, false,
    false, false,
    PosInf, NegInf,
    false, false,
    false, false,
    false, false,
    0, 0,
    0, 0,
    0, 0, 0,
    false, false)

  const FeetFarLine := "Feet are too far apart."
  const FeetCloseLine := "Feet are too close together."
  const FeetAdequateLine := "Feet are adequately stanced."
  /** The feet section's error line reuses the knee wording. */
  const FeetErrorLine := "Error printing result of knee analysis."

  const ToesOutwardLine := "Toes are pointed too outward."
  const RightToesOutwardLine := "Right toes are pointed too outward."
  const ToesInwardLine := "Toes are pointed too inward."
  const LeftToesInwardLine := "Left toes are pointed too inward."
  const RightToesInwardLine := "Right toes are pointed too inward."
  const ToesAdequateLine := "Toes are adequately pointed."
  const ToesErrorLine := "Error printing result of toe analysis."

  const KneesInwardLine := "Knees moved inward."
  const LeftKneeInwardLine := "Left knee moved inward."
  const RightKneeInwardLine := "Right knee moved inward."
  const KneesAdequateLine := "Knee motion is adequate."
  const KneesErrorLine := "Error printing result of knee analysis."

  const DepthShallowLine := "Squat depth is too shallow."
  const DepthDeepLine := "Squat depth is too deep."
  const DepthAdequateLine := "Squat depth is adequate."

  const TorsoUprightLine := "Torso is too upright."
  const TorsoForwardLine := "Torso is leaning too far forward."
  const TorsoAdequateLine := "Torso is adequately positioned."

  /** The feet line: far wins over close, adequate exactly when neither flag
      is set, and the error line is never reached. */
  function FeetSummary(tooFar: bool, tooClose: bool): (msg: string)
    ensures msg == FeetFarLine <==> tooFar
    ensures msg == FeetCloseLine <==> !tooFar && tooClose
    ensures msg == FeetAdequateLine <==> !tooFar && !tooClose
    ensures msg != FeetErrorLine
  {
    if tooFar then FeetFarLine
    else if tooClose then FeetCloseLine
    else if !tooClose && !tooFar then FeetAdequateLine
    else FeetErrorLine
  }

  /** The toe line: the outward cases come first, and a left foot that alone
      points outward gets the same line as two outward feet; there is no
      left-only outward line. The adequate line appears exactly when all four
      flags are clear, and the error line is never reached. */
  function ToesSummary(leftInward: bool, leftOutward: bool, rightInward: bool, rightOutward: bool): (msg: string)
    ensures msg == ToesOutwardLine <==> leftOutward
    ensures msg == RightToesOutwardLine <==> rightOutward && !leftOutward
    ensures msg == ToesInwardLine <==> !leftOutward && !rightOutward && leftInward && rightInward
    ensures msg == LeftToesInwardLine <==> !leftOutward && !rightOutward && leftInward && !rightInward
    ensures msg == RightToesInwardLine <==> !leftOutward && !rightOutward && rightInward && !leftInward
    ensures msg == ToesAdequateLine <==> !leftInward && !leftOutward && !rightInward && !rightOutward
    ensures msg != ToesErrorLine
  {
    if leftOutward && rightOutward then ToesOutwardLine
    else if leftOutward && !rightOutward then ToesOutwardLine
    else if rightOutward && !leftOutward then RightToesOutwardLine
    else if leftInward && rightInward then ToesInwardLine
    else if leftInward && !rightInward then LeftToesInwardLine
    else if rightInward && !leftInward then RightToesInwardLine
    else if !rightInward && !rightOutward && !leftInward && !leftOutward then ToesAdequateLine
    else ToesErrorLine
  }

  /** A knee counts as inward when it was inward in strictly more frames than
      it was adequate. */
  predicate MostlyInward(inward: int, adequate: int)
  {
    inward > adequate
  }

  /** The knee line. With neither knee mostly inward, the adequate line needs
      both knees strictly mostly adequate: a tie on either knee gives the
      error line. */
  function KneesSummary(leftInward: int, leftAdequate: int, rightInward: int, rightAdequate: int): (msg: string)
    ensures msg == KneesInwardLine <==> MostlyInward(leftInward, leftAdequate) && MostlyInward(rightInward, rightAdequate)
    ensures msg == LeftKneeInwardLine <==> MostlyInward(leftInward, leftAdequate) && !MostlyInward(rightInward, rightAdequate)
    ensures msg == RightKneeInwardLine <==> !MostlyInward(leftInward, leftAdequate) && MostlyInward(rightInward, rightAdequate)
    ensures msg == KneesAdequateLine <==> rightAdequate > rightInward && leftAdequate > leftInward
    ensures msg == KneesErrorLine <==>
      !MostlyInward(leftInward, leftAdequate) && !MostlyInward(rightInward, rightAdequate)
      && (leftInward == leftAdequate || rightInward == rightAdequate)
  {
    if leftInward > leftAdequate && rightInward > rightAdequate then KneesInwardLine
    else if leftInward > leftAdequate && !(rightInward > rightAdequate) then LeftKneeInwardLine
    else if rightInward > rightAdequate && !(leftInward > leftAdequate) then RightKneeInwardLine
    else if rightAdequate > rightInward && leftAdequate > leftInward then KneesAdequateLine
    else KneesErrorLine
  }

  /** The depth line: shallow wins over deep. */
  function DepthSummary(tooShallow: bool, tooDeep: bool): (msg: string)
    ensures msg == DepthShallowLine <==> tooShallow
    ensures msg == DepthDeepLine <==> !tooShallow && tooDeep
    ensures msg == DepthAdequateLine <==> !tooShallow && !tooDeep
  {
    if tooShallow then DepthShallowLine
    else if tooDeep then DepthDeepLine
    else DepthAdequateLine
  }

  /** The torso line is a strict majority vote over the three counters: a
      fault is reported only when its counter beats both others. The
      adequate line is chosen when the adequate counter is at least both
      fault counters or the two fault counters tie, so every tie at the top
      falls to it. */
  function TorsoSummary(tooForward: int, tooUpright: int, adequate: int): (msg: string)
    ensures msg == TorsoUprightLine <==> tooUpright > tooForward && tooUpright > adequate
    ensures msg == TorsoForwardLine <==> tooForward > tooUpright && tooForward > adequate
    ensures msg == TorsoAdequateLine <==> (adequate >= tooUpright && adequate >= tooForward) || tooUpright == tooForward
  {
    if tooUpright > tooForward && tooUpright > adequate then TorsoUprightLine
    else if tooForward > tooUpright && tooForward > adequate then TorsoForwardLine
    else TorsoAdequateLine
  }

  /** The three front-view lines. */
  function FrontSection(r: SquatResults): (lines: seq<string>)
    ensures |lines| == 3
    ensures lines[0] == FeetSummary(r.feetTooFar, r.feetTooClose)
    ensures lines[1] == ToesSummary(r.leftToesTooInward, r.leftToesTooOutward, r.rightToesTooInward, r.rightToesTooOutward)
    ensures lines[2] == KneesSummary(r.leftKneeInward, r.leftKneeAdequate, r.rightKneeInward, r.rightKneeAdequate)
  {
    [FeetSummary(r.feetTooFar, r.feetTooClose),
     ToesSummary(r.leftToesTooInward, r.leftToesTooOutward, r.rightToesTooInward, r.rightToesTooOutward),
     KneesSummary(r.leftKneeInward, r.leftKneeAdequate, r.rightKneeInward, r.rightKneeAdequate)]
  }

  /** The two side-view lines. */
  function SideSection(r: SquatResults): (lines: seq<string>)
    ensures |lines| == 2
    ensures lines[0] == DepthSummary(r.tooShallow, r.tooDeep)
    ensures lines[1] == TorsoSummary(r.torsoTooForward, r.torsoTooUpright, r.torsoAdequate)
  {
    [DepthSummary(r.tooShallow, r.tooDeep), TorsoSummary(r.torsoTooForward, r.torsoTooUpright, r.torsoAdequate)]
  }

  /** `print_results`: the front section when `front_view` is set, then the
      side section when either side flag is set; both when both are. */
  function PrintResults(r: SquatResults): (lines: seq<string>)
    ensures |lines| == (if r.frontView then 3 else 0) + (if r.leftView || r.rightView then 2 else 0)
    ensures r.frontView ==> lines[..3] == FrontSection(r)
    ensures r.leftView || r.rightView ==> lines[|lines| - 2..] == SideSection(r)
  {
    (if r.frontView then FrontSection(r) else []) + (if r.leftView || r.rightView then SideSection(r) else [])
  }

  /** The front half of the independence of the two sections: the front
      lines depend only on the front flags and counters. */
  lemma SectionsIndependent(r: SquatResults, s: SquatResults)
    requires r.frontView && s.frontView
    requires r.feetTooFar == s.feetTooFar && r.feetTooClose == s.feetTooClose
    requires r.leftToesTooInward == s.leftToesTooInward && r.leftToesTooOutward == s.leftToesTooOutward
    requires r.rightToesTooInward == s.rightToesTooInward && r.rightToesTooOutward == s.rightToesTooOutward
    requires r.leftKneeInward == s.leftKneeInward && r.leftKneeAdequate == s.leftKneeAdequate
    requires r.rightKneeInward == s.rightKneeInward && r.rightKneeAdequate == s.rightKneeAdequate
    ensures PrintResults(r)[..3] == PrintResults(s)[..3]
  {
  }

  /** The side half: two results seen from a side agree on their last two
      lines when they agree on the depth flags and the torso counters. */
  lemma SideSectionIndependent(r: SquatResults, s: SquatResults)
    requires r.leftView || r.rightView
    requires s.leftView || s.rightView
    requires r.tooShallow == s.tooShallow && r.tooDeep == s.tooDeep
    requires r.torsoTooForward == s.torsoTooForward && r.torsoTooUpright == s.torsoTooUpright
    requires r.torsoAdequate == s.torsoAdequate
    ensures var lr, ls := PrintResults(r), PrintResults(s);
      lr[|lr| - 2..] == ls[|ls| - 2..]
  {
  }

  /** With no view flag set nothing is printed. */
  lemma DefaultPrintsNothing()
    ensures PrintResults(DefaultResults) == []
  {
  }

  /** With the default counters (all zero) the knee line is the error
      line. */
  lemma DefaultKneesError()
    ensures KneesSummary(DefaultResults.leftKneeInward, DefaultResults.leftKneeAdequate,
                         DefaultResults.rightKneeInward, DefaultResults.rightKneeAdequate) == KneesErrorLine
  {
  }

  /** Defaults seen from the front: adequate feet and toes, the knee error
      line. */
  lemma DefaultFrontSummary()
    ensures PrintResults(DefaultResults.(frontView := true)) == [FeetAdequateLine, ToesAdequateLine, KneesErrorLine]
  {
  }
}
