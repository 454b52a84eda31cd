/**
 * The flag-based squat analyser of squat_analyser.py (class
 * `SquatAnalyser`): sixteen boolean fields that `determine_view` and
 * `analyse_form` set and clear frame by frame, and `print_results`, which
 * picks one message per criterion from them.
 *
 * Angles and distances are inputs (the values `calculate_angle` and
 * `np.sqrt` give for the frame's landmarks); drawing is left out.
 */
module SquatAnalysis {
  import opened Basics

  /** `front_view`, `side_view`. */
  datatype ViewFlags = ViewFlags(front: bool, side: bool)
  /** `performing_squat`, `completed_squat`. */
  datatype PhaseFlags = PhaseFlags(performing: bool, completed: bool)
  /** `feet_too_far`, `feet_too_close`. */
  datatype FeetFlags = FeetFlags(tooFar: bool, tooClose: bool)
  /** `<side>_toes_too_outward`, `<side>_toes_too_inward` for one foot. */
  datatype ToeFlags = ToeFlags(tooOutward: bool, tooInward: bool)
  /** `left_knee_inward`, `right_knee_inward`. */
  datatype KneeFlags = KneeFlags(leftInward: bool, rightInward: bool)
  /** `torso_too_forward`, `torso_too_upright`. */
  datatype TorsoFlags = TorsoFlags(tooForward: bool, tooUpright: bool)
  /** `too_shallow`, `too_deep`. */
  datatype DepthFlags = DepthFlags(tooShallow: bool, tooDeep: bool)

  /** A snapshot of the sixteen boolean fields, grouped by criterion. */
  datatype SquatFlags = SquatFlags(
    view: ViewFlags, phase: PhaseFlags, feet: FeetFlags,
    leftToes: ToeFlags, rightToes: ToeFlags,
    knees: KneeFlags, torso: TorsoFlags, depth: DepthFlags)

  /** The class-level defaults: every flag False. */
  const InitialFlags := SquatFlags(
    ViewFlags(false, false), PhaseFlags(false, false), FeetFlags(false, false),
    ToeFlags(false, false), ToeFlags(false, false),
    KneeFlags(false, false), TorsoFlags(false, false), DepthFlags(false, false))

  /** The numbers `analyse_form` derives from one frame: the heel and shoulder
      distances, the two toe angles, the hip-knee-heel angle (also used as
      the shin angle) and the shoulder-hip-knee (torso) angle. */
  datatype FormMeasurements = FormMeasurements(
    feetDistance: real, shoulderDistance: real,
    leftToesAngle: real, rightToesAngle: real,
    hipKneeHeelAngle: real, torsoAngle: real)

  /** Python's `<` on two `[x, y]` lists: lexicographic. */
  predicate ListLess(p: Point, q: Point)
  {
    p.x < q.x || (p.x == q.x && p.y < q.y)
  }

  /** `ListLess` is the strict total order Python gives two-element lists:
      irreflexive, asymmetric, transitive, and any two distinct points are
      comparable. */
  lemma ListLessStrictTotal(p: Point, q: Point, o: Point)
    ensures !ListLess(p, p)
    ensures ListLess(p, q) ==> !ListLess(q, p)
    ensures p == q || ListLess(p, q) || ListLess(q, p)
    ensures ListLess(p, q) && ListLess(q, o) ==> ListLess(p, o)
  {
  }

  /** The combinations the flags are meant never to reach: a squat both in
      progress and completed, a foot both too outward and too inward, a torso
      both too upright and too forward, a squat both too shallow and too
      deep. */
  predicate FlagsValid(f: SquatFlags)
  {
    && !(f.phase.performing && f.phase.completed)
    && !(f.leftToes.tooOutward && f.leftToes.tooInward)
    && !(f.rightToes.tooOutward && f.rightToes.tooInward)
    && !(f.torso.tooUpright && f.torso.tooForward)
    && !(f.depth.tooShallow && f.depth.tooDeep)
  }

  /** The front-view test of `determine_view`. */
  predicate BothAnklesVisible(rightAnkleVisibility: real, leftAnkleVisibility: real)
  {
    rightAnkleVisibility > 0.9 && leftAnkleVisibility > 0.9
  }

  /** `determine_view`: both ankles visible beyond 0.9 set the front-view flag,
      anything else the side-view flag. Neither is ever cleared and nothing
      else changes. */
  function ViewStep(f: SquatFlags, rightAnkleVisibility: real, leftAnkleVisibility: real): (f': SquatFlags)
    ensures f'.view.front == (f.view.front || BothAnklesVisible(rightAnkleVisibility, leftAnkleVisibility))
    ensures f'.view.side == (f.view.side || !BothAnklesVisible(rightAnkleVisibility, leftAnkleVisibility))
    ensures f'.(view := f.view) == f
  {
    if BothAnklesVisible(rightAnkleVisibility, leftAnkleVisibility) then f.(view := f.view.(front := true))
    else f.(view := f.view.(side := true))
  }

  predicate FeetTooFar(m: FormMeasurements)
  {
    m.feetDistance > 1.1 * m.shoulderDistance
  }

  predicate FeetTooClose(m: FormMeasurements)
  {
    m.feetDistance < 0.9 * m.shoulderDistance
  }

  /** The feet-stance section: wider than 1.1 shoulder widths sets the far
      flag, otherwise narrower than 0.9 sets the close flag; neither is ever
      cleared. */
  function FeetStep(f: FeetFlags, m: FormMeasurements): (f': FeetFlags)
    ensures f'.tooFar == (f.tooFar || FeetTooFar(m))
    ensures f'.tooClose == (f.tooClose || (!FeetTooFar(m) && FeetTooClose(m)))
  {
    if FeetTooFar(m) then f.(tooFar := true)
    else if FeetTooClose(m) then f.(tooClose := true)
    else f
  }

  /** The toe section for one foot: above 140 outward only, below 120 inward
      only, otherwise unchanged; a foot that was not both stays not both. */
  function ToeStep(t: ToeFlags, angle: real): (t': ToeFlags)
    ensures angle > 140.0 ==> t'.tooOutward && !t'.tooInward
    ensures angle < 120.0 ==> t'.tooInward && !t'.tooOutward
    ensures 120.0 <= angle <= 140.0 ==> t' == t
    ensures !(t.tooOutward && t.tooInward) ==> !(t'.tooOutward && t'.tooInward)
  {
    if angle > 140.0 then ToeFlags(true, false)
    else if angle < 120.0 then ToeFlags(false, true)
    else t
  }

  predicate Standing(m: FormMeasurements)
  {
    m.hipKneeHeelAngle > 120.0
  }

  predicate Squatting(m: FormMeasurements)
  {
    m.hipKneeHeelAngle < 120.0
  }

  /** The phase flags after the completion test and then the execution test:
      standing up from a squat in progress completes it, going below 120
      starts (or continues) one, and exactly 120 changes nothing. A squat is
      never both in progress and completed afterwards unless it was before. */
  function PhaseStep(p: PhaseFlags, m: FormMeasurements): (p': PhaseFlags)
    ensures Standing(m) ==> !p'.performing && p'.completed == (p.completed || p.performing)
    ensures Squatting(m) ==> p' == PhaseFlags(true, false)
    ensures !Standing(m) && !Squatting(m) ==> p' == p
    ensures !(p.performing && p.completed) ==> !(p'.performing && p'.completed)
  {
    var p1 := if Standing(m) && p.performing then PhaseFlags(false, true) else p;
    if Squatting(m) then PhaseFlags(true, false) else p1
  }

  /** The knee test of each side, on the `[x, y]` lists. */
  predicate LeftKneeInward(lm: Landmarks)
  {
    ListLess(lm.leftKnee, lm.leftAnkle)
  }

  predicate RightKneeInward(lm: Landmarks)
  {
    ListLess(lm.rightAnkle, lm.rightKnee)
  }

  predicate TorsoTooUpright(m: FormMeasurements)
  {
    m.torsoAngle - m.hipKneeHeelAngle > 5.0
  }

  predicate TorsoTooForward(m: FormMeasurements)
  {
    m.torsoAngle - m.hipKneeHeelAngle < -5.0
  }

  /** The torso section: a torso-shin difference above 5 is too upright only,
      below -5 too forward only, anything else neither. */
  function TorsoVerdict(m: FormMeasurements): (t: TorsoFlags)
    ensures t.tooUpright <==> m.torsoAngle - m.hipKneeHeelAngle > 5.0
    ensures t.tooForward <==> m.torsoAngle - m.hipKneeHeelAngle < -5.0
    ensures !(t.tooUpright && t.tooForward)
  {
    if TorsoTooUpright(m) then TorsoFlags(false, true)
    else if TorsoTooForward(m) then TorsoFlags(true, false)
    else TorsoFlags(false, false)
  }

  predicate HipAboveKnee(lm: Landmarks)
  {
    lm.leftHip.y < lm.leftKnee.y
  }

  /** The depth section. It compares the angle with a `deepest_squat_angle`
      reset to infinity on every call, so it always runs: a left hip above
      the left knee is too shallow only, otherwise an angle under 30 is too
      deep only, anything else neither. */
  function DepthVerdict(m: FormMeasurements, lm: Landmarks): (d: DepthFlags)
    ensures d.tooShallow <==> lm.leftHip.y < lm.leftKnee.y
    ensures d.tooDeep <==> lm.leftHip.y >= lm.leftKnee.y && m.hipKneeHeelAngle < 30.0
    ensures !(d.tooShallow && d.tooDeep)
  {
    if HipAboveKnee(lm) then DepthFlags(true, false)
    else if m.hipKneeHeelAngle < 30.0 then DepthFlags(false, true)
    else DepthFlags(false, false)
  }

  /** `analyse_form` on one frame: feet, toes, completion, execution, in
      the order of the source. The view flags never change, the feet flags
      are sticky, each foot's toe flags follow `ToeStep` and the phase flags
      `PhaseStep`; the knee, torso and depth flags are recomputed from this
      frame only while the hip-knee-heel angle is below 120 and are
      otherwise untouched. */
  function FormStep(f: SquatFlags, m: FormMeasurements, lm: Landmarks): (f': SquatFlags)
    ensures f'.view == f.view
    ensures f'.feet.tooFar == (f.feet.tooFar || FeetTooFar(m))
    ensures f'.feet.tooClose == (f.feet.tooClose || (!FeetTooFar(m) && FeetTooClose(m)))
    ensures f'.leftToes == ToeStep(f.leftToes, m.leftToesAngle)
    ensures f'.rightToes == ToeStep(f.rightToes, m.rightToesAngle)
    ensures f'.phase == PhaseStep(f.phase, m)
    ensures !Squatting(m) ==> f'.knees == f.knees && f'.torso == f.torso && f'.depth == f.depth
    ensures Squatting(m) ==>
      && f'.knees == KneeFlags(ListLess(lm.leftKnee, lm.leftAnkle), ListLess(lm.rightAnkle, lm.rightKnee))
      && f'.torso == TorsoVerdict(m)
      && f'.depth == DepthVerdict(m, lm)
  {
    var squatting := Squatting(m);
    SquatFlags(
      f.view,
      PhaseStep(f.phase, m),
      FeetStep(f.feet, m),
      ToeStep(f.leftToes, m.leftToesAngle),
      ToeStep(f.rightToes, m.rightToesAngle),
      if squatting then KneeFlags(LeftKneeInward(lm), RightKneeInward(lm)) else f.knees,
      if squatting then TorsoVerdict(m) else f.torso,
      if squatting then DepthVerdict(m, lm) else f.depth)
  }

  /** From valid flags no frame reaches a forbidden combination. */
  lemma FormStepPreservesValid(f: SquatFlags, m: FormMeasurements, lm: Landmarks)
    requires FlagsValid(f)
    ensures FlagsValid(FormStep(f, m, lm))
  {
  }

  /** One frame of `process_video`: the two ankle visibilities, the frame's
      landmarks and the measurements derived from them. */
  datatype Frame = Frame(rightAnkleVisibility: real, leftAnkleVisibility: real, landmarks: Landmarks, m: FormMeasurements)

  /** The flags after a sequence of frames, each handled by `determine_view`
      and then `analyse_form`. */
  function Run(f: SquatFlags, frames: seq<Frame>): SquatFlags
    decreases |frames|
  {
    if |frames| == 0 then f
    else
      var fr := frames[0];
      Run(FormStep(ViewStep(f, fr.rightAnkleVisibility, fr.leftAnkleVisibility), fr.m, fr.landmarks), frames[1..])
  }

  /** The frame loop of `process_video` processes frames one at a time:
      running two batches in turn is running their concatenation. */
  lemma {:induction false} RunAppend(f: SquatFlags, a: seq<Frame>, b: seq<Frame>)
    ensures Run(f, a + b) == Run(Run(f, a), b)
    decreases |a|
  {
    if |a| == 0 {
      assert a + b == b;
    } else {
      var fr := a[0];
      assert (a + b)[0] == fr;
      assert (a + b)[1..] == a[1..] + b;
      RunAppend(FormStep(ViewStep(f, fr.rightAnkleVisibility, fr.leftAnkleVisibility), fr.m, fr.landmarks), a[1..], b);
    }
  }

  /** No sequence of frames leads from valid flags to a forbidden
      combination. */
  lemma {:induction false} RunPreservesValid(f: SquatFlags, frames: seq<Frame>)
    requires FlagsValid(f)
    ensures FlagsValid(Run(f, frames))
    decreases |frames|
  {
    if |frames| > 0 {
      var fr := frames[0];
      var g := ViewStep(f, fr.rightAnkleVisibility, fr.leftAnkleVisibility);
      FormStepPreservesValid(g, fr.m, fr.landmarks);
      RunPreservesValid(FormStep(ViewStep(f, fr.rightAnkleVisibility, fr.leftAnkleVisibility), fr.m, fr.landmarks), frames[1..]);
    }
  }

  /** In particular from the class defaults: `performing_squat` and
      `completed_squat` are never both true, and neither is any exclusive
      pair of toe, torso or depth flags. */
  lemma InitialFlagsStayValid(frames: seq<Frame>)
    ensures FlagsValid(Run(InitialFlags, frames))
  {
    RunPreservesValid(InitialFlags, frames);
  }

  /** The view flags and the feet flags are sticky over any run. */
  lemma {:induction false} RunKeepsStickyFlags(f: SquatFlags, frames: seq<Frame>)
    ensures f.view.front ==> Run(f, frames).view.front
    ensures f.view.side ==> Run(f, frames).view.side
    ensures f.feet.tooFar ==> Run(f, frames).feet.tooFar
    ensures f.feet.tooClose ==> Run(f, frames).feet.tooClose
    decreases |frames|
  {
    if |frames| > 0 {
      var fr := frames[0];
      var g := ViewStep(f, fr.rightAnkleVisibility, fr.leftAnkleVisibility);
      RunKeepsStickyFlags(FormStep(g, fr.m, fr.landmarks), frames[1..]);
    }
  }

  /** The feet line of `print_results`: far wins over close. */
  function FeetMessage(f: FeetFlags): (msg: string)
    ensures msg == "Feet too far." <==> f.tooFar
    ensures msg == "Feet too close." <==> !f.tooFar && f.tooClose
    ensures msg == "Feet are adequate." <==> !f.tooFar && !f.tooClose
  {
    if f.tooFar then "Feet too far."
    else if f.tooClose then "Feet too close."
    else "Feet are adequate."
  }

  /** The toe line: any outward flag wins over every inward one; within each
      group both feet, the left foot alone and the right foot alone each get
      their own line, and the adequate line appears exactly when all four
      flags are clear. */
  function ToesMessage(left: ToeFlags, right: ToeFlags): (msg: string)
    ensures left.tooOutward || right.tooOutward <==>
      msg in ["Toes too outward.", "Left toes too outward.", "Right toes too outward."]
    ensures msg in ["Toes too inward.", "Left toes too inward.", "Right toes too inward."] <==>
      !left.tooOutward && !right.tooOutward && (left.tooInward || right.tooInward)
    ensures msg == "Toes are adequate." <==>
      !left.tooOutward && !right.tooOutward && !left.tooInward && !right.tooInward
    ensures msg == "Left toes too outward." <==> left.tooOutward && !right.tooOutward
    ensures msg == "Right toes too outward." <==> right.tooOutward && !left.tooOutward
    ensures msg == "Toes too outward." <==> left.tooOutward && right.tooOutward
    ensures msg == "Toes too inward." <==>
      !left.tooOutward && !right.tooOutward && left.tooInward && right.tooInward
    ensures msg == "Left toes too inward." <==>
      !left.tooOutward && !right.tooOutward && left.tooInward && !right.tooInward
    ensures msg == "Right toes too inward." <==>
      !left.tooOutward && !right.tooOutward && right.tooInward && !left.tooInward
  {
    if left.tooOutward && right.tooOutward then "Toes too outward."
    else if left.tooOutward && !right.tooOutward then "Left toes too outward."
    else if right.tooOutward && !left.tooOutward then "Right toes too outward."
    else if left.tooInward && right.tooInward then "Toes too inward."
    else if left.tooInward && !right.tooInward then "Left toes too inward."
    else if right.tooInward && !left.tooInward then "Right toes too inward."
    else "Toes are adequate."
  }

  /** The knee line: one message per combination of the two knee flags. */
  function KneesMessage(k: KneeFlags): (msg: string)
    ensures msg == "Knees are inward." <==> k.leftInward && k.rightInward
    ensures msg == "Left knee is inward." <==> k.leftInward && !k.rightInward
    ensures msg == "Right knee is inward." <==> !k.leftInward && k.rightInward
    ensures msg == "Knees are adequate." <==> !k.leftInward && !k.rightInward
  {
    if k.leftInward && k.rightInward then "Knees are inward."
    else if k.leftInward && !k.rightInward then "Left knee is inward."
    else if k.rightInward && !k.leftInward then "Right knee is inward."
    else "Knees are adequate."
  }

  /** The depth line: shallow wins over deep. */
  function DepthMessage(d: DepthFlags): (msg: string)
    ensures msg == "Squat is too shallow." <==> d.tooShallow
    ensures msg == "Squat is too deep." <==> !d.tooShallow && d.tooDeep
    ensures msg == "Squat depth is adequate." <==> !d.tooShallow && !d.tooDeep
  {
    if d.tooShallow then "Squat is too shallow."
    else if d.tooDeep then "Squat is too deep."
    else "Squat depth is adequate."
  }

  /** The torso line: upright wins over forward. */
  function TorsoMessage(t: TorsoFlags): (msg: string)
    ensures msg == "Torso is too upright." <==> t.tooUpright
    ensures msg == "Torso is leaning too far forward." <==> !t.tooUpright && t.tooForward
    ensures msg == "Torso is adequate." <==> !t.tooUpright && !t.tooForward
  {
    if t.tooUpright then "Torso is too upright."
    else if t.tooForward then "Torso is leaning too far forward."
    else "Torso is adequate."
  }

  /** `print_results`: exactly one line per criterion, in the order feet,
      toes, knees, depth, torso, each chosen from its own flags only. */
  function PrintResults(f: SquatFlags): (lines: seq<string>)
    ensures |lines| == 5
    ensures lines[0] == FeetMessage(f.feet)
    ensures lines[1] == ToesMessage(f.leftToes, f.rightToes)
    ensures lines[2] == KneesMessage(f.knees)
    ensures lines[3] == DepthMessage(f.depth)
    ensures lines[4] == TorsoMessage(f.torso)
  {
    [FeetMessage(f.feet), ToesMessage(f.leftToes, f.rightToes), KneesMessage(f.knees),
     DepthMessage(f.depth), TorsoMessage(f.torso)]
  }

  /** The defaults print the five adequate lines. */
  lemma DefaultSummary()
    ensures PrintResults(InitialFlags) ==
      ["Feet are adequate.", "Toes are adequate.", "Knees are adequate.",
       "Squat depth is adequate.", "Torso is adequate."]
  {
  }

  /** The analyser object. Its sixteen boolean fields are kept in groups of
      two, one group per criterion, with the landmark dictionary of the
      current frame. */
  class SquatAnalyser {
    var view: ViewFlags
    var phase: PhaseFlags
    var feet: FeetFlags
    var leftToes: ToeFlags
    var rightToes: ToeFlags
    var knees: KneeFlags
    var torso: TorsoFlags
    var depth: DepthFlags
    var landmarks: Landmarks

    function Flags(): SquatFlags
      reads this
    {
      SquatFlags(view, phase, feet, leftToes, rightToes, knees, torso, depth)
    }

    constructor (landmarks: Landmarks)
      ensures Flags() == InitialFlags
      ensures this.landmarks == landmarks
    {
      view, phase, feet := ViewFlags(false, false), PhaseFlags(false, false), FeetFlags(false, false);
      leftToes, rightToes := ToeFlags(false, false), ToeFlags(false, false);
      knees, torso, depth := KneeFlags(false, false), TorsoFlags(false, false), DepthFlags(false, false);
      this.landmarks := landmarks;
    }

    method DetermineView(rightAnkleVisibility: real, leftAnkleVisibility: real)
      modifies this`view
      ensures Flags() == ViewStep(old(Flags()), rightAnkleVisibility, leftAnkleVisibility)
    {
      if rightAnkleVisibility > 0.9 && leftAnkleVisibility > 0.9 {
        view := view.(front := true);
      } else {
        view := view.(side := true);
      }
    }

    /** `analyse_form` on one frame. Each section of the source is a method
        of its own below, touching only its own flags. */
    method AnalyseForm(m: FormMeasurements)
      modifies this`phase, this`feet, this`leftToes, this`rightToes, this`knees, this`torso, this`depth
      ensures Flags() == FormStep(old(Flags()), m, landmarks)
      ensures FlagsValid(old(Flags())) ==> FlagsValid(Flags())
    {
      ghost var f0 := Flags();
      AnalyseFeetStance(m);
      AnalyseToes(m);
      AnalyseCompletion(m);
      if m.hipKneeHeelAngle < 120.0 {
        phase := PhaseFlags(true, false);
        AnalyseKnees();
        AnalyseTorso(m);
        AnalyseDepth(m);
      }
      if FlagsValid(f0) {
        FormStepPreservesValid(f0, m, landmarks);
      }
    }

    /** One frame of `process_video` with landmarks: `determine_view`,
        `extract_landmarks`, then `analyse_form`, which is one step of
        `Run`. */
    method ProcessFrame(fr: Frame)
      modifies this
      ensures landmarks == fr.landmarks
      ensures Flags() == Run(old(Flags()), [fr])
    {
      DetermineView(fr.rightAnkleVisibility, fr.leftAnkleVisibility);
      landmarks := fr.landmarks;
      AnalyseForm(fr.m);
    }

    method AnalyseFeetStance(m: FormMeasurements)
      modifies this`feet
      ensures feet == FeetStep(old(feet), m)
    {
      if m.feetDistance > 1.1 * m.shoulderDistance {
        feet := feet.(tooFar := true);
      } else if m.feetDistance < 0.9 * m.shoulderDistance {
        feet := feet.(tooClose := true);
      }
    }

    method AnalyseToes(m: FormMeasurements)
      modifies this`leftToes, this`rightToes
      ensures leftToes == ToeStep(old(leftToes), m.leftToesAngle)
      ensures rightToes == ToeStep(old(rightToes), m.rightToesAngle)
    {
      if m.leftToesAngle > 140.0 {
        leftToes := leftToes.(tooOutward := true);
        leftToes := leftToes.(tooInward := false);
      } else if m.leftToesAngle < 120.0 {
        leftToes := leftToes.(tooInward := true);
        leftToes := leftToes.(tooOutward := false);
      }
      if m.rightToesAngle > 140.0 {
        rightToes := rightToes.(tooOutward := true);
        rightToes := rightToes.(tooInward := false);
      } else if m.rightToesAngle < 120.0 {
        rightToes := rightToes.(tooInward := true);
        rightToes := rightToes.(tooOutward := false);
      }
    }

    /** The completion test: standing up from a squat in progress. */
    method AnalyseCompletion(m: FormMeasurements)
      modifies this`phase
      ensures phase == (if Standing(m) && old(phase).performing then PhaseFlags(false, true) else old(phase))
    {
      if m.hipKneeHeelAngle > 120.0 {
        if phase.performing {
          phase := phase.(performing := false);
          phase := phase.(completed := true);
        }
      }
    }

    method AnalyseKnees()
      modifies this`knees
      ensures knees == KneeFlags(LeftKneeInward(landmarks), RightKneeInward(landmarks))
    {
      if ListLess(landmarks.leftKnee, landmarks.leftAnkle) {
        knees := knees.(leftInward := true);
      } else {
        knees := knees.(leftInward := false);
      }
      if ListLess(landmarks.rightAnkle, landmarks.rightKnee) {
        knees := knees.(rightInward := true);
      } else {
        knees := knees.(rightInward := false);
      }
    }

    method AnalyseTorso(m: FormMeasurements)
      modifies this`torso
      ensures torso == TorsoVerdict(m)
    {
      var diff := m.torsoAngle - m.hipKneeHeelAngle;
      if diff > 5.0 {
        torso := torso.(tooUpright := true);
        torso := torso.(tooForward := false);
      } else if diff < -5.0 {
        torso := torso.(tooForward := true);
        torso := torso.(tooUpright := false);
      } else {
        torso := torso.(tooUpright := false);
        torso := torso.(tooForward := false);
      }
    }

    /** The depth section, against a deepest angle that starts at infinity on
        every call. */
    method AnalyseDepth(m: FormMeasurements)
      modifies this`depth
      ensures depth == DepthVerdict(m, landmarks)
    {
      var deepest := PosInf;
      if Less(Finite(m.hipKneeHeelAngle), deepest) {
        deepest := Finite(m.hipKneeHeelAngle);
        if landmarks.leftHip.y < landmarks.leftKnee.y {
          depth := depth.(tooShallow := true);
          depth := depth.(tooDeep := false);
        } else if Less(deepest, Finite(30.0)) {
          depth := depth.(tooDeep := true);
          depth := depth.(tooShallow := false);
        } else {
          depth := depth.(tooDeep := false);
          depth := depth.(tooShallow := false);
        }
      }
    }
  }
}
