/**
 * The dictionary-based squat analyser of squat.py (class `Squat`): per frame
 * it folds the joint angles and coordinates into running extremes, decides
 * the phase, and, while squatting, classifies each criterion by thresholds
 * and records the verdict in the `results` dictionary.
 *
 * Angles and distances are inputs: each angle is the value `calculate_angle`
 * gives for its three landmarks, each distance the value `np.sqrt` gives.
 * The landmark dictionary is the field `landmarks`, written by the caller.
 * Drawing is left out. `analyse_bar_path`, which the base class does not
 * define, is the boolean parameter of `AnalyseSideView`.
 */
module SquatEvaluation {
  import opened Basics
  import opened Criteria

  datatype SquatPhase = Standing | Squatting

  /** `self.angles` once `calculate_angles` has run: all five keys are
      written together, so the dictionary is either empty or holds all. */
  datatype SquatAngles = SquatAngles(
    hipKneeHeel: real, shoulderHipKnee: real,
    leftToesAnkles: real, rightToesAnkles: real,
    smallestHipKneeHeel: real)

  /** `self.coordinates` once `calculate_coordinates` has run. */
  datatype SquatCoordinates = SquatCoordinates(largestLeftHipY: real, largestLeftKneeY: real)

  /** `self.distances` as `calculate_distances` writes it. */
  datatype SquatDistances = SquatDistances(shoulderKnee: real, feet: real, shoulder: real)

  /** `self.results`: one field per key the dictionary can hold; `None` is an
      absent key. */
  datatype SquatResultsDict = SquatResultsDict(
    torso: Option<TorsoEntry>, depth: Option<DepthEntry>,
    feet: Option<FeetEntry>, rightToes: Option<ToesEntry>, leftToes: Option<ToesEntry>,
    rightKnee: Option<KneeEntry>, leftKnee: Option<KneeEntry>,
    barbell: Option<BarbellEntry>)

  const EmptyResults := SquatResultsDict(None, None, None, None, None, None, None, None)

  /** The value of `weight["type"]` that adds a barbell entry. */
  const Barbell := "barbell"

  predicate IsSideView(view: View)
  {
    view.Left? || view.Right?
  }

  /** The results after a side-view initialisation: exactly the side keys. */
  predicate SideShaped(r: SquatResultsDict, weightType: string)
  {
    && r.torso.Some? && r.depth.Some?
    && r.feet.None? && r.rightToes.None? && r.leftToes.None? && r.rightKnee.None? && r.leftKnee.None?
    && (r.barbell.Some? <==> weightType == Barbell)
    && (r.barbell.Some? ==> r.barbell.value.Straightness?)
  }

  /** The results after a front-view initialisation: exactly the front keys. */
  predicate FrontShaped(r: SquatResultsDict, weightType: string)
  {
    && r.torso.None? && r.depth.None?
    && r.feet.Some? && r.rightToes.Some? && r.leftToes.Some? && r.rightKnee.Some? && r.leftKnee.Some?
    && (r.barbell.Some? <==> weightType == Barbell)
    && (r.barbell.Some? ==> r.barbell.value.Balance?)
  }

  predicate WellShaped(r: SquatResultsDict, weightType: string)
  {
    r == EmptyResults || SideShaped(r, weightType) || FrontShaped(r, weightType)
  }

  /** `initialise_results`. A side view creates the torso counters and depth
      flags unless "torso" is present, replacing the whole dictionary; a front
      view does the same with the feet, toe and knee records unless "feet" is
      present. A barbell record is added only for a barbell and only when the
      key is absent. */
  function InitialisedResults(r: SquatResultsDict, view: View, weightType: string): (r': SquatResultsDict)
    ensures IsSideView(view) && r.torso.None? ==>
      && r'.torso == Some(NewTorso) && r'.depth == Some(NewDepth)
      && r'.feet.None? && r'.rightToes.None? && r'.leftToes.None? && r'.rightKnee.None? && r'.leftKnee.None?
      && r'.barbell == (if weightType == Barbell then Some(Straightness(true)) else None)
    ensures IsSideView(view) && r.torso.Some? ==>
      && r'.(barbell := r.barbell) == r
      && r'.barbell == (if weightType == Barbell && r.barbell.None? then Some(Straightness(true)) else r.barbell)
    ensures view.Front? && r.feet.None? ==>
      && r'.torso.None? && r'.depth.None?
      && r'.feet == Some(NewFeet) && r'.rightToes == Some(NewToes) && r'.leftToes == Some(NewToes)
      && r'.rightKnee == Some(NewKnee) && r'.leftKnee == Some(NewKnee)
      && r'.barbell == (if weightType == Barbell then Some(Balance(false, false, false)) else None)
    ensures view.Front? && r.feet.Some? ==>
      && r'.(barbell := r.barbell) == r
      && r'.barbell == (if weightType == Barbell && r.barbell.None? then Some(Balance(false, false, false)) else r.barbell)
    ensures view.OtherView? ==> r' == r
    ensures r'.barbell.Some? && r'.barbell != r.barbell ==> weightType == Barbell
    ensures WellShaped(r, weightType) ==> WellShaped(r', weightType)
  {
    var side :=
      if IsSideView(view) then
        var r1 := if r.torso.None? then EmptyResults.(torso := Some(NewTorso), depth := Some(NewDepth)) else r;
        if weightType == Barbell && r1.barbell.None? then r1.(barbell := Some(Straightness(true))) else r1
      else r;
    if view.Front? then
      var r2 :=
        if side.feet.None? then
          EmptyResults.(feet := Some(NewFeet), rightToes := Some(NewToes), leftToes := Some(NewToes),
                        rightKnee := Some(NewKnee), leftKnee := Some(NewKnee))
        else side;
      if weightType == Barbell && r2.barbell.None? then r2.(barbell := Some(Balance(false, false, false))) else r2
    else side
  }

  /** Repeating the initialisation with the same view changes nothing. */
  lemma InitialiseIdempotent(r: SquatResultsDict, view: View, weightType: string)
    ensures InitialisedResults(InitialisedResults(r, view, weightType), view, weightType)
         == InitialisedResults(r, view, weightType)
  {
  }

  /** `determine_phase`. In the left view the hip-knee-heel angle decides
      (exactly 120 gives no phase); in the front view the vertical
      shoulder-knee distance decides; the right view never gives a phase. */
  function DeterminePhase(view: View, angles: Option<SquatAngles>, distances: Option<SquatDistances>): (p: Option<SquatPhase>)
    requires view.Left? ==> angles.Some?
    requires view.Front? ==> distances.Some?
    ensures view.Left? ==>
      && (p == Some(Standing) <==> angles.value.hipKneeHeel > 120.0)
      && (p == Some(Squatting) <==> angles.value.hipKneeHeel < 120.0)
      && (p == None <==> angles.value.hipKneeHeel == 120.0)
    ensures view.Front? ==>
      && (p == Some(Standing) <==> distances.value.shoulderKnee >= 0.4)
      && (p == Some(Squatting) <==> distances.value.shoulderKnee < 0.4)
    ensures !view.Left? && !view.Front? ==> p == None
  {
    if view.Left? then
      if angles.value.hipKneeHeel > 120.0 then Some(Standing)
      else if angles.value.hipKneeHeel < 120.0 then Some(Squatting)
      else None
    else if view.Front? then
      if distances.value.shoulderKnee >= 0.4 then Some(Standing)
      else if distances.value.shoulderKnee < 0.4 then Some(Squatting)
      else None
    else None
  }

  /** `analyse_torso_position`: the torso-shin difference picks one label,
      whose counter alone grows by one. Differences of exactly 10 and -10
      are adequate. */
  function RecordTorso(e: TorsoEntry, shoulderHipKnee: real, hipKneeHeel: real): (r: TorsoEntry)
    ensures r.upright + r.adequate + r.forward == e.upright + e.adequate + e.forward + 1
    ensures r.upright >= e.upright && r.adequate >= e.adequate && r.forward >= e.forward
    ensures r.current == Upright <==> r.upright == e.upright + 1
    ensures r.current == Adequate <==> r.adequate == e.adequate + 1
    ensures r.current == Forward <==> r.forward == e.forward + 1
    ensures r.current == Upright <==> shoulderHipKnee - hipKneeHeel > 10.0
    ensures r.current == Forward <==> shoulderHipKnee - hipKneeHeel < -10.0
    ensures r.current == Adequate <==> -10.0 <= shoulderHipKnee - hipKneeHeel <= 10.0
  {
    var diff := shoulderHipKnee - hipKneeHeel;
    if diff > 10.0 then e.(upright := e.upright + 1, current := Upright)
    else if diff < -10.0 then e.(forward := e.forward + 1, current := Forward)
    else e.(adequate := e.adequate + 1, current := Adequate)
  }

  /** `analyse_squat_depth`: a largest hip y below the largest knee y is
      shallow, else a smallest angle under 30 is deep, else adequate. The
      flags are compared with `==` instead of assigned, so only `current`
      changes. */
  function RecordDepth(e: DepthEntry, c: SquatCoordinates, smallestHipKneeHeel: real): (r: DepthEntry)
    ensures r.shallow == e.shallow && r.adequate == e.adequate && r.deep == e.deep
    ensures r.current == Shallow <==> c.largestLeftHipY < c.largestLeftKneeY
    ensures r.current == Deep <==> c.largestLeftHipY >= c.largestLeftKneeY && smallestHipKneeHeel < 30.0
    ensures r.current == Adequate <==> c.largestLeftHipY >= c.largestLeftKneeY && smallestHipKneeHeel >= 30.0
  {
    if c.largestLeftHipY < c.largestLeftKneeY then e.(current := Shallow)
    else if smallestHipKneeHeel < 30.0 then e.(current := Deep)
    else e.(current := Adequate)
  }

  /** `analyse_feet_stance` of the squat. The "close" test is written as
      `feet > 0.8 * shoulder`, so every stance up to 1.2 shoulder widths
      that is wider than 0.8 is "close" and narrower stances are adequate.
      The matching flag is set and no flag is ever cleared. */
  function RecordSquatFeet(e: FeetEntry, feet: real, shoulder: real): (r: FeetEntry)
    ensures r.current == Far <==> feet > 1.2 * shoulder
    ensures r.current == Close <==> 0.8 * shoulder < feet <= 1.2 * shoulder
    ensures r.current == Adequate <==> feet <= 0.8 * shoulder && feet <= 1.2 * shoulder
    ensures r.far == (e.far || r.current == Far)
    ensures r.close == (e.close || r.current == Close)
    ensures r.adequate == (e.adequate || r.current == Adequate)
  {
    if feet > 1.2 * shoulder then e.(far := true, current := Far)
    else if feet > 0.8 * shoulder then e.(close := true, current := Close)
    else e.(adequate := true, current := Adequate)
  }

  /** `analyse_knees`, left knee: inward when the knee lies left of the
      ankle. Flags are only ever set. */
  function RecordLeftKnee(e: KneeEntry, knee: Point, ankle: Point): (r: KneeEntry)
    ensures r.current == Inward <==> knee.x < ankle.x
    ensures r.current == Adequate <==> knee.x >= ankle.x
    ensures r.inward == (e.inward || r.current == Inward)
    ensures r.adequate == (e.adequate || r.current == Adequate)
  {
    if knee.x < ankle.x then e.(inward := true, current := Inward)
    else e.(adequate := true, current := Adequate)
  }

  /** `analyse_knees`, right knee: inward when the knee lies right of the
      ankle. */
  function RecordRightKnee(e: KneeEntry, knee: Point, ankle: Point): (r: KneeEntry)
    ensures r.current == Inward <==> knee.x > ankle.x
    ensures r.current == Adequate <==> knee.x <= ankle.x
    ensures r.inward == (e.inward || r.current == Inward)
    ensures r.adequate == (e.adequate || r.current == Adequate)
  {
    if knee.x > ankle.x then e.(inward := true, current := Inward)
    else e.(adequate := true, current := Adequate)
  }

  /** One squat analysis session. */
  class Squat {
    var view: View
    const weightType: string
    var landmarks: Landmarks
    var angles: Option<SquatAngles>
    var coordinates: Option<SquatCoordinates>
    var distances: Option<SquatDistances>
    var results: SquatResultsDict

    /** Every hip-knee-heel angle and every left hip and knee y folded in so far. */
    ghost var hipKneeHeelSeen: seq<real>
    ghost var leftHipYSeen: seq<real>
    ghost var leftKneeYSeen: seq<real>

    /** The running extremes are the folds of what was observed, and the
        results dictionary has one of the shapes the initialisation makes. */
    ghost predicate Valid()
      reads this
    {
      && (angles.Some? <==> |hipKneeHeelSeen| > 0)
      && (angles.Some? ==>
            && angles.value.hipKneeHeel == hipKneeHeelSeen[|hipKneeHeelSeen| - 1]
            && angles.value.smallestHipKneeHeel == SeqMin(hipKneeHeelSeen))
      && |leftHipYSeen| == |leftKneeYSeen|
      && (coordinates.Some? <==> |leftHipYSeen| > 0)
      && (coordinates.Some? ==>
            && coordinates.value.largestLeftHipY == SeqMax(leftHipYSeen)
            && coordinates.value.largestLeftKneeY == SeqMax(leftKneeYSeen))
      && WellShaped(results, weightType)
    }

    /** A session. The source never sets `view`, `angles` or `results` on a
        new object; the model takes the view as a parameter and starts the
        angle, coordinate and distance dictionaries absent and the results
        dictionary empty. */
    constructor (weightType: string, view: View, landmarks: Landmarks)
      ensures Valid()
      ensures this.weightType == weightType && this.view == view && this.landmarks == landmarks
      ensures angles.None? && coordinates.None? && distances.None? && results == EmptyResults
    {
      this.weightType := weightType;
      this.view := view;
      this.landmarks := landmarks;
      angles, coordinates, distances := None, None, None;
      results := EmptyResults;
      hipKneeHeelSeen, leftHipYSeen, leftKneeYSeen := [], [], [];
    }

    method InitialiseResults()
      requires Valid()
      modifies this`results
      ensures Valid()
      ensures results == InitialisedResults(old(results), view, weightType)
    {
      if view.Left? || view.Right? {
        if results.torso.None? {
          results := EmptyResults.(torso := Some(NewTorso), depth := Some(NewDepth));
        }
        if weightType == Barbell && results.barbell.None? {
          results := results.(barbell := Some(Straightness(true)));
        }
      }
      if view.Front? {
        if results.feet.None? {
          results := EmptyResults.(feet := Some(NewFeet), rightToes := Some(NewToes), leftToes := Some(NewToes),
                                   rightKnee := Some(NewKnee), leftKnee := Some(NewKnee));
        }
        if weightType == Barbell && results.barbell.None? {
          results := results.(barbell := Some(Balance(false, false, false)));
        }
      }
    }

    /** `calculate_angles`: stores the four angles of the frame and keeps
        `smallest_hip_knee_heel_angle` as a running minimum, which never
        increases and is at most every angle observed. */
    method CalculateAngles(hipKneeHeel: real, shoulderHipKnee: real, leftToesAnkles: real, rightToesAnkles: real)
      requires Valid()
      modifies this`angles, this`hipKneeHeelSeen
      ensures Valid()
      ensures hipKneeHeelSeen == old(hipKneeHeelSeen) + [hipKneeHeel]
      ensures angles.Some?
      ensures angles.value.hipKneeHeel == hipKneeHeel && angles.value.shoulderHipKnee == shoulderHipKnee
      ensures angles.value.leftToesAnkles == leftToesAnkles && angles.value.rightToesAnkles == rightToesAnkles
      ensures angles.value.smallestHipKneeHeel == SeqMin(hipKneeHeelSeen)
      ensures old(angles).Some? ==> angles.value.smallestHipKneeHeel <= old(angles).value.smallestHipKneeHeel
      ensures forall i :: 0 <= i < |hipKneeHeelSeen| ==> angles.value.smallestHipKneeHeel <= hipKneeHeelSeen[i]
    {
      var smallest := hipKneeHeel;
      if angles.Some? {
        smallest := Min(angles.value.smallestHipKneeHeel, hipKneeHeel);
        SeqMinSnoc(hipKneeHeelSeen, hipKneeHeel);
      }
      angles := Some(SquatAngles(hipKneeHeel, shoulderHipKnee, leftToesAnkles, rightToesAnkles, smallest));
      hipKneeHeelSeen := hipKneeHeelSeen + [hipKneeHeel];
    }

    /** `calculate_distances`; the two Euclidean distances are inputs. */
    method CalculateDistances(feetDistance: real, shoulderDistance: real)
      requires Valid()
      modifies this`distances
      ensures Valid()
      ensures distances == Some(SquatDistances(
        Abs(landmarks.leftShoulder.y - landmarks.leftKnee.y), feetDistance, shoulderDistance))
    {
      distances := Some(SquatDistances(
        Abs(landmarks.leftShoulder.y - landmarks.leftKnee.y), feetDistance, shoulderDistance));
    }

    /** `calculate_coordinates`: the largest left hip y and the largest left
        knee y seen so far, running maxima that never decrease. */
    method CalculateCoordinates()
      requires Valid()
      modifies this`coordinates, this`leftHipYSeen, this`leftKneeYSeen
      ensures Valid()
      ensures leftHipYSeen == old(leftHipYSeen) + [landmarks.leftHip.y]
      ensures leftKneeYSeen == old(leftKneeYSeen) + [landmarks.leftKnee.y]
      ensures coordinates.Some?
      ensures coordinates.value.largestLeftHipY == SeqMax(leftHipYSeen)
      ensures coordinates.value.largestLeftKneeY == SeqMax(leftKneeYSeen)
      ensures old(coordinates).Some? ==>
        && coordinates.value.largestLeftHipY >= old(coordinates).value.largestLeftHipY
        && coordinates.value.largestLeftKneeY >= old(coordinates).value.largestLeftKneeY
      ensures forall i :: 0 <= i < |leftHipYSeen| ==> coordinates.value.largestLeftHipY >= leftHipYSeen[i]
      ensures forall i :: 0 <= i < |leftKneeYSeen| ==> coordinates.value.largestLeftKneeY >= leftKneeYSeen[i]
    {
      var hipY := landmarks.leftHip.y;
      var kneeY := landmarks.leftKnee.y;
      var largestHip := hipY;
      var largestKnee := kneeY;
      if coordinates.Some? {
        largestHip := Max(coordinates.value.largestLeftHipY, hipY);
        largestKnee := Max(coordinates.value.largestLeftKneeY, kneeY);
        SeqMaxSnoc(leftHipYSeen, hipY);
        SeqMaxSnoc(leftKneeYSeen, kneeY);
      }
      coordinates := Some(SquatCoordinates(largestHip, largestKnee));
      leftHipYSeen := leftHipYSeen + [hipY];
      leftKneeYSeen := leftKneeYSeen + [kneeY];
    }

    /** `analyse_side_view`: torso, depth and, for a barbell, the bar path are
        recorded only while squatting; otherwise nothing changes. */
    method AnalyseSideView(barPathStraight: bool)
      requires Valid()
      requires view.Left? ==> angles.Some?
      requires view.Front? ==> distances.Some?
      requires DeterminePhase(view, angles, distances) == Some(Squatting) ==>
        angles.Some? && coordinates.Some? && results.torso.Some? && results.depth.Some?
      modifies this`results
      ensures Valid()
      ensures DeterminePhase(view, angles, distances) != Some(Squatting) ==> results == old(results)
      ensures DeterminePhase(view, angles, distances) == Some(Squatting) ==>
        results == old(results).(
          torso := Some(RecordTorso(old(results).torso.value, angles.value.shoulderHipKnee, angles.value.hipKneeHeel)),
          depth := Some(RecordDepth(old(results).depth.value, coordinates.value, angles.value.smallestHipKneeHeel)),
          barbell := if weightType == Barbell then Some(Straightness(barPathStraight)) else old(results).barbell)
    {
      if DeterminePhase(view, angles, distances) == Some(Squatting) {
        var torso := RecordTorso(results.torso.value, angles.value.shoulderHipKnee, angles.value.hipKneeHeel);
        results := results.(torso := Some(torso));
        var depth := RecordDepth(results.depth.value, coordinates.value, angles.value.smallestHipKneeHeel);
        results := results.(depth := Some(depth));
        if weightType == Barbell {
          results := results.(barbell := Some(Straightness(barPathStraight)));
        }
      }
    }

    /** `analyse_front_view`: feet, toes and knees are recorded only while
        squatting. Its barbell block tests `self.weight == "barbell"`, a
        dictionary against a string, which is never true: the barbell record
        is never touched. */
    method AnalyseFrontView()
      requires Valid()
      requires view.Left? ==> angles.Some?
      requires view.Front? ==> distances.Some?
      requires DeterminePhase(view, angles, distances) == Some(Squatting) ==>
        && angles.Some? && distances.Some?
        && results.feet.Some? && results.leftToes.Some? && results.rightToes.Some?
        && results.leftKnee.Some? && results.rightKnee.Some?
      modifies this`results
      ensures Valid()
      ensures results.barbell == old(results).barbell
      ensures DeterminePhase(view, angles, distances) != Some(Squatting) ==> results == old(results)
      ensures DeterminePhase(view, angles, distances) == Some(Squatting) ==>
        results == old(results).(
          feet := Some(RecordSquatFeet(old(results).feet.value, distances.value.feet, distances.value.shoulder)),
          leftToes := Some(RecordToes(old(results).leftToes.value, angles.value.leftToesAnkles)),
          rightToes := Some(RecordToes(old(results).rightToes.value, angles.value.rightToesAnkles)),
          leftKnee := Some(RecordLeftKnee(old(results).leftKnee.value, landmarks.leftKnee, landmarks.leftAnkle)),
          rightKnee := Some(RecordRightKnee(old(results).rightKnee.value, landmarks.rightKnee, landmarks.rightAnkle)))
    {
      if DeterminePhase(view, angles, distances) == Some(Squatting) {
        results := results.(feet := Some(RecordSquatFeet(results.feet.value, distances.value.feet, distances.value.shoulder)));
        results := results.(leftToes := Some(RecordToes(results.leftToes.value, angles.value.leftToesAnkles)));
        results := results.(rightToes := Some(RecordToes(results.rightToes.value, angles.value.rightToesAnkles)));
        results := results.(leftKnee := Some(RecordLeftKnee(results.leftKnee.value, landmarks.leftKnee, landmarks.leftAnkle)));
        results := results.(rightKnee := Some(RecordRightKnee(results.rightKnee.value, landmarks.rightKnee, landmarks.rightAnkle)));
      }
    }
  }
}
