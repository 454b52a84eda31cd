/**
 * The dictionary-based deadlift analyser of deadlift.py (class `Deadlift`):
 * per frame it keeps the largest shoulder-hip-knee angle, decides the phase,
 * and records hip, back, feet and toe verdicts in the `results` dictionary.
 *
 * Angles and distances are inputs, as in the squat analyser; drawing is left
 * out.
 */
module DeadliftEvaluation {
  import opened Basics
  import opened Criteria

  datatype DeadliftPhase = Standing | Deadlifting

  /** `self.angles` once `calculate_angles` has run. */
  datatype DeadliftAngles = DeadliftAngles(
    shoulderHipKnee: real, leftToesAnkles: real, rightToesAnkles: real,
    largestShoulderHipKnee: real)

  /** `self.distances`: the two Euclidean distances, as inputs. */
  datatype DeadliftDistances = DeadliftDistances(feet: real, shoulder: real)

  /** `self.results`: one field per key; `None` is an absent key. */
  datatype DeadliftResultsDict = DeadliftResultsDict(
    hips: Option<HipsEntry>, back: Option<BackEntry>, barbell: Option<BarbellEntry>,
    feet: Option<FeetEntry>, rightToes: Option<ToesEntry>, leftToes: Option<ToesEntry>)

  const EmptyResults := DeadliftResultsDict(None, None, None, None, None, None)

  /** The value of `weight["type"]` that adds a barbell entry. */
  const Barbell := "barbell"

  predicate IsSideView(view: View)
  {
    view.Left? || view.Right?
  }

  predicate SideShaped(r: DeadliftResultsDict, weightType: string)
  {
    && r.hips.Some? && r.back.Some?
    && r.feet.None? && r.rightToes.None? && r.leftToes.None?
    && (r.barbell.Some? <==> weightType == Barbell)
    && (r.barbell.Some? ==> r.barbell.value.Straightness?)
  }

  predicate FrontShaped(r: DeadliftResultsDict)
  {
    && r.hips.None? && r.back.None? && r.barbell.None?
    && r.feet.Some? && r.rightToes.Some? && r.leftToes.Some?
  }

  predicate WellShaped(r: DeadliftResultsDict, weightType: string)
  {
    r == EmptyResults || SideShaped(r, weightType) || FrontShaped(r)
  }

  /** `initialise_results`. A side view creates the hip counters and back
      flags unless "back" is present, replacing the whole dictionary, and adds
      a barbell record for a barbell; a front view creates the feet and toe
      records unless "feet" is present, and never a barbell record. */
  function InitialisedResults(r: DeadliftResultsDict, view: View, weightType: string): (r': DeadliftResultsDict)
    ensures IsSideView(view) && r.back.None? ==>
      && r'.hips == Some(NewHips) && r'.back == Some(NewBack)
      && r'.feet.None? && r'.rightToes.None? && r'.leftToes.None?
      && r'.barbell == (if weightType == Barbell then Some(Straightness(true)) else None)
    ensures IsSideView(view) && r.back.Some? ==>
      && r'.(barbell := r.barbell) == r
      && r'.barbell == (if weightType == Barbell && r.barbell.None? then Some(Straightness(true)) else r.barbell)
    ensures view.Front? && r.feet.None? ==>
      r' == EmptyResults.(feet := Some(NewFeet), rightToes := Some(NewToes), leftToes := Some(NewToes))
    ensures view.Front? && r.feet.Some? ==> r' == r
    ensures view.OtherView? ==> r' == r
    ensures view.Front? ==> r'.barbell.None? || r'.barbell == r.barbell
    ensures WellShaped(r, weightType) ==> WellShaped(r', weightType)
  {
    if IsSideView(view) then
      var r1 := if r.back.None? then EmptyResults.(hips := Some(NewHips), back := Some(NewBack)) else r;
      if weightType == Barbell && r1.barbell.None? then r1.(barbell := Some(Straightness(true))) else r1
    else if view.Front? then
      if r.feet.None? then
        EmptyResults.(feet := Some(NewFeet), rightToes := Some(NewToes), leftToes := Some(NewToes))
      else r
    else r
  }

  /** Repeating the initialisation with the same view changes nothing. */
  lemma InitialiseIdempotent(r: DeadliftResultsDict, view: View, weightType: string)
    ensures InitialisedResults(InitialisedResults(r, view, weightType), view, weightType)
         == InitialisedResults(r, view, weightType)
  {
  }

  /** `determine_phase`: in a side view the test is total (150 is standing);
      the front view and any other view give no phase. */
  function DeterminePhase(view: View, angles: Option<DeadliftAngles>): (p: Option<DeadliftPhase>)
    requires IsSideView(view) ==> angles.Some?
    ensures IsSideView(view) ==>
      && (p == Some(Standing) <==> angles.value.shoulderHipKnee >= 150.0)
      && (p == Some(Deadlifting) <==> angles.value.shoulderHipKnee < 150.0)
    ensures !IsSideView(view) ==> p == None
  {
    if IsSideView(view) then
      if angles.value.shoulderHipKnee >= 150.0 then Some(Standing)
      else if angles.value.shoulderHipKnee < 150.0 then Some(Deadlifting)
      else None
    else None
  }

  /** The hip test of `analyse_hip`: either hip above its shoulder (a smaller
      y is higher in the image). */
  predicate HipsAboveShoulders(lm: Landmarks)
  {
    lm.leftHip.y < lm.leftShoulder.y || lm.rightHip.y < lm.rightShoulder.y
  }

  /** `analyse_hip`: high hips store `True`, the integer 1, into the `high`
      counter and label the frame; otherwise nothing changes. The adequate
      counter is never touched. */
  function RecordHips(e: HipsEntry, lm: Landmarks): (r: HipsEntry)
    ensures r.adequate == e.adequate
    ensures HipsAboveShoulders(lm) ==> r.high == 1 && r.current == High
    ensures !HipsAboveShoulders(lm) ==> r == e
  {
    if HipsAboveShoulders(lm) then e.(high := 1, current := High) else e
  }

  /** `analyse_back`. An overextended back returns at once and nothing
      changes; so does any phase but standing. While standing an angle of at
      least 175 sets the overextended flag, and then, because the next test is
      a separate `if` rather than an `elif`, a largest angle under 165 writes
      "overflexed" and any other writes "adequate", overwriting the label. */
  function AnalyseBack(e: BackEntry, view: View, angles: Option<DeadliftAngles>): (r: BackEntry)
    requires !e.overextended && IsSideView(view) ==> angles.Some?
    ensures e.overextended ==> r == e
    ensures !e.overextended && DeterminePhase(view, angles) != Some(Standing) ==> r == e
    ensures !e.overextended && DeterminePhase(view, angles) == Some(Standing) ==>
      && r.overextended == (angles.value.shoulderHipKnee >= 175.0)
      && (angles.value.largestShoulderHipKnee < 165.0 ==>
            r.overflexed && r.current == Overflexed && r.adequate == e.adequate)
      && (angles.value.largestShoulderHipKnee >= 165.0 ==>
            r.adequate && r.current == Adequate && r.overflexed == e.overflexed)
    ensures r != e ==> r.current != Overextended
  {
    if e.overextended then e
    else if DeterminePhase(view, angles) == Some(Standing) then
      var a := angles.value;
      var e1 := if a.shoulderHipKnee >= 175.0 then e.(overextended := true, current := Overextended) else e;
      if a.largestShoulderHipKnee < 165.0 then e1.(overflexed := true, current := Overflexed)
      else e1.(adequate := true, current := Adequate)
    else e
  }

  /** When the largest angle is at least the current one, which the running
      maximum guarantees, the frame that sets the overextended flag ends
      labelled "adequate". */
  lemma OverextendingFrameEndsAdequate(e: BackEntry, view: View, angles: Option<DeadliftAngles>)
    requires !e.overextended && IsSideView(view) && angles.Some?
    requires angles.value.shoulderHipKnee >= 175.0
    requires angles.value.largestShoulderHipKnee >= angles.value.shoulderHipKnee
    ensures AnalyseBack(e, view, angles).overextended
    ensures AnalyseBack(e, view, angles).current == Adequate
  {
  }

  /** Once overextended, the back record never changes again, whatever the
      later frames are. */
  lemma BackStaysOverextended(e: BackEntry, view: View, angles: Option<DeadliftAngles>)
    requires e.overextended
    ensures AnalyseBack(e, view, angles) == e
  {
  }

  /** `analyse_feet_stance` of the deadlift: wider than 1.1 shoulder widths
      is far, narrower than 0.7 is close, both bounds themselves adequate. */
  function RecordDeadliftFeet(e: FeetEntry, feet: real, shoulder: real): (r: FeetEntry)
    ensures r.current == Far <==> feet > 1.1 * shoulder
    ensures r.current == Close <==> feet < 0.7 * shoulder && feet <= 1.1 * shoulder
    ensures r.current == Adequate <==> 0.7 * shoulder <= feet <= 1.1 * shoulder
    ensures r.far == (e.far || r.current == Far)
    ensures r.close == (e.close || r.current == Close)
    ensures r.adequate == (e.adequate || r.current == Adequate)
  {
    if feet > 1.1 * shoulder then e.(far := true, current := Far)
    else if feet < 0.7 * shoulder then e.(close := true, current := Close)
    else e.(adequate := true, current := Adequate)
  }

  /** One deadlift analysis session. */
  class Deadlift {
    var view: View
    const weightType: string
    var landmarks: Landmarks
    var angles: Option<DeadliftAngles>
    var distances: Option<DeadliftDistances>
    var results: DeadliftResultsDict

    /** Every shoulder-hip-knee angle folded in so far. */
    ghost var shoulderHipKneeSeen: seq<real>

    ghost predicate Valid()
      reads this
    {
      && (angles.Some? <==> |shoulderHipKneeSeen| > 0)
      && (angles.Some? ==>
            && angles.value.shoulderHipKnee == shoulderHipKneeSeen[|shoulderHipKneeSeen| - 1]
            && angles.value.largestShoulderHipKnee == SeqMax(shoulderHipKneeSeen))
      && WellShaped(results, weightType)
    }

    /** A session. The source never sets `view`, `angles` or `results` on a
        new object; the model takes the view as a parameter and starts the
        angle and distance dictionaries absent and the results dictionary
        empty. */
    constructor (weightType: string, view: View, landmarks: Landmarks)
      ensures Valid()
      ensures this.weightType == weightType && this.view == view && this.landmarks == landmarks
      ensures angles.None? && distances.None? && results == EmptyResults
    {
      this.weightType := weightType;
      this.view := view;
      this.landmarks := landmarks;
      angles, distances := None, None;
      results := EmptyResults;
      shoulderHipKneeSeen := [];
    }

    method InitialiseResults()
      requires Valid()
      modifies this`results
      ensures Valid()
      ensures results == InitialisedResults(old(results), view, weightType)
    {
      if view.Left? || view.Right? {
        if results.back.None? {
          results := EmptyResults.(hips := Some(NewHips), back := Some(NewBack));
        }
        if weightType == Barbell && results.barbell.None? {
          results := results.(barbell := Some(Straightness(true)));
        }
      }
      if view.Front? {
        if results.feet.None? {
          results := EmptyResults.(feet := Some(NewFeet), rightToes := Some(NewToes), leftToes := Some(NewToes));
        }
      }
    }

    /** `calculate_angles`: stores the three angles of the frame and keeps
        `largest_shoulder_hip_knee_angle` as a running maximum, which never
        decreases and is at least every angle observed. */
    method CalculateAngles(shoulderHipKnee: real, leftToesAnkles: real, rightToesAnkles: real)
      requires Valid()
      modifies this`angles, this`shoulderHipKneeSeen
      ensures Valid()
      ensures shoulderHipKneeSeen == old(shoulderHipKneeSeen) + [shoulderHipKnee]
      ensures angles.Some?
      ensures angles.value.shoulderHipKnee == shoulderHipKnee
      ensures angles.value.leftToesAnkles == leftToesAnkles && angles.value.rightToesAnkles == rightToesAnkles
      ensures angles.value.largestShoulderHipKnee == SeqMax(shoulderHipKneeSeen)
      ensures old(angles).Some? ==> angles.value.largestShoulderHipKnee >= old(angles).value.largestShoulderHipKnee
      ensures forall i :: 0 <= i < |shoulderHipKneeSeen| ==> angles.value.largestShoulderHipKnee >= shoulderHipKneeSeen[i]
    {
      var largest := shoulderHipKnee;
      if angles.Some? {
        largest := Max(angles.value.largestShoulderHipKnee, shoulderHipKnee);
        SeqMaxSnoc(shoulderHipKneeSeen, shoulderHipKnee);
      }
      angles := Some(DeadliftAngles(shoulderHipKnee, leftToesAnkles, rightToesAnkles, largest));
      shoulderHipKneeSeen := shoulderHipKneeSeen + [shoulderHipKnee];
    }

    /** `calculate_distances`; the two Euclidean distances are inputs. */
    method CalculateDistances(feetDistance: real, shoulderDistance: real)
      requires Valid()
      modifies this`distances
      ensures Valid()
      ensures distances == Some(DeadliftDistances(feetDistance, shoulderDistance))
    {
      distances := Some(DeadliftDistances(feetDistance, shoulderDistance));
    }

    /** `analyse_side_view`: the hip record, then the back record. There is
        no phase gate around the hip test. A frame that sets the overextended
        flag never ends labelled "overextended". */
    method AnalyseSideView()
      requires Valid()
      requires results.hips.Some? && results.back.Some?
      requires !results.back.value.overextended && IsSideView(view) ==> angles.Some?
      modifies this`results
      ensures Valid()
      ensures results == old(results).(
        hips := Some(RecordHips(old(results).hips.value, landmarks)),
        back := Some(AnalyseBack(old(results).back.value, view, angles)))
      ensures !old(results).back.value.overextended && results.back.value.overextended ==>
        results.back.value.current == Adequate
    {
      var hips := RecordHips(results.hips.value, landmarks);
      results := results.(hips := Some(hips));
      var back := results.back.value;
      if !back.overextended {
        if DeterminePhase(view, angles) == Some(Standing) {
          var a := angles.value;
          if a.shoulderHipKnee >= 175.0 {
            back := back.(overextended := true, current := Overextended);
          }
          if a.largestShoulderHipKnee < 165.0 {
            back := back.(overflexed := true, current := Overflexed);
          } else {
            back := back.(adequate := true, current := Adequate);
          }
          results := results.(back := Some(back));
        }
      }
    }

    /** `analyse_front_view`: feet and toes, with no phase gate. Its barbell
        block compares the `weight` dictionary with a string and never runs. */
    method AnalyseFrontView()
      requires Valid()
      requires angles.Some? && distances.Some?
      requires results.feet.Some? && results.leftToes.Some? && results.rightToes.Some?
      modifies this`results
      ensures Valid()
      ensures results == old(results).(
        feet := Some(RecordDeadliftFeet(old(results).feet.value, distances.value.feet, distances.value.shoulder)),
        leftToes := Some(RecordToes(old(results).leftToes.value, angles.value.leftToesAnkles)),
        rightToes := Some(RecordToes(old(results).rightToes.value, angles.value.rightToesAnkles)))
      ensures results.barbell == old(results).barbell
    {
      results := results.(feet := Some(RecordDeadliftFeet(results.feet.value, distances.value.feet, distances.value.shoulder)));
      results := results.(leftToes := Some(RecordToes(results.leftToes.value, angles.value.leftToesAnkles)));
      results := results.(rightToes := Some(RecordToes(results.rightToes.value, angles.value.rightToesAnkles)));
    }
  }
}
