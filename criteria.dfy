/**
 * The per-criterion records of the dictionary-based analysers (`Squat` and
 * `Deadlift`): each holds the `current` label of the latest frame and either
 * frame counters or "ever observed" flags, under the keys the source uses.
 */
module Criteria {
  import opened Basics

  /** `results["torso"]`: counters of frames per label. */
  datatype TorsoEntry = TorsoEntry(current: Label, upright: nat, adequate: nat, forward: nat)

  /** `results["depth"]`: flags per label. */
  datatype DepthEntry = DepthEntry(current: Label, shallow: bool, adequate: bool, deep: bool)

  /** `results["feet"]`. */
  datatype FeetEntry = FeetEntry(current: Label, far: bool, adequate: bool, close: bool)

  /** `results["left_toes"]` and `results["right_toes"]`. */
  datatype ToesEntry = ToesEntry(current: Label, outward: bool, adequate: bool, inward: bool)

  /** `results["left_knee"]` and `results["right_knee"]`. */
  datatype KneeEntry = KneeEntry(current: Label, inward: bool, adequate: bool)

  /** `results["hips"]`: integer entries; `high` receives Python's `True`,
      which is the integer 1. */
  datatype HipsEntry = HipsEntry(current: Label, high: int, adequate: int)

  /** `results["back"]`. */
  datatype BackEntry = BackEntry(current: Label, overextended: bool, adequate: bool, overflexed: bool)

  /** `results["barbell"]`: the side-view record `{"straight": ...}` or the
      front-view record `{"left": ..., "balanced": ..., "right": ...}`. */
  datatype BarbellEntry = Straightness(straight: bool) | Balance(left: bool, balanced: bool, right: bool)

  const NewTorso := TorsoEntry(Unset, 0, 0, 0)
  const NewDepth := DepthEntry(Unset, false, false, false)
  const NewFeet := FeetEntry(Unset, false, false, false)
  const NewToes := ToesEntry(Unset, false, false, false)
  const NewKnee := KneeEntry(Unset, false, false)
  const NewHips := HipsEntry(Unset, 0, 0)
  const NewBack := BackEntry(Unset, false, false, false)

  /** `analyse_toes` for one foot, identical in squat.py and deadlift.py: the
      label is chosen by the toe angle, and because the flags are compared
      with `==` instead of assigned, no flag ever changes. */
  function RecordToes(e: ToesEntry, angle: real): (r: ToesEntry)
    ensures r.outward == e.outward && r.adequate == e.adequate && r.inward == e.inward
    ensures r.current == Outward <==> angle > 140.0
    ensures r.current == Inward <==> angle < 110.0
    ensures r.current == Adequate <==> 110.0 <= angle <= 140.0
  {
    if angle > 140.0 then e.(current := Outward)
    else if angle < 110.0 then e.(current := Inward)
    else e.(current := Adequate)
  }
}
