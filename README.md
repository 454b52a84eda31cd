# Reform form evaluation, modelled in Dafny

Reform watches a video of a squat or a deadlift and judges the lifter's
form. A pose estimator gives it body landmarks for each frame, and an
object detector tells it whether a barbell is present. This project models
the per-frame evaluation core in Dafny and proves properties of it:

- **Geometry helpers** (`Helpers`). The joint angle folded into [0, 180]
  degrees, and the conversion of a normalised landmark to pixels.
- **Bar-path tracker** (`FreeWeight`). Detections are filtered by
  confidence and class. The smallest and largest accepted x coordinate are
  kept, and the path counts as straight while they lie at most 50 units
  apart.
- **Dictionary-based analysers**: `SquatEvaluation.Squat` and
  `DeadliftEvaluation.Deadlift`, sharing their record types through
  `Criteria`.
  - Each session keeps angle, distance and coordinate dictionaries; some
    entries are running extremes.
  - It decides the movement phase.
  - It records a verdict for each criterion in its `results` dictionary.
- **Flag-based analysers**: `SquatAnalysis.SquatAnalyser` and
  `DeadliftAnalysis.DeadliftAnalyser`. These are boolean state machines
  that are updated frame by frame.
- **Summaries**: `SquatSummary` and `DeadliftSummary`. Each is the if/elif
  selection that picks one message per criterion from a results object.

### Representation

- Landmarks are a record of twelve points (`Basics.Landmarks`).
- Python floats are `real`. `float('inf')` and `float('-inf')` are the
  sentinels of `Basics.ExtReal`.
- A dictionary whose keys are all written together is an `Option` of a
  record. A results dictionary is a datatype with one `Option` field per
  key; `None` means the key is absent.
- Where the source changes objects in place, the model is a class with
  `modifies` clauses. In the flag-based analysers each method is proved
  equal to a pure step function on a snapshot value, and the lemmas about
  whole runs of frames are stated on those step functions. In the
  dictionary-based analysers the record-building methods are tied to pure
  functions in the same way, while the methods that keep running extremes
  (`CalculateAngles`, `CalculateCoordinates`) are tied by `Valid()` to
  `Basics.SeqMin` and `Basics.SeqMax` over ghost histories of every value
  seen.
- The flag-based analysers keep their boolean fields in small groups of two
  or three, one group per criterion, for example `FeetFlags(tooFar,
  tooClose)`. `SquatAnalyser.analyse_form` is split into one method per
  section of the source, and each of those methods changes only its own
  group.

### Source behaviour reproduced as written

The model keeps these behaviours of the source unchanged:

- squat.py and deadlift.py, toe and squat-depth checks: the flags are
  compared with `==` instead of assigned, so only the `current` label ever
  changes (`Criteria.RecordToes`, `SquatEvaluation.RecordDepth`).
- squat.py, feet check: the "close" test is `feet > 0.8 * shoulder`. Every
  stance between 0.8 and 1.2 shoulder widths is therefore "close", and a
  narrower one is "adequate".
- squat.py and deadlift.py, front-view barbell blocks: they compare the
  `weight` dictionary with a string, so they never run.
- deadlift.py, back check: the "overflexed/adequate" test is a separate
  `if`. A frame that sets the overextended flag therefore ends labelled
  "adequate".
- deadlift.py, hip check: it stores `True`, which is the integer 1, into an
  integer counter.
- deadlift_analyser.py: `top_position_angle` starts at 150 and is only
  raised inside the `< 150` branch, so it never changes. `performing_deadlift`
  is never cleared.
- deadlift_analyser.py: the front-view analysis is switched off.
  `completed_deadlift` and `bottom_position_reached` are never set.
- squat_analyser.py: `deepest_squat_angle` is reset to infinity on every
  call, so the depth branch always runs.
- squat_results.py: a left foot that alone points outward prints the same
  line as two outward feet.
- squat_results.py: with neither knee mostly inward, a tie on either knee's
  counters prints the error line. This includes the all-zero defaults.
- squat_results.py: the feet section's error line uses the knee wording,
  and it cannot be reached.

## Model

| member | source | states |
|---|---|---|
| Basics.SeqMin | squat.py:121-128 | the running minimum `min(smallest, next)` of a non-empty stream: at most every value seen and equal to one of them |
| Basics.SeqMax | squat.py:146-162 | the running maximum `max(largest, next)` of a non-empty stream: at least every value seen and equal to one of them |
| Helpers.FoldAngle | helpers.py:9-13 | `abs(d)` when at most 180, `360 - abs(d)` otherwise; for d in [-360, 360] the result lies in [0, 180]; identity on [0, 180] |
| Helpers.CalculateAngle | helpers.py:3-13 | for arctan2 directions in [-180, 180] (arctan2 can return -180 as well as 180) the angle lies in [0, 180] |
| Helpers.CalculateAngleSymmetric | helpers.py:8-9 | swapping the outer landmarks a and c gives the same angle |
| Helpers.FoldAngleIdempotent | helpers.py:11-13 | folding twice equals folding once, for every difference arctan2 can give |
| Helpers.Trunc | helpers.py:17 | Python `int()` truncates toward zero: floor for non-negative values, ceiling for negative ones |
| Helpers.ConvertCoordinates | helpers.py:16-18 | x is scaled by the width (`shape[1]`) and y by the height (`shape[0]`), each truncated; inputs in [0, 1] land in [0, width] x [0, height] |
| FreeWeight.AcceptedXs | free_weight.py:44-55 | the accepted x coordinates in order; empty exactly when no detection passes both tests |
| FreeWeight.AnalyseBarPath | free_weight.py:68-71 | straight exactly when the two extremes lie at most 50 apart; a spread of exactly 50 is straight |
| FreeWeight.Straightness | free_weight.py:53-71 | no verdict exactly when no x coordinate was accepted; otherwise the verdict on the smallest and largest accepted x |
| FreeWeight.StraightnessPairwise | free_weight.py:53-71 | the path is straight exactly when some x was accepted and every two accepted x coordinates lie at most 50 apart |
| FreeWeight.XRange | free_weight.py:30-59 | `barbell_x_coordinates`: `[inf, -inf]` before any accepted x; afterwards two finite values bounding every accepted x, each equal to one of them |
| FreeWeight.XRangeSnoc | free_weight.py:30-59 | the two comparisons of the loop turn `[inf, -inf]`, or the previous extremes, into the minimum and maximum of all accepted x values |
| FreeWeight.DetectBarbell | free_weight.py:26-65 | `barbell_detected` holds exactly when some detection has confidence > 0.7 and class 0; `bar_path_straight` is the verdict on the extremes of the accepted x values, and `None` exactly when none was accepted |
| FreeWeight.SingleDetectionStraight | free_weight.py:51-61 | a single accepted detection gives a straight path |
| FreeWeight.StraightnessOrderIndependent | free_weight.py:53-61 | the verdict depends only on which x values were accepted, not on their order |
| FreeWeight.NotStraightPersists | free_weight.py:56-61 | once the path is not straight, no later detection makes it straight again |
| FreeWeight.AcceptedXsAppend | free_weight.py:44-50 | filtering two batches of detections equals filtering their concatenation |
| Criteria.RecordToes | squat.py:263-288 | above 140 is "outward", below 110 "inward", otherwise "adequate"; no flag changes |
| SquatEvaluation.InitialisedResults | squat.py:13-77 | a side view without "torso" replaces the dictionary with new torso and depth records; a front view without "feet" replaces it with new feet, toe and knee records; present keys are kept; a barbell record is added only for a barbell and only when absent; another view changes nothing; the shapes are preserved |
| SquatEvaluation.InitialiseIdempotent | squat.py:13-77 | initialising twice with the same view equals initialising once |
| SquatEvaluation.DeterminePhase | squat.py:164-178 | left view: above 120 is standing, below 120 squatting, exactly 120 no phase; front view: a shoulder-knee distance of at least 0.4 is standing, below 0.4 squatting; the right view gives no phase |
| SquatEvaluation.RecordTorso | squat.py:186-199 | exactly one counter grows by one and `current` names it; a difference above 10 is upright, below -10 forward, and 10 and -10 themselves are adequate |
| SquatEvaluation.RecordDepth | squat.py:205-217 | largest hip y below largest knee y is shallow, else a smallest angle under 30 is deep, else adequate; the flags never change |
| SquatEvaluation.RecordSquatFeet | squat.py:231-261 | above 1.2 shoulder widths is far; above 0.8 and up to 1.2 is close; otherwise adequate; the matching flag is set and none is ever cleared |
| SquatEvaluation.RecordLeftKnee | squat.py:292-299 | inward exactly when the knee x is below the ankle x, else adequate; flags are only set |
| SquatEvaluation.RecordRightKnee | squat.py:301-308 | inward exactly when the knee x is above the ankle x, else adequate; flags are only set |
| SquatEvaluation.Squat.constructor | squat.py:8-9 | the base constructor's empty landmark state; the view, which the source never sets, is supplied as a parameter, and the missing `angles`, coordinate, distance and `results` attributes are supplied absent or empty (see Left out) |
| SquatEvaluation.Squat.InitialiseResults | squat.py:13-77 | the new results are `InitialisedResults` of the old ones |
| SquatEvaluation.Squat.CalculateAngles | squat.py:104-128 | stores the frame's four angles; `smallest_hip_knee_heel_angle` is the minimum of every angle seen, never increases and is at most each of them |
| SquatEvaluation.Squat.CalculateDistances | squat.py:131-138 | the shoulder-knee distance is the absolute vertical difference; the two Euclidean distances are stored |
| SquatEvaluation.Squat.CalculateCoordinates | squat.py:141-162 | the largest left hip y and the largest left knee y are the maxima of every value seen and never decrease |
| SquatEvaluation.Squat.AnalyseSideView | squat.py:181-224 | only while squatting: the torso, the depth and, for a barbell, the bar-path verdict are recorded; otherwise nothing changes |
| SquatEvaluation.Squat.AnalyseFrontView | squat.py:226-316 | only while squatting: the feet, both toes and both knees are recorded; the barbell record never changes |
| DeadliftEvaluation.InitialisedResults | deadlift.py:10-51 | a side view without "back" replaces the dictionary with new hip and back records, plus a barbell record for a barbell; a front view without "feet" replaces it with new feet and toe records and never adds a barbell record; the shapes are preserved |
| DeadliftEvaluation.InitialiseIdempotent | deadlift.py:10-51 | initialising twice with the same view equals initialising once |
| DeadliftEvaluation.DeterminePhase | deadlift.py:107-114 | side views: at least 150 is standing, below 150 deadlifting, a total test; any other view gives no phase |
| DeadliftEvaluation.RecordHips | deadlift.py:117-122 | either hip above its shoulder stores 1 in `high` and labels "high"; otherwise nothing changes; `adequate` is never touched |
| DeadliftEvaluation.AnalyseBack | deadlift.py:124-142 | an overextended back never changes; away from standing nothing changes; while standing an angle of at least 175 sets overextended, then a largest angle under 165 sets overflexed and any other sets adequate; a change never ends labelled "overextended" |
| DeadliftEvaluation.OverextendingFrameEndsAdequate | deadlift.py:129-142 | with the running maximum at least the current angle, the frame that sets the overextended flag ends labelled "adequate" |
| DeadliftEvaluation.BackStaysOverextended | deadlift.py:125-127 | once overextended, later calls change nothing |
| DeadliftEvaluation.RecordDeadliftFeet | deadlift.py:152-182 | above 1.1 shoulder widths is far, below 0.7 close, both bounds adequate; flags are only set |
| DeadliftEvaluation.Deadlift.constructor | deadlift.py:7-8 | the base constructor's empty landmark state; the view, which the source never sets, is supplied as a parameter, and the missing `angles`, distance and `results` attributes are supplied absent or empty (see Left out) |
| DeadliftEvaluation.Deadlift.InitialiseResults | deadlift.py:10-51 | the new results are `InitialisedResults` of the old ones |
| DeadliftEvaluation.Deadlift.CalculateAngles | deadlift.py:76-96 | stores the frame's angles; `largest_shoulder_hip_knee_angle` is the maximum of every angle seen, never decreases and is at least each of them |
| DeadliftEvaluation.Deadlift.CalculateDistances | deadlift.py:99-105 | stores the two Euclidean distances |
| DeadliftEvaluation.Deadlift.AnalyseSideView | deadlift.py:116-145 | the hip record follows `RecordHips` and the back record `AnalyseBack`, and nothing else changes; a frame that newly sets overextended ends labelled "adequate" |
| DeadliftEvaluation.Deadlift.AnalyseFrontView | deadlift.py:147-215 | the feet and both toes are recorded, and the barbell record never changes |
| SquatAnalysis.ViewStep | squat_analyser.py:57-63 | both ankle visibilities above 0.9 set `front_view`, anything else sets `side_view`; nothing is cleared and nothing else changes |
| SquatAnalysis.FeetStep | squat_analyser.py:122-133 | wider than 1.1 shoulder widths sets too-far, otherwise narrower than 0.9 sets too-close; neither is ever cleared |
| SquatAnalysis.ToeStep | squat_analyser.py:142-164 | above 140 is outward only, below 120 inward only, otherwise unchanged; a foot that is not both stays not both |
| SquatAnalysis.PhaseStep | squat_analyser.py:166-176 | standing up from a squat in progress completes it; below 120 the squat is in progress and not completed; exactly 120 changes nothing; "in progress and completed" is never reached from a state without it |
| SquatAnalysis.TorsoVerdict | squat_analyser.py:192-210 | a difference above 5 is too upright only, below -5 too forward only, otherwise neither |
| SquatAnalysis.DepthVerdict | squat_analyser.py:213-233 | hip y below knee y is too shallow only; otherwise an angle under 30 is too deep only; otherwise neither |
| SquatAnalysis.FormStepPreservesValid | squat_analyser.py:106-233 | from valid flags no frame reaches an exclusive pair (phase, toes, torso, depth) |
| SquatAnalysis.RunPreservesValid | squat_analyser.py:45-48 | no sequence of frames leads from valid flags to an exclusive pair |
| SquatAnalysis.RunAppend | squat_analyser.py:34-48 | `Run`, the frame loop of `process_video` (`determine_view` then `analyse_form` per frame), handles frames one at a time: a run over two batches in turn equals the run over their concatenation |
| SquatAnalysis.InitialFlagsStayValid | squat_analyser.py:8-23 | from the class defaults, `performing_squat` and `completed_squat` are never both true, and neither is any exclusive toe, torso or depth pair |
| SquatAnalysis.RunKeepsStickyFlags | squat_analyser.py:57-133 | the view flags and the feet flags, once set, stay set over any run |
| SquatAnalysis.FeetMessage | squat_analyser.py:312-317 | far wins over close; adequate exactly when neither is set |
| SquatAnalysis.ToesMessage | squat_analyser.py:318-331 | one line per flag combination: both-outward, left-only and right-only outward lines, then (with no foot outward) both-inward, left-only and right-only inward lines, each exactly when its combination holds; adequate exactly when all four flags are clear |
| SquatAnalysis.KneesMessage | squat_analyser.py:332-339 | one message per combination of the two knee flags |
| SquatAnalysis.DepthMessage | squat_analyser.py:340-345 | shallow wins over deep; adequate exactly when neither is set |
| SquatAnalysis.TorsoMessage | squat_analyser.py:346-351 | upright wins over forward; adequate exactly when neither is set |
| SquatAnalysis.PrintResults | squat_analyser.py:311-351 | the order of the lines only: feet, toes, knees, depth, torso, each from its own message function (the choice of line is stated by those functions) |
| SquatAnalysis.DefaultSummary | squat_analyser.py:311-351 | the defaults print the five adequate lines |
| SquatAnalysis.SquatAnalyser.constructor | squat_analyser.py:8-28 | every flag starts False |
| SquatAnalysis.SquatAnalyser.DetermineView | squat_analyser.py:57-63 | the flags become `ViewStep` of the old ones |
| SquatAnalysis.SquatAnalyser.AnalyseForm | squat_analyser.py:106-233 | the flags become `FormStep` of the old ones, and valid flags stay valid |
| SquatAnalysis.FormStep | squat_analyser.py:106-233 | per frame: the view flags stay; the feet flags are sticky and follow the 1.1/0.9 tests; the toe and phase flags follow `ToeStep` and `PhaseStep`; the knee, torso and depth flags are recomputed only below 120, with the knee lists compared lexicographically, and are untouched otherwise |
| SquatAnalysis.SquatAnalyser.ProcessFrame | squat_analyser.py:45-48 | one frame is one step of `Run` |
| SquatAnalysis.SquatAnalyser.AnalyseFeetStance | squat_analyser.py:122-133 | the feet flags become `FeetStep` of the old ones |
| SquatAnalysis.SquatAnalyser.AnalyseToes | squat_analyser.py:142-164 | each foot's flags become `ToeStep` of the old ones |
| SquatAnalysis.SquatAnalyser.AnalyseCompletion | squat_analyser.py:166-171 | a squat in progress that stands above 120 becomes completed; nothing else changes |
| SquatAnalysis.SquatAnalyser.AnalyseKnees | squat_analyser.py:180-189 | left inward exactly when the left knee list is below the ankle list, right inward exactly when the right knee list is above it |
| SquatAnalysis.ListLessStrictTotal | squat_analyser.py:180-189 | `ListLess`, Python's `<` on `[x, y]` lists, is a strict total order: irreflexive, asymmetric, transitive, and any two distinct points compare |
| SquatAnalysis.SquatAnalyser.AnalyseTorso | squat_analyser.py:192-210 | the torso flags become `TorsoVerdict` |
| SquatAnalysis.SquatAnalyser.AnalyseDepth | squat_analyser.py:213-233 | the depth flags become `DepthVerdict` |
| DeadliftAnalysis.ViewStep | deadlift_analyser.py:50-60 | both knee visibilities above 0.8 set front; only the right sets right; only the left sets left; neither changes nothing; nothing is cleared |
| DeadliftAnalysis.LiftStep | deadlift_analyser.py:106-120 | below 150 the lift is in progress and the top angle rises to the angle when larger; in-progress is never cleared; `top_position` is recomputed as angle at least the top angle while in progress |
| DeadliftAnalysis.BackStep | deadlift_analyser.py:128-135 | at the top, above 175 sets overextended and anything else sets neutral; away from the top nothing changes; neither is cleared |
| DeadliftAnalysis.TopAngleFixed | deadlift_analyser.py:113-120 | with a top angle of at least 150 the top angle never changes, and the top position is a lift in progress back at that angle or above |
| DeadliftAnalysis.FrameStepKeeps | deadlift_analyser.py:32-135 | one frame keeps every set view, performing, hip and back flag, a top angle of 150 or more, and the flags no test sets |
| DeadliftAnalysis.RunKeeps | deadlift_analyser.py:18-47 | every run keeps those facts: `performing_deadlift` is never cleared, the hip and back flags are sticky, and `completed_deadlift` and `bottom_position_reached` never change |
| DeadliftAnalysis.RunAppend | deadlift_analyser.py:21-41 | `Run`, the frame loop of `process_video`, handles frames one at a time: a run over two batches in turn equals the run over their concatenation |
| DeadliftAnalysis.DefaultTopAngleStays | deadlift_results.py:13 | from the defaults the top angle stays 150 whatever the frames |
| DeadliftAnalysis.FrontViewFreezes | deadlift_analyser.py:35-41 | once `front_view` is set, a frame changes only the view flags |
| DeadliftAnalysis.RunFrontViewFreezes | deadlift_analyser.py:35-41 | once `front_view` is set, a whole run changes only the view flags |
| DeadliftAnalysis.NoViewNoChange | deadlift_analyser.py:35-60 | with no view flag set and neither knee visible, a frame changes nothing |
| DeadliftAnalysis.DeadliftAnalyser.constructor | deadlift_analyser.py:10-15 | the results object starts at its defaults |
| DeadliftAnalysis.DeadliftAnalyser.DetermineView | deadlift_analyser.py:50-60 | the view flags become `ViewStep` of the old ones |
| DeadliftAnalysis.DeadliftAnalyser.AnalyseSideView | deadlift_analyser.py:97-135 | the results become `SideViewStep` of the old ones |
| DeadliftAnalysis.SideViewStep | deadlift_analyser.py:97-135 | the lift state follows `LiftStep`, the hip flag is set when the left hip is above the left shoulder and never cleared, the back flags follow `BackStep` at the new top position, and the view, barbell and never-set flags are untouched |
| DeadliftAnalysis.DeadliftAnalyser.ProcessFrame | deadlift_analyser.py:32-41 | `determine_view`, then the front flag wins, a side flag runs the side analysis, no flag does nothing |
| DeadliftAnalysis.FrameStep | deadlift_analyser.py:32-41 | the view flags follow `ViewStep`; with the front flag or no flag set nothing else changes; with only a side flag the side analysis runs on the updated view |
| DeadliftSummary.HipsMessage | deadlift_results.py:27-30 | the hip line depends only on `hips_higher_than_shoulders` |
| DeadliftSummary.BackMessage | deadlift_results.py:32-37 | overextended wins over neutral; with neither flag set the error line is chosen |
| DeadliftSummary.PrintResults | deadlift_results.py:26-37 | the order of the lines only: the hip line, then the back line (the choice of line is stated by `HipsMessage` and `BackMessage`) |
| DeadliftSummary.PrintResultsReadsThreeFlags | deadlift_results.py:26-37 | results that agree on the hip flag and the back flags print the same lines |
| DeadliftSummary.DefaultSummary | deadlift_results.py:3-37 | the defaults print the "lower than shoulders" line and the back error line |
| SquatSummary.FeetSummary | squat_results.py:44-51 | far wins over close; adequate exactly when neither is set; the error line is unreachable |
| SquatSummary.ToesSummary | squat_results.py:53-68 | outward before inward; a left foot alone outward prints the both-outward line; adequate exactly when all four flags are clear; the error line is unreachable |
| SquatSummary.KneesSummary | squat_results.py:70-79 | a knee is inward when its inward count strictly beats its adequate count; adequate needs both adequate counts strictly ahead; the error line is chosen exactly when neither knee is inward and a knee ties |
| SquatSummary.DepthSummary | squat_results.py:82-87 | shallow wins over deep; otherwise adequate |
| SquatSummary.TorsoSummary | squat_results.py:88-93 | a fault wins only when its counter strictly beats both others; adequate exactly when the adequate counter is at least both fault counters or the fault counters tie |
| SquatSummary.FrontSection | squat_results.py:43-79 | the order of the lines only: the feet, toe and knee lines (the choice of line is stated by the summary functions) |
| SquatSummary.SideSection | squat_results.py:81-93 | the order of the lines only: the depth and torso lines (the choice of line is stated by the summary functions) |
| SquatSummary.PrintResults | squat_results.py:42-93 | the front section when `front_view` is set, then the side section when a side flag is set; both when both are |
| SquatSummary.SectionsIndependent | squat_results.py:43-93 | the front lines depend only on the front flags and counters |
| SquatSummary.SideSectionIndependent | squat_results.py:81-93 | the side lines depend only on the depth flags and the torso counters |
| SquatSummary.DefaultPrintsNothing | squat_results.py:3-93 | with the defaults no view flag is set and nothing is printed |
| SquatSummary.DefaultKneesError | squat_results.py:28-79 | with the default counters (all 0) the knee line is the error line |
| SquatSummary.DefaultFrontSummary | squat_results.py:3-79 | the defaults seen from the front print adequate feet, adequate toes and the knee error line |

## Left out

- Video and detector plumbing is left out: the `process_video` loops, `detect_weight`, `detect_landmarks`, barbell_detector.py, video_helpers.py and YOLO training. These are OpenCV, MediaPipe and YOLO I/O. A frame is an input record, and a stream of frames is a sequence (`Run`, `DetectBarbell`).
- `extract_landmarks` is left out. It only copies detector output into a dictionary, so landmarks are an input record. The landmark dictionary that starts empty in the constructors is a constructor parameter instead.
- `np.arctan2`, `np.sqrt`, `np.pi`, float rounding and arithmetic on infinities are left out. Angles and distances are `real` inputs, and infinities are the sentinels of `ExtReal`.
- All drawing is left out: `cv2.line`, `cv2.circle`, `cv2.putText`, the `draw_*` helpers, `get_landmark_pixels` and `write_text`. Nothing reads their output back. The "Front View." message of the deadlift dispatch is output only.
- Printing is left out: each `print_results` returns its lines as a sequence of strings.
- The GUI, threading and entry scripts (gui.py, start_gui.py, analysis_gui.py, main.py, reform.py) are left out, because they only start the analysis and display it.
- errors.py is left out; it is a trivial exception class.
- Class-level state shared across instances is left out. Two mutable class attributes are shared: the `weight` dictionary of `Analysis` (analysis.py:8-10), which `detect_weight` changes in place (analysis.py:45-50), and the `results` object of `DeadliftAnalyser` (deadlift_analyser.py:10), which every analyser updates in place. In the model the weight type is a `const weightType` of each `Squat` and `Deadlift` object, fixed at construction and passed to `InitialisedResults`, and each `DeadliftAnalyser` owns its `results`. The model therefore does not capture one object seeing another's weight detection or deadlift updates. The class attributes of `SquatAnalyser` (squat_analyser.py:8-28) are immutable defaults that every write rebinds on the instance, so modelling them as per-object fields loses nothing.
- SquatEvaluation.Squat.constructor, DeadliftEvaluation.Deadlift.constructor: `angles`, `results`, `view` and `analyse_bar_path` are used by the dictionary-based analysers but never defined by them or by `Analysis.__init__` (analysis.py:12-16), and the `determine_view` call there is commented out (analysis.py:73). In the source a fresh object therefore fails with an `AttributeError` as soon as `initialise_results` reads `self.view`. The model supplies what is missing: the constructor takes a fixed view as a parameter and starts `angles` absent and `results` as an empty dictionary. The bar-path verdict is the boolean parameter of `SquatEvaluation.Squat.AnalyseSideView`.
- The copy of `convert_coordinates` in squat_analyser.py (lines 101-103) is left out. It is the same expression as `Helpers.ConvertCoordinates` and only feeds drawing.
- `FreeWeight.DetectBarbell` takes the detections of all frames as one flat sequence, in loop order. The nesting by frame, result and box does not change the fold.
- The `KeyError` paths of the dictionary-based analysers are left out: an analysis running before `initialise_results` or `calculate_*` has filled the keys it reads. The `requires` clauses exclude exactly those calls, and only where the phase gate reaches the key.
- The flag-based analysers keep their boolean fields in groups, and `analyse_form` is split into one method per section of the source. The order of the updates within a frame is the source's, and no section reads a group that another section writes.
