# guitarmax — a Dafny model of the guitar-lesson logic

guitarmax is an iOS app that watches a guitarist's fretting hand through the
front camera and says, finger by finger, whether a chord is held correctly.
This project models the logic that sits between Apple's Vision detectors and
the SwiftUI drawing code, and proves what that logic promises:

- **Neck tracker** (`NeckDetection.dfy`, `Smoothing.dfy`, `NeckTracker.dfy`):
  - the 15 Hz frame gate;
  - choosing the guitar-neck rectangle among the detector's boxes and
    flipping it into a zone;
  - classifying contours into string and fret lines;
  - the three FIFO smoothing buffers of capacity 3;
  - the averaged zone and the per-index averaged lines;
  - starting and stopping tracking.

  `GuitarNeckTracker` is a class whose methods update its fields, as in the
  app.
- **Perspective calibration** (`NeckOverlay.dfy`):
  - `OverlayCalibration.getFretX` / `getStringY` and the default
    calibration;
  - the target markers drawn with a calibration;
  - the four-tap calibration flow (tap, reset, complete), as the class
    `CalibrationFlow`.
- **Chord data** (`Chords.dfy`): the eight fingerings of `GuitarChord`,
  proved well formed and in agreement with their tab comments.
- **Finger-placement scoring** (`Scoring.dfy`):
  - `analyzeFingerPlacement` as a loop proved against a recursive
    specification;
  - `getFingerColor` and the finger indicators;
  - the lesson state of `ContentView` (chord selection, start/stop,
    rescoring on new hand points), as the class `LessonSession`.
- **Overlay helpers** (`FingerOverlays.dfy`):
  - which fingertips are drawn, and the status each shows;
  - the correct/required counts and the "Perfect" banner;
  - the status colours and icons;
  - the marker positions.

  `FingerStatusOverlay.swift` and `SmartFingerOverlay.swift` repeat this
  logic; it is modelled once.
- **Hand-point gate** (`Camera.dfy`): `CameraManager`'s detecting flag, its
  15 Hz throttle, the confidence filter and the mirroring of joints, and
  clearing the points on stop or when no hand is seen.

Shared definitions live in `Common.dfy` (sums and means, sorting, the 15 Hz
spacing) and `Geometry.dfy` (points, sizes, `CGRect`-style boxes, the
`GuitarZone` record, hand joints).

How the app's terms become Dafny:

- `CGFloat` is `real`.
- The clock is a `now: real` parameter.
- Vision's outputs are inputs:
  - a list of boxes for rectangles and contours;
  - a hand-pose outcome holding a map from joint to (location, confidence).
- Each `@Published` update and each dispatch to another queue is a
  sequential field assignment.
- Ghost fields record the pushes since tracking last started or stopped,
  and all accepted frame times.
  Each class invariant ties its buffer to the last three pushes and its
  gate to the spacing of accepted frames.

Behaviours of the code worth noting:

- **Scoring tolerance.** The scorer compares each axis separately, with a
  strict 0.15 tolerance, against a fixed grid spanning 0.2–0.8
  (`ContentView.swift:225-237`).
- **Stale callbacks.** The rectangle and contour callbacks do not check
  `isTracking` again, so a result that arrives after `stopTracking` is
  still pushed and published. Nothing discards it.
- **Stopping.** `stopTracking` publishes no zone (`nil`).
- **Default zone.** Any republish publishes a zone. With an empty zone
  buffer (for instance after a contour callback alone), that zone is the
  default (0.2, 0.8, 0.3, 0.7).
- **Fret range.** The chords use frets −1 to 3 only.
- **Box sizes.** The neck filter and the contour classifier read
  `CGRect.width` and `CGRect.height`, which are never negative. A contour of
  zero height and width above 0.15 has an infinite aspect ratio and counts
  as a string.
- **Ties.** Among passing boxes of equal largest area, the neck is the first
  one Vision listed.

## Model

| member | source | states |
|---|---|---|
| Common.AtMostFifteenPerSecond | guitarmax/guitarmax/Models/GuitarNeckTracker.swift:30-38 | frames accepted more than 1/15 s apart: at most 15 of them fall in any window of one second |
| Common.SpreadGrows | guitarmax/guitarmax/Models/GuitarNeckTracker.swift:34-35 | in a sequence of accepted times, the j-th is at least (j−i)/15 s after the i-th |
| Common.AcceptKeepsSpaced | guitarmax/guitarmax/Models/GuitarNeckTracker.swift:34-35 | accepting a frame that passes the gate keeps all accepted times more than 1/15 s apart |
| Common.Sort | guitarmax/guitarmax/Models/GuitarNeckTracker.swift:268 | `sorted()`: the result is ascending and a permutation of the input |
| Common.SortOfSorted | guitarmax/guitarmax/Models/GuitarNeckTracker.swift:268 | sorting an ascending list leaves it unchanged |
| Common.SortDistinct | guitarmax/guitarmax/Models/GuitarNeckTracker.swift:140-141 | `Array(Set(x)).sorted()`: strictly increasing, holding exactly the values of x, no longer than x |
| Common.MeanBounds | guitarmax/guitarmax/Models/GuitarNeckTracker.swift:238-241 | a mean of values in [lo, hi] lies in [lo, hi] |
| Common.MeanOfConstant | guitarmax/guitarmax/Models/GuitarNeckTracker.swift:238-241 | the mean of copies of one value is that value |
| NeckDetection.GoodAspectCrossMultiplied | guitarmax/guitarmax/Models/GuitarNeckTracker.swift:177-178 | for a positive standardized width w and height h, the two aspect bands together accept exactly 0.3·w < h < 3.5·w |
| NeckDetection.CandidateIndices | guitarmax/guitarmax/Models/GuitarNeckTracker.swift:171-184 | the indices of the boxes with a good aspect, standardized area > 0.05 and a side > 0.15: strictly increasing, each passing, and every passing index listed |
| NeckDetection.Candidates | guitarmax/guitarmax/Models/GuitarNeckTracker.swift:171-184 | the filter keeps the passing boxes in detector order: entry j is the box at the j-th index of the strictly increasing list of passing indices |
| NeckDetection.CandidatesMembership | guitarmax/guitarmax/Models/GuitarNeckTracker.swift:171-184 | a box is kept iff it was detected and passes the filter |
| NeckDetection.LargestIndex | guitarmax/guitarmax/Models/GuitarNeckTracker.swift:187-189 | `max(by:)` on area: the chosen box has the largest area, and every earlier box is strictly smaller, so ties go to the first |
| NeckDetection.LargestCandidate | guitarmax/guitarmax/Models/GuitarNeckTracker.swift:170-189 | the largest kept box was detected, passes the filter, and its area is at least that of every passing box |
| NeckDetection.LargestCandidateFirst | guitarmax/guitarmax/Models/GuitarNeckTracker.swift:187-189 | of passing boxes with the largest area, the chosen one is the first in detector order: it appears at or before every passing box whose area is at least its own |
| NeckDetection.FindGuitarNeckRectangle | guitarmax/guitarmax/Models/GuitarNeckTracker.swift:170-190 | nothing iff no box passes the filter; otherwise a detected box that passes it, with area at least that of every passing box, and among equal largest areas the first in detector order |
| NeckDetection.ConvertToGuitarZone | guitarmax/guitarmax/Models/GuitarNeckTracker.swift:192-207 | the flipped zone is ordered (left ≤ right, nut ≤ fourth fret), spans the box's standardized width and height, and stays in the unit square when the box does |
| NeckDetection.ConvertToGuitarZoneRoundTrip | guitarmax/guitarmax/Models/GuitarNeckTracker.swift:196-199 | the flip loses nothing: box → zone → box and ordered zone → box → zone both give back the input |
| NeckDetection.ConvertToGuitarZoneExample | guitarmax/guitarmax/Models/GuitarNeckTracker.swift:196-199 | box (0.2, 0.3, 0.4, 0.3) gives nutY 0.4, fret4Y 0.7, leftX 0.4, rightX 0.8 |
| NeckDetection.ClassifyContourCrossMultiplied | guitarmax/guitarmax/Models/GuitarNeckTracker.swift:126-136 | for a positive standardized height h and width w: a string line iff w > 3h and w > 0.15; a fret line iff it is not a string line, w < 0.33·h and h > 0.15 |
| NeckDetection.ClassifyContour | guitarmax/guitarmax/Models/GuitarNeckTracker.swift:124-136 | a contour classed as a string is wider than 0.15 and more than three times as wide as high; one classed as a fret is higher than 0.15 and less than 0.33 times as wide as high |
| NeckDetection.PositionsMembership | guitarmax/guitarmax/Models/GuitarNeckTracker.swift:121-136 | a position is listed iff some contour of that kind lies there (1 − midY for strings, 1 − midX for frets) |
| NeckDetection.SmallestDistinct | guitarmax/guitarmax/Models/GuitarNeckTracker.swift:140-149 | deduplicate, sort, then cap at k: strictly increasing, only values from the input, and when capped every dropped value is larger than the last one kept |
| NeckDetection.AnalyzeContours | guitarmax/guitarmax/Models/GuitarNeckTracker.swift:117-149 | only the first 50 contours are looked at; the string and fret lists are the capped sorted distinct positions of their kind, strictly increasing, at most 6 and 5 long |
| Smoothing.PushKeepsWindow | guitarmax/guitarmax/Models/GuitarNeckTracker.swift:209-216 | append-then-`removeFirst` above 3 turns the window of the last three pushes into the window of the longer history |
| Smoothing.Push | guitarmax/guitarmax/Models/GuitarNeckTracker.swift:209-216 | the pushed item is last; a buffer of at most three grows by one until it holds three |
| Smoothing.PushAllIsWindow | guitarmax/guitarmax/Models/GuitarNeckTracker.swift:151-165 | a buffer fed n items from empty holds exactly the last min(n, 3) of them, in push order |
| Smoothing.PushAllFromWindow | guitarmax/guitarmax/Models/GuitarNeckTracker.swift:151-165 | pushing several items onto a window gives the window of the whole history |
| Smoothing.SmoothedZoneOfRepeated | guitarmax/guitarmax/Models/GuitarNeckTracker.swift:232-250 | averaging copies of one zone gives that zone |
| Smoothing.SmoothedZone | guitarmax/guitarmax/Models/GuitarNeckTracker.swift:232-250 | an empty buffer gives the default zone (0.2, 0.8, 0.3, 0.7); a single zone is its own average |
| Smoothing.SmoothedZoneKeepsOrder | guitarmax/guitarmax/Models/GuitarNeckTracker.swift:238-248 | the field-wise average of ordered zones is ordered; the default zone is ordered |
| Smoothing.SmoothedZoneWithinFrame | guitarmax/guitarmax/Models/GuitarNeckTracker.swift:238-248 | averaging zones inside the unit square gives a zone inside it |
| Smoothing.SmoothedZoneForgetsOldPushes | guitarmax/guitarmax/Models/GuitarNeckTracker.swift:209-216 | after five pushes the average depends on the last three only |
| Smoothing.Column | guitarmax/guitarmax/Models/GuitarNeckTracker.swift:262 | `compactMap` over the buffer: at most one value per buffered list |
| Smoothing.ListsWithIndex | guitarmax/guitarmax/Models/GuitarNeckTracker.swift:262 | the buffered lists that have an index i, by position: strictly increasing, and every such list listed |
| Smoothing.ColumnContents | guitarmax/guitarmax/Models/GuitarNeckTracker.swift:262 | column i is exactly entry i of each list that has one, one value per such list, in buffer order |
| Smoothing.MaxLen | guitarmax/guitarmax/Models/GuitarNeckTracker.swift:257 | `map { $0.count }.max() ?? 0`: an upper bound on every list length, reached by one of them; 0 for an empty buffer |
| Smoothing.ColumnMeans | guitarmax/guitarmax/Models/GuitarNeckTracker.swift:261-266 | one mean per index 0..n−1, in index order |
| Smoothing.ColumnMembership | guitarmax/guitarmax/Models/GuitarNeckTracker.swift:262 | a value is in column i iff some buffered list has that value at index i: index i averages only the lists that have one |
| Smoothing.ColumnNonEmpty | guitarmax/guitarmax/Models/GuitarNeckTracker.swift:261-265 | below the longest length no column is empty, so the `isEmpty` guard never skips an index |
| Smoothing.SmoothedLinesShape | guitarmax/guitarmax/Models/GuitarNeckTracker.swift:252-289 | for a non-empty buffer, the published lines are a permutation of the per-index means, each index averaging its non-empty column |
| Smoothing.SmoothedLines | guitarmax/guitarmax/Models/GuitarNeckTracker.swift:252-289 | [] for an empty buffer; otherwise min(longest, cap) values, ascending |
| Smoothing.SmoothedLinesWithin | guitarmax/guitarmax/Models/GuitarNeckTracker.swift:252-289 | buffered lines within [lo, hi] give published lines within [lo, hi] |
| Smoothing.SmoothedLinesOfRepeated | guitarmax/guitarmax/Models/GuitarNeckTracker.swift:252-289 | a buffer holding copies of one sorted list publishes that list, capped |
| Smoothing.ColumnMeansOfRepeated | guitarmax/guitarmax/Models/GuitarNeckTracker.swift:261-266 | for copies of one list, the per-index means are that list's first n entries |
| Smoothing.MaxLenOfRepeated | guitarmax/guitarmax/Models/GuitarNeckTracker.swift:257 | the longest of copies of one list is that list's length |
| Smoothing.ColumnOfRepeated | guitarmax/guitarmax/Models/GuitarNeckTracker.swift:262-264 | for copies of one list, column i is non-empty and averages to that list's entry i |
| Smoothing.SmoothedLinesExample | guitarmax/guitarmax/Models/GuitarNeckTracker.swift:252-270 | buffer [2, 4], [2] publishes [2, 4]; index 1 is averaged over the first list only |
| Smoothing.SmoothedLinesRepeatedValue | guitarmax/guitarmax/Models/GuitarNeckTracker.swift:252-270 | buffer [1], [1], [4] publishes [2]: a repeated value is counted once per list that holds it |
| Smoothing.AverageLines | guitarmax/guitarmax/Models/GuitarNeckTracker.swift:256-268 | the averaging loop computes exactly the smoothed lines: min(longest, cap) values, ascending |
| NeckTracker.Smoothed | guitarmax/guitarmax/Models/GuitarNeckTracker.swift:221-223 | the three smoothed values, with an ordered zone and sorted, capped line lists |
| NeckTracker.GuitarNeckTracker.constructor | guitarmax/guitarmax/Models/GuitarNeckTracker.swift:14-28 | starts not tracking, with empty buffers, nothing published and last time 0 |
| NeckTracker.GuitarNeckTracker.ProcessFrame | guitarmax/guitarmax/Models/GuitarNeckTracker.swift:30-38 | a frame is accepted iff tracking and more than 1/15 s after the last accepted one; only then is `now` recorded; nothing else changes |
| NeckTracker.GuitarNeckTracker.UpdateSmoothedLinesAndZone | guitarmax/guitarmax/Models/GuitarNeckTracker.swift:220-230 | publishes the smoothed zone (never nothing) and the smoothed string and fret lines; the buffers are untouched |
| NeckTracker.GuitarNeckTracker.OnRectanglesDetected | guitarmax/guitarmax/Models/GuitarNeckTracker.swift:42-52 | no neck found: nothing changes; otherwise the flipped zone of the chosen box is pushed and everything is republished |
| NeckTracker.GuitarNeckTracker.AddZoneToSmoothingBuffer | guitarmax/guitarmax/Models/GuitarNeckTracker.swift:209-218 | the zone buffer becomes the push of the zone (the last three zones) and everything is republished; line buffers untouched |
| NeckTracker.GuitarNeckTracker.OnContoursDetected | guitarmax/guitarmax/Models/GuitarNeckTracker.swift:151-167 | each non-empty line list is pushed onto its buffer, an empty one is not pushed, and everything is republished |
| NeckTracker.GuitarNeckTracker.PushStringLines | guitarmax/guitarmax/Models/GuitarNeckTracker.swift:152-157 | the string buffer becomes the push of the list; everything else unchanged |
| NeckTracker.GuitarNeckTracker.PushFretLines | guitarmax/guitarmax/Models/GuitarNeckTracker.swift:159-164 | the fret buffer becomes the push of the list; everything else unchanged |
| NeckTracker.GuitarNeckTracker.StartTracking | guitarmax/guitarmax/Models/GuitarNeckTracker.swift:291-296 | tracking on, all three buffers empty, published values kept |
| NeckTracker.GuitarNeckTracker.StopTracking | guitarmax/guitarmax/Models/GuitarNeckTracker.swift:298-308 | tracking off, all three buffers empty, no zone and no lines published |
| NeckOverlay.FretXEnds | guitarmax/guitarmax/Views/GuitarNeckOverlay.swift:239-253 | fret 0 is at the midpoint of the left corners, fret 4 at that of the right corners, times the width |
| NeckOverlay.StringYEnds | guitarmax/guitarmax/Views/GuitarNeckOverlay.swift:256-271 | string 6 is at the midpoint of the top corners, string 1 at that of the bottom corners, times the height |
| NeckOverlay.FretX | guitarmax/guitarmax/Views/GuitarNeckOverlay.swift:239-253 | the fret position is the nut midpoint plus fret/4 of the way to the fourth-fret midpoint, times the width |
| NeckOverlay.StringY | guitarmax/guitarmax/Views/GuitarNeckOverlay.swift:256-271 | the string position is the low-E midpoint plus (6−string)/5 of the way to the high-E midpoint, times the height |
| NeckOverlay.FretXEqualSteps | guitarmax/guitarmax/Views/GuitarNeckOverlay.swift:239-253 | every fret step moves by the same amount, a quarter of the nut-to-fourth-fret distance |
| NeckOverlay.StringYEqualSteps | guitarmax/guitarmax/Views/GuitarNeckOverlay.swift:256-271 | every string step moves by the same amount, a fifth of the low-E-to-high-E distance |
| NeckOverlay.FretXIncreasing | guitarmax/guitarmax/Views/GuitarNeckOverlay.swift:239-253 | for a positive width, higher frets lie further right iff the right corners lie right of the left ones |
| NeckOverlay.DefaultCalibrationPositions | guitarmax/guitarmax/Views/GuitarNeckOverlay.swift:274-279 | with the default calibration, fret f is at (0.15 + 0.15·f)·width and string s at (0.25 + 0.1·(6−s))·height |
| NeckOverlay.CalibratedTargetsMembership | guitarmax/guitarmax/Views/GuitarNeckOverlay.swift:119-145 | a target is drawn exactly for each position with fret > 0, at its calibrated fret and string position |
| NeckOverlay.CalibratedTargetsCount | guitarmax/guitarmax/Views/GuitarNeckOverlay.swift:121-122 | when fingers go exactly on fretted strings, there is one target per required finger |
| NeckOverlay.CalibratedTargets | guitarmax/guitarmax/Views/GuitarNeckOverlay.swift:119-145 | at most one target per finger position |
| NeckOverlay.ChordTargetCount | guitarmax/guitarmax/Views/GuitarNeckOverlay.swift:121-122 | every chord shows three targets, Em two |
| NeckOverlay.CalibrationFlow.constructor | guitarmax/guitarmax/Views/GuitarNeckOverlay.swift:10-14 | starts with the given calibration and flag, and no tapped points |
| NeckOverlay.CalibrationFlow.Tap | guitarmax/guitarmax/Views/GuitarNeckOverlay.swift:166-171 | a tap is appended only while calibrating with fewer than 4 points, so there are never more than 4 |
| NeckOverlay.CalibrationFlow.Reset | guitarmax/guitarmax/Views/GuitarNeckOverlay.swift:66-68 | the tapped points are emptied; calibration and flag kept |
| NeckOverlay.CalibrationFlow.CompleteCalibration | guitarmax/guitarmax/Views/GuitarNeckOverlay.swift:175-194 | no-op unless exactly 4 points; otherwise the calibration is the 4 taps in order (TL, TR, BR, BL) divided by the view size, calibrating ends, points cleared |
| Chords.ChordWellFormed | guitarmax/guitarmax/Models/GuitarChord.swift:25-113 | every chord's fingering is well formed (the four properties below) |
| Chords.ChordInDomain | guitarmax/guitarmax/Models/GuitarChord.swift:117-121 | every fret is in {−1, 0, 1, 2, 3} and every finger in 0..4 |
| Chords.ChordFingerIffFretted | guitarmax/guitarmax/Models/GuitarChord.swift:26-112 | a finger is assigned exactly to the strings with fret > 0 |
| Chords.ChordDistinctFingers | guitarmax/guitarmax/Models/GuitarChord.swift:26-112 | no finger is used on two strings of a chord |
| Chords.ChordMatchesTab | guitarmax/guitarmax/Models/GuitarChord.swift:27-35 | each chord's frets read string 6 to 1 are its tab comment, `x` meaning −1 |
| Chords.ChordRequiredCount | guitarmax/guitarmax/Models/GuitarChord.swift:25-113 | every chord needs fingers: Em two, all others three |
| Chords.FingerPositions | guitarmax/guitarmax/Models/GuitarChord.swift:25-113 | every chord has exactly six positions, for strings 6, 5, 4, 3, 2, 1 in that order |
| Chords.RawValuesDistinct | guitarmax/guitarmax/Models/GuitarChord.swift:10-18 | eight cases, all listed, with pairwise different raw values |
| Camera.MirrorInvolution | guitarmax/guitarmax/Managers/CameraManager.swift:169-172 | flipping both coordinates twice gives the point back |
| Camera.Mirror | guitarmax/guitarmax/Managers/CameraManager.swift:169-172 | a point is in the unit square iff its flip is |
| Camera.ConfidentMirrored | guitarmax/guitarmax/Managers/CameraManager.swift:163-173 | the published joints are exactly those with confidence > 0.3, each at its flipped location |
| Camera.ConfidentMirroredInFrame | guitarmax/guitarmax/Managers/CameraManager.swift:168-172 | joints seen inside the frame are published inside the frame |
| Camera.CollectPoints | guitarmax/guitarmax/Managers/CameraManager.swift:163-173 | the loop over recognised joints builds exactly the confident, flipped points |
| Camera.CameraManager.constructor | guitarmax/guitarmax/Managers/CameraManager.swift:15-27 | starts not detecting, with no points and last time 0 |
| Camera.CameraManager.StartDetection | guitarmax/guitarmax/Managers/CameraManager.swift:110-114 | the detecting flag is set; points and timing kept |
| Camera.CameraManager.StopDetection | guitarmax/guitarmax/Managers/CameraManager.swift:116-123 | the flag is cleared and the published points are emptied |
| Camera.CameraManager.CaptureOutput | guitarmax/guitarmax/Managers/CameraManager.swift:125-182 | nothing changes unless detecting and more than 1/15 s after the last passed frame; a passed frame records its time; then no hand empties the points, a hand publishes its confident flipped joints, and a missing buffer or a detector error leaves the points unchanged |
| Scoring.TipJointTable | guitarmax/guitarmax/Views/ContentView.swift:203-215 | fingers 1–4 map to index, middle, ring and little tips; every other finger has no joint |
| Scoring.ExpectedPoint | guitarmax/guitarmax/Views/ContentView.swift:225-226 | for frets 0..4 and strings 1..6 the expected point lies in [0.2, 0.8]² |
| Scoring.StatusFor | guitarmax/guitarmax/Views/ContentView.swift:211-237 | missing iff the finger has no fingertip or its tip is not seen; correct iff the tip is seen and strictly within 0.15 of the expected point on both axes; incorrect otherwise; only fingers 1–4 get a non-missing verdict |
| Scoring.StatusForOwnTip | guitarmax/guitarmax/Views/ContentView.swift:204-237 | for fingers 1–4 the verdict is read from that finger's own row of the tip table: missing iff that tip is unseen, correct iff it is within tolerance, incorrect iff seen but outside |
| Scoring.Placement | guitarmax/guitarmax/Views/ContentView.swift:200-211 | verdicts are only given to fingers above 0 |
| Scoring.PlacementKeys | guitarmax/guitarmax/Views/ContentView.swift:200-211 | the verdicts are keyed by exactly the fingers of positions with finger > 0 |
| Scoring.PlacementValues | guitarmax/guitarmax/Views/ContentView.swift:211-237 | with no finger used twice, each required finger's verdict is missing (no joint or joint not seen), correct (both axes strictly within 0.15) or incorrect |
| Scoring.AnalyzeFingerPlacement | guitarmax/guitarmax/Views/ContentView.swift:196-241 | the loop computes the verdict map of the chord: keys the required fingers, each value that finger's verdict |
| Scoring.NoHandAllMissing | guitarmax/guitarmax/Views/ContentView.swift:215-219 | with no hand points every required finger is missing |
| Scoring.PerfectHandAllCorrect | guitarmax/guitarmax/Views/ContentView.swift:229-234 | fingertips exactly on their expected points make every required finger correct |
| Scoring.FingerColorDistinguishes | guitarmax/guitarmax/Views/ContentView.swift:185-194 | two fingers with verdicts share a colour iff their verdicts are equal |
| Scoring.FingerColor | guitarmax/guitarmax/Views/ContentView.swift:185-194 | gray iff the finger has no verdict |
| Scoring.UsedOfMembership | guitarmax/guitarmax/Views/ContentView.swift:105-106 | an indicator is shown for a candidate finger iff some position uses it |
| Scoring.UsedOfIncreasing | guitarmax/guitarmax/Views/ContentView.swift:105-106 | indicators keep the candidates' increasing order |
| Scoring.UsedOf | guitarmax/guitarmax/Views/ContentView.swift:104-105 | no more indicators than candidates, each one a candidate |
| Scoring.IndicatorFingers | guitarmax/guitarmax/Views/ContentView.swift:104-116 | at most four indicators, each for a finger in 1–4 |
| Scoring.IndicatorFingersAreRequired | guitarmax/guitarmax/Views/ContentView.swift:105-116 | the indicators are exactly the required fingers among 1–4, in increasing order |
| Scoring.LessonSession.constructor | guitarmax/guitarmax/Views/ContentView.swift:12-18 | chord C, no lesson, no verdicts |
| Scoring.LessonSession.SelectChord | guitarmax/guitarmax/Views/ContentView.swift:44-50 | the menu, shown only while no lesson runs, sets the chord; no verdicts |
| Scoring.LessonSession.ToggleLesson | guitarmax/guitarmax/Views/ContentView.swift:132-141 | starting turns detection on and keeps verdicts; stopping turns detection off, empties the hand points and clears the verdicts |
| Scoring.LessonSession.OnHandPointsChanged | guitarmax/guitarmax/Views/ContentView.swift:175-182 | while a lesson runs the verdicts become the scoring of the current hand points; otherwise they are kept |
| FingerOverlays.FingertipsToTrackSpec | guitarmax/guitarmax/Views/FingerStatusOverlay.swift:81-93 | the tracked pairs come in finger order 1–4 without repeats, each with the joint the scorer uses (same code at SmartFingerOverlay.swift:106-116) |
| FingerOverlays.FingertipsToTrack | guitarmax/guitarmax/Views/FingerStatusOverlay.swift:81-93 | a table pair is tracked iff its finger is required |
| FingerOverlays.TrackedOfMembership | guitarmax/guitarmax/Views/FingerStatusOverlay.swift:92 | a table entry is kept iff its finger is required |
| FingerOverlays.TrackedOfIncreasing | guitarmax/guitarmax/Views/FingerStatusOverlay.swift:92 | filtering keeps the table's increasing finger order |
| FingerOverlays.RequiredFingersCount | guitarmax/guitarmax/Views/FingerStatusOverlay.swift:54 | with no finger used twice, the number of required fingers equals the number of positions with finger > 0 |
| FingerOverlays.PerfectIffAllCorrect | guitarmax/guitarmax/Views/FingerStatusOverlay.swift:53-65 | for verdicts on exactly the required fingers, the banner is "Perfect" iff a finger is required and every verdict is correct (same code at SmartFingerOverlay.swift:78-91) |
| FingerOverlays.ChordPerfectIffAllPlaced | guitarmax/guitarmax/Views/FingerStatusOverlay.swift:56-65 | for the scorer's verdicts on a chord, "Perfect" iff every required position is scored correct |
| FingerOverlays.Banner | guitarmax/guitarmax/Views/FingerStatusOverlay.swift:53-65 | "Perfect" iff the correct count equals the required count and that is positive; otherwise the progress banner shows those two counts |
| FingerOverlays.StatusMapsInjective | guitarmax/guitarmax/Views/FingerStatusOverlay.swift:95-109 | the colour and icon maps tell all statuses apart (same code at SmartFingerOverlay.swift:118-132) |
| FingerOverlays.StatusColor | guitarmax/guitarmax/Views/FingerStatusOverlay.swift:95-101 | never gray, and the colour of a status is the indicator colour of every finger with that verdict |
| FingerOverlays.StatusIcon | guitarmax/guitarmax/Views/FingerStatusOverlay.swift:103-109 | checkmark iff correct, xmark iff incorrect, questionmark iff missing |
| FingerOverlays.FingertipMarkersMembership | guitarmax/guitarmax/Views/FingerStatusOverlay.swift:20-31 | a fingertip circle is drawn exactly for each tracked finger whose joint is seen, at the point scaled to the view, showing its verdict or missing |
| FingerOverlays.FingertipMarkers | guitarmax/guitarmax/Views/FingerStatusOverlay.swift:20-31 | at most one circle per tracked finger, each showing that finger's verdict or missing |
| FingerOverlays.ZoneTargetsMembership | guitarmax/guitarmax/Views/SmartFingerOverlay.swift:22-26 | a target is drawn exactly for each position with fret > 0, at the mapped point scaled to the view |
| FingerOverlays.ZoneTargets | guitarmax/guitarmax/Views/SmartFingerOverlay.swift:22-26 | at most one target per finger position, each for a fretted position |

## Left out

- Vision and Core Image are not part of this model: the rectangle, contour and hand-pose requests, the `CIEdges` filter and the unused horizon request. Their results are inputs.
- Camera session setup, permissions and `deinit` in `CameraManager.swift` (lines 29-108, 184-186) are platform I/O.
- `AudioManager.swift` is not part of this model: audio I/O whose result is never used in scoring.
- Dispatch queues, `Task { @MainActor }` and `@Published` are modelled as sequential assignments. Interleavings of callbacks with `stopTracking` are not modelled.
- `CGFloat` is modelled as `real`: rounding is not modelled, and neither is `Set` treating near-equal floats as different.
- `GuitarZone.getFingerPosition` is not part of this model. `FingerOverlays.ZoneTargets` takes it as a function parameter.
- NeckOverlay.CalibrationFlow.CompleteCalibration: requires a non-zero view size. With a zero size the app divides by zero and stores infinite or NaN corners, which `real` cannot represent.
- The SwiftUI view bodies are drawing only and are left out: fonts, colours of the yellow targets, the fret labels (`GuitarNeckOverlay.swift:148-160`), the calibration step checkmarks, `getFingerName`, and the chord-diagram toggle.
- `Common.AtMostFifteenPerSecond` is proved for the tracker's gate. `CameraManager`'s gate keeps the same ghost history of passed frames and uses the same constant (15), so the same lemma applies to it.
