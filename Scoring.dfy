/** The finger-placement scorer of ContentView.swift and the lesson state
    around it: which fingertip a finger number is, where a fretted position
    is expected on a fixed grid, the per-finger verdict, the colour of a
    finger's indicator, and the start/stop and rescoring triggers. */
module Scoring {
  import opened Common
  import opened Geometry
  import opened Chords
  import opened Camera

  datatype FingerStatus = Correct | Incorrect | Missing

  datatype Color = Green | Red | Orange | Gray

  /** The fingertip table: finger 1 is the index tip, 2 the middle tip, 3 the
      ring tip, 4 the little tip. */
  const FingerTips: seq<(int, Joint)> := [(1, IndexTip), (2, MiddleTip), (3, RingTip), (4, LittleTip)]

  /** `fingerTips.first(where: { $0.finger == finger })?.joint`. */
  function FirstJoint(tips: seq<(int, Joint)>, finger: int): Option<Joint>
  {
    if tips == [] then None
    else if tips[0].0 == finger then Some(tips[0].1)
    else FirstJoint(tips[1..], finger)
  }

  function TipJoint(finger: int): Option<Joint>
  {
    FirstJoint(FingerTips, finger)
  }

  /** Only fingers 1 to 4 have a fingertip, and each has its own. */
  lemma TipJointTable(finger: int)
    ensures TipJoint(finger).Some? <==> 1 <= finger <= 4
    ensures finger == 1 ==> TipJoint(finger) == Some(IndexTip)
    ensures finger == 2 ==> TipJoint(finger) == Some(MiddleTip)
    ensures finger == 3 ==> TipJoint(finger) == Some(RingTip)
    ensures finger == 4 ==> TipJoint(finger) == Some(LittleTip)
  {
    var t := FingerTips;
    assert FirstJoint(t[1..][1..][1..][1..], finger) == None;
    assert FirstJoint(t[1..][1..][1..], finger) == if finger == 4 then Some(LittleTip) else None;
    assert FirstJoint(t[1..][1..], finger) == if finger == 3 then Some(RingTip) else FirstJoint(t[1..][1..][1..], finger);
    assert FirstJoint(t[1..], finger) == if finger == 2 then Some(MiddleTip) else FirstJoint(t[1..][1..], finger);
  }

  const Tolerance: real := 0.15

  /** Where a position is expected, on a fixed grid that does not use the
      tracked zone: frets 0..4 across 0.2..0.8 in X, strings 6..1 across
      0.2..0.8 in Y, so a position on the neck lies in that square. */
  function ExpectedPoint(p: FingerPosition): (q: Point)
    ensures 0 <= p.fret <= 4 && 1 <= p.stringNumber <= 6 ==> 0.2 <= q.x <= 0.8 && 0.2 <= q.y <= 0.8
  {
    Point(0.2 + (0.6 * (p.fret as real) / 4.0), 0.2 + (0.6 * ((6 - p.stringNumber) as real) / 5.0))
  }

  /** Both coordinate errors are strictly below the tolerance; a per-axis
      box test, not a distance. */
  predicate WithinTolerance(tip: Point, expected: Point)
  {
    Abs(tip.x - expected.x) < Tolerance && Abs(tip.y - expected.y) < Tolerance
  }

  /** The verdict for one required position: missing when the finger has no
      fingertip or its tip is not seen; correct when the seen tip is strictly
      within 0.15 of the expected point on both axes; incorrect otherwise. */
  function StatusFor(p: FingerPosition, handPoints: map<Joint, Point>): (r: FingerStatus)
    ensures r != Missing ==> 1 <= p.finger <= 4
    ensures r == Missing <==> TipJoint(p.finger).None? || TipJoint(p.finger).value !in handPoints
    ensures r == Correct <==>
              && TipJoint(p.finger).Some?
              && TipJoint(p.finger).value in handPoints
              && Abs(handPoints[TipJoint(p.finger).value].x - ExpectedPoint(p).x) < 0.15
              && Abs(handPoints[TipJoint(p.finger).value].y - ExpectedPoint(p).y) < 0.15
  {
    TipJointTable(p.finger);
    match TipJoint(p.finger)
    case None => Missing
    case Some(joint) =>
      if joint !in handPoints then Missing
      else if WithinTolerance(handPoints[joint], ExpectedPoint(p)) then Correct
      else Incorrect
  }

  /** For fingers 1 to 4 the verdict reads the finger's own row of the
      fingertip table: missing iff that tip is not seen, correct iff it is
      seen strictly within the tolerance on both axes. */
  lemma StatusForOwnTip(p: FingerPosition, handPoints: map<Joint, Point>)
    requires 1 <= p.finger <= 4
    ensures var tip := FingerTips[p.finger - 1].1;
      && (StatusFor(p, handPoints) == Missing <==> tip !in handPoints)
      && (StatusFor(p, handPoints) == Correct <==> tip in handPoints && WithinTolerance(handPoints[tip], ExpectedPoint(p)))
      && (StatusFor(p, handPoints) == Incorrect <==> tip in handPoints && !WithinTolerance(handPoints[tip], ExpectedPoint(p)))
  {
    TipJointTable(p.finger);
  }

  /** The verdicts the loop has written after the positions in `ps`: a later
      position with the same finger overwrites an earlier one. */
  function Placement(ps: seq<FingerPosition>, handPoints: map<Joint, Point>): (m: map<int, FingerStatus>)
    ensures forall f :: f in m ==> f > 0
  {
    if ps == [] then map[]
    else
      var last := ps[|ps| - 1];
      var m := Placement(ps[..|ps| - 1], handPoints);
      if last.finger > 0 then m[last.finger := StatusFor(last, handPoints)] else m
  }

  /** The finger numbers of the positions that need a finger. */
  function RequiredFingers(ps: seq<FingerPosition>): set<int>
  {
    set i | 0 <= i < |ps| && ps[i].finger > 0 :: ps[i].finger
  }

  /** The verdicts cover exactly the required fingers. */
  lemma {:induction false} PlacementKeys(ps: seq<FingerPosition>, handPoints: map<Joint, Point>)
    ensures Placement(ps, handPoints).Keys == RequiredFingers(ps)
  {
    if ps != [] {
      var init := ps[..|ps| - 1];
      PlacementKeys(init, handPoints);
      assert forall i :: 0 <= i < |init| ==> init[i] == ps[i];
      var last := ps[|ps| - 1];
      forall f | f in RequiredFingers(ps)
        ensures f in Placement(ps, handPoints).Keys
      {
        var i :| 0 <= i < |ps| && ps[i].finger > 0 && ps[i].finger == f;
        if i < |init| {
          assert f in RequiredFingers(init);
        }
      }
      forall f | f in Placement(ps, handPoints).Keys
        ensures f in RequiredFingers(ps)
      {
        if f in RequiredFingers(init) {
          var i :| 0 <= i < |init| && init[i].finger > 0 && init[i].finger == f;
          assert ps[i].finger == f;
        } else {
          assert ps[|ps| - 1].finger == f;
        }
      }
    }
  }

  /** When no two positions share a finger, each required finger's verdict is
      the verdict for its own position. */
  lemma {:induction false} PlacementValues(ps: seq<FingerPosition>, handPoints: map<Joint, Point>, i: nat)
    requires DistinctFingers(ps)
    requires i < |ps| && ps[i].finger > 0
    ensures ps[i].finger in Placement(ps, handPoints)
    ensures Placement(ps, handPoints)[ps[i].finger] == StatusFor(ps[i], handPoints)
  {
    var init := ps[..|ps| - 1];
    var last := ps[|ps| - 1];
    assert forall k :: 0 <= k < |init| ==> init[k] == ps[k];
    if i < |init| {
      assert DistinctFingers(init);
      PlacementValues(init, handPoints, i);
      assert last.finger != ps[i].finger;
    }
  }

  /** `analyzeFingerPlacement`: one verdict per required finger, in a loop
      over the chord's positions. */
  method AnalyzeFingerPlacement(handPoints: map<Joint, Point>, chord: Chord) returns (status: map<int, FingerStatus>)
    ensures status == Placement(FingerPositions(chord), handPoints)
    ensures status.Keys == RequiredFingers(FingerPositions(chord))
    ensures forall i :: 0 <= i < |FingerPositions(chord)| && FingerPositions(chord)[i].finger > 0 ==>
              status[FingerPositions(chord)[i].finger] == StatusFor(FingerPositions(chord)[i], handPoints)
  {
    var ps := FingerPositions(chord);
    status := map[];
    for i := 0 to |ps|
      invariant status == Placement(ps[..i], handPoints)
    {
      var position := ps[i];
      assert ps[..i + 1][..i] == ps[..i];
      if position.finger > 0 {
        var finger := position.finger;
        var joint := TipJoint(finger);
        if joint.None? || joint.value !in handPoints {
          status := status[finger := Missing];
          continue;
        }
        var tipPosition := handPoints[joint.value];
        var expected := ExpectedPoint(position);
        var fretMatch := Abs(tipPosition.x - expected.x) < Tolerance;
        var stringMatch := Abs(tipPosition.y - expected.y) < Tolerance;
        if fretMatch && stringMatch {
          status := status[finger := Correct];
        } else {
          status := status[finger := Incorrect];
        }
      }
    }
    assert ps[..|ps|] == ps;
    PlacementKeys(ps, handPoints);
    ChordWellFormed(chord);
    forall i | 0 <= i < |ps| && ps[i].finger > 0
      ensures status[ps[i].finger] == StatusFor(ps[i], handPoints)
    {
      PlacementValues(ps, handPoints, i);
    }
  }

  /** With no hand in view every required finger is missing. */
  lemma NoHandAllMissing(c: Chord, i: nat)
    requires i < |FingerPositions(c)| && FingerPositions(c)[i].finger > 0
    ensures var m := Placement(FingerPositions(c), map[]);
      FingerPositions(c)[i].finger in m && m[FingerPositions(c)[i].finger] == Missing
  {
    ChordWellFormed(c);
    PlacementValues(FingerPositions(c), map[], i);
  }

  /** A hand whose fingertips sit exactly on the expected points of a
      chord's required positions scores every required finger correct. */
  lemma PerfectHandAllCorrect(c: Chord, handPoints: map<Joint, Point>, i: nat)
    requires forall k :: 0 <= k < |FingerPositions(c)| && FingerPositions(c)[k].finger > 0 ==>
               var tip := TipJoint(FingerPositions(c)[k].finger);
               tip.Some? && tip.value in handPoints && handPoints[tip.value] == ExpectedPoint(FingerPositions(c)[k])
    requires i < |FingerPositions(c)| && FingerPositions(c)[i].finger > 0
    ensures var m := Placement(FingerPositions(c), handPoints);
      FingerPositions(c)[i].finger in m && m[FingerPositions(c)[i].finger] == Correct
  {
    ChordWellFormed(c);
    PlacementValues(FingerPositions(c), handPoints, i);
  }

  /** `getFingerColor`: gray with no verdict, otherwise green, red or orange
      for correct, incorrect and missing. */
  function FingerColor(fingerStatus: map<int, FingerStatus>, finger: int): (c: Color)
    ensures c == Gray <==> finger !in fingerStatus
  {
    if finger !in fingerStatus then Gray
    else
      match fingerStatus[finger]
      case Correct => Green
      case Incorrect => Red
      case Missing => Orange
  }

  /** The indicator colour tells the verdicts apart: two fingers with
      verdicts share a colour exactly when they share a verdict. */
  lemma FingerColorDistinguishes(fingerStatus: map<int, FingerStatus>, f: int, g: int)
    ensures f in fingerStatus && g in fingerStatus ==>
              (FingerColor(fingerStatus, f) == FingerColor(fingerStatus, g) <==> fingerStatus[f] == fingerStatus[g])
  {
  }

  /** Whether some position of the chord uses `finger`
      (`fingerPositions.contains(where: { $0.finger == finger })`). */
  predicate UsesFinger(ps: seq<FingerPosition>, finger: int)
  {
    exists i :: 0 <= i < |ps| && ps[i].finger == finger
  }

  /** The candidates, in order, that the chord uses. */
  function UsedOf(candidates: seq<int>, ps: seq<FingerPosition>): (r: seq<int>)
    ensures |r| <= |candidates| && forall f :: f in r ==> f in candidates
  {
    if candidates == [] then []
    else (if UsesFinger(ps, candidates[0]) then [candidates[0]] else []) + UsedOf(candidates[1..], ps)
  }

  /** The indicator row under the chord name: of fingers 1, 2, 3, 4, those
      the chord uses, each coloured by `FingerColor`. */
  function IndicatorFingers(ps: seq<FingerPosition>): (r: seq<int>)
    ensures |r| <= 4 && forall f :: f in r ==> 1 <= f <= 4
  {
    UsedOf([1, 2, 3, 4], ps)
  }

  lemma {:induction false} UsedOfMembership(candidates: seq<int>, ps: seq<FingerPosition>, f: int)
    ensures f in UsedOf(candidates, ps) <==> f in candidates && UsesFinger(ps, f)
  {
    if candidates != [] {
      UsedOfMembership(candidates[1..], ps, f);
      assert f in candidates <==> f == candidates[0] || f in candidates[1..];
    }
  }

  lemma {:induction false} UsedOfIncreasing(candidates: seq<int>, ps: seq<FingerPosition>)
    requires forall i, j :: 0 <= i < j < |candidates| ==> candidates[i] < candidates[j]
    ensures forall i, j :: 0 <= i < j < |UsedOf(candidates, ps)| ==> UsedOf(candidates, ps)[i] < UsedOf(candidates, ps)[j]
  {
    if candidates != [] {
      var rest := candidates[1..];
      UsedOfIncreasing(rest, ps);
      var r := UsedOf(rest, ps);
      forall f | f in r
        ensures candidates[0] < f
      {
        UsedOfMembership(rest, ps, f);
        var k :| 0 <= k < |rest| && rest[k] == f;
        assert f == candidates[k + 1];
      }
      var u := UsedOf(candidates, ps);
      if UsesFinger(ps, candidates[0]) {
        assert u == [candidates[0]] + r;
        forall i, j | 0 <= i < j < |u|
          ensures u[i] < u[j]
        {
          assert u[j] == r[j - 1] && u[j] in r;
          if i > 0 {
            assert u[i] == r[i - 1];
          }
        }
      } else {
        assert u == r;
      }
    }
  }

  /** The indicators are the required fingers 1 to 4, in increasing order,
      each once. */
  lemma IndicatorFingersAreRequired(ps: seq<FingerPosition>)
    ensures forall f :: f in IndicatorFingers(ps) <==> 1 <= f <= 4 && f in RequiredFingers(ps)
    ensures forall i, j :: 0 <= i < j < |IndicatorFingers(ps)| ==> IndicatorFingers(ps)[i] < IndicatorFingers(ps)[j]
  {
    forall f
      ensures f in IndicatorFingers(ps) <==> 1 <= f <= 4 && f in RequiredFingers(ps)
    {
      UsedOfMembership([1, 2, 3, 4], ps, f);
      if 1 <= f <= 4 && f in RequiredFingers(ps) {
        var i :| 0 <= i < |ps| && ps[i].finger > 0 && ps[i].finger == f;
        assert UsesFinger(ps, f);
      }
      if f in IndicatorFingers(ps) {
        var i :| 0 <= i < |ps| && ps[i].finger == f;
        assert f in [1, 2, 3, 4];
        assert ps[i].finger > 0;
      }
    }
    UsedOfIncreasing([1, 2, 3, 4], ps);
  }

  /** The lesson screen's state: the chosen chord, the lesson flag, the
      verdicts, and the camera manager it drives. */
  class LessonSession {
    var selectedChord: Chord
    var isLessonActive: bool
    var fingerStatus: map<int, FingerStatus>
    const cameraManager: CameraManager

    ghost predicate Valid()
      reads this, cameraManager
    {
      && cameraManager.Valid()
      && (!isLessonActive ==> fingerStatus == map[])
      && (fingerStatus == map[] || fingerStatus.Keys == RequiredFingers(FingerPositions(selectedChord)))
    }

    constructor (camera: CameraManager)
      requires camera.Valid()
      ensures Valid()
      ensures selectedChord == C && !isLessonActive && fingerStatus == map[] && cameraManager == camera
    {
      selectedChord := C;
      isLessonActive := false;
      fingerStatus := map[];
      cameraManager := camera;
    }

    /** The chord menu, shown only while no lesson runs. */
    method SelectChord(chord: Chord)
      requires Valid() && !isLessonActive
      modifies this
      ensures Valid()
      ensures selectedChord == chord && !isLessonActive && fingerStatus == map[]
    {
      selectedChord := chord;
    }

    /** The Start / Stop button: starting turns hand detection on; stopping
        turns it off, which clears the hand points, and clears the verdicts. */
    method ToggleLesson()
      requires Valid()
      modifies this, cameraManager
      ensures Valid()
      ensures isLessonActive == !old(isLessonActive)
      ensures selectedChord == old(selectedChord)
      ensures cameraManager.isDetecting == isLessonActive
      ensures isLessonActive ==> fingerStatus == old(fingerStatus)
      ensures !isLessonActive ==> fingerStatus == map[] && cameraManager.detectedHandPoints == map[]
    {
      isLessonActive := !isLessonActive;
      if isLessonActive {
        cameraManager.StartDetection();
      } else {
        cameraManager.StopDetection();
        fingerStatus := map[];
      }
    }

    /** `onChange(of: detectedHandPoints)`: rescored only during a lesson. */
    method OnHandPointsChanged()
      requires Valid()
      modifies this
      ensures Valid()
      ensures old(isLessonActive) ==> fingerStatus == Placement(FingerPositions(selectedChord), cameraManager.detectedHandPoints)
      ensures !old(isLessonActive) ==> fingerStatus == old(fingerStatus)
      ensures selectedChord == old(selectedChord) && isLessonActive == old(isLessonActive)
    {
      if isLessonActive {
        var status := AnalyzeFingerPlacement(cameraManager.detectedHandPoints, selectedChord);
        fingerStatus := status;
      }
    }
  }
}
