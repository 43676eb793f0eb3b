/** The logic shared by FingerStatusOverlay.swift and SmartFingerOverlay.swift
    (both views repeat it): which fingertips to draw, the status shown for
    each, the correct / required counts and the "Perfect" banner, the
    status colours and icons, and where the markers go on screen. */
module FingerOverlays {
  import opened Common
  import opened Geometry
  import opened Chords
  import opened Scoring

  // ---------------------------------------------------------------------------
  // Which fingertips are drawn

  /** The table entries whose finger is in `required`, in table order. */
  function TrackedOf(tips: seq<(int, Joint)>, required: set<int>): seq<(int, Joint)>
  {
    if tips == [] then []
    else (if tips[0].0 in required then [tips[0]] else []) + TrackedOf(tips[1..], required)
  }

  /** `getFingertipsToTrack`: the fingertip table filtered by the chord's
      required fingers. */
  function FingertipsToTrack(ps: seq<FingerPosition>): (r: seq<(int, Joint)>)
    ensures forall t :: t in r <==> t in FingerTips && t.0 in RequiredFingers(ps)
  {
    var r := TrackedOf(FingerTips, RequiredFingers(ps));
    assert forall t :: t in r <==> t in FingerTips && t.0 in RequiredFingers(ps) by {
      forall t
        ensures t in r <==> t in FingerTips && t.0 in RequiredFingers(ps)
      {
        TrackedOfMembership(FingerTips, RequiredFingers(ps), t);
      }
    }
    r
  }

  lemma {:induction false} TrackedOfMembership(tips: seq<(int, Joint)>, required: set<int>, t: (int, Joint))
    ensures t in TrackedOf(tips, required) <==> t in tips && t.0 in required
  {
    if tips != [] {
      TrackedOfMembership(tips[1..], required, t);
      assert t in tips <==> t == tips[0] || t in tips[1..];
    }
  }

  lemma {:induction false} TrackedOfIncreasing(tips: seq<(int, Joint)>, required: set<int>)
    requires forall i, j :: 0 <= i < j < |tips| ==> tips[i].0 < tips[j].0
    ensures forall i, j :: 0 <= i < j < |TrackedOf(tips, required)| ==>
              TrackedOf(tips, required)[i].0 < TrackedOf(tips, required)[j].0
  {
    if tips != [] {
      var rest := tips[1..];
      TrackedOfIncreasing(rest, required);
      var r := TrackedOf(rest, required);
      forall t | t in r
        ensures tips[0].0 < t.0
      {
        TrackedOfMembership(rest, required, t);
        var k :| 0 <= k < |rest| && rest[k] == t;
        assert t == tips[k + 1];
      }
      var u := TrackedOf(tips, required);
      if tips[0].0 in required {
        assert u == [tips[0]] + r;
        forall i, j | 0 <= i < j < |u|
          ensures u[i].0 < u[j].0
        {
          assert u[j] == r[j - 1] && u[j] in r;
          if i > 0 {
            assert u[i] == r[i - 1];
          }
        }
      } else {
        assert u == r;
      }
    }
  }

  /** The tracked fingertips come in increasing finger order (so each at
      most once), and each entry's joint is the one the scorer looks up for
      that finger. */
  lemma FingertipsToTrackSpec(ps: seq<FingerPosition>)
    ensures forall i, j :: 0 <= i < j < |FingertipsToTrack(ps)| ==> FingertipsToTrack(ps)[i].0 < FingertipsToTrack(ps)[j].0
    ensures forall t :: t in FingertipsToTrack(ps) ==> TipJoint(t.0) == Some(t.1)
  {
    TrackedOfIncreasing(FingerTips, RequiredFingers(ps));
    forall t | t in FingerTips
      ensures TipJoint(t.0) == Some(t.1)
    {
      TipJointTable(t.0);
    }
  }

  // ---------------------------------------------------------------------------
  // Status, counts and the banner

  /** `fingerStatus[finger] ?? .missing`. */
  function DisplayedStatus(fingerStatus: map<int, FingerStatus>, finger: int): FingerStatus
  {
    if finger in fingerStatus then fingerStatus[finger] else Missing
  }

  /** The fingers whose verdict is correct. */
  function CorrectFingers(fingerStatus: map<int, FingerStatus>): set<int>
  {
    set f | f in fingerStatus && fingerStatus[f] == Correct
  }

  /** `fingerStatus.values.filter { $0 == .correct }.count`. */
  function CorrectCount(fingerStatus: map<int, FingerStatus>): nat
  {
    |CorrectFingers(fingerStatus)|
  }

  /** `fingerPositions.filter { $0.finger > 0 }.count`. */
  function TotalRequired(ps: seq<FingerPosition>): nat
  {
    RequiredCount(ps)
  }

  datatype StatusBanner = Perfect | Progress(correct: nat, total: nat)

  /** The banner at the top: "Perfect" when every required finger is
      counted correct and at least one is required, otherwise "N/M". */
  function Banner(fingerStatus: map<int, FingerStatus>, ps: seq<FingerPosition>): (b: StatusBanner)
    ensures b == Perfect <==> CorrectCount(fingerStatus) == TotalRequired(ps) > 0
    ensures b.Progress? ==> b.correct == CorrectCount(fingerStatus) && b.total == TotalRequired(ps)
  {
    var correctCount := CorrectCount(fingerStatus);
    var totalRequired := TotalRequired(ps);
    if correctCount == totalRequired && totalRequired > 0 then Perfect
    else Progress(correctCount, totalRequired)
  }

  /** A subset is no larger than its superset, and one as large is equal. */
  lemma SubsetCardinality(a: set<int>, b: set<int>)
    requires a <= b
    ensures |a| <= |b|
    ensures |a| == |b| ==> a == b
  {
    var rest := b - a;
    assert a + rest == b;
    assert a * rest == {};
    if |a| == |b| {
      assert |rest| == 0;
    }
  }

  /** The required fingers of a fingering are those of all but its last
      position, plus the last position's finger when it has one. */
  lemma RequiredFingersSnoc(ps: seq<FingerPosition>)
    requires ps != []
    ensures var last := ps[|ps| - 1];
            RequiredFingers(ps) == RequiredFingers(ps[..|ps| - 1]) + (if last.finger > 0 then {last.finger} else {})
  {
    var init := ps[..|ps| - 1];
    var last := ps[|ps| - 1];
    forall f | f in RequiredFingers(ps)
      ensures f in RequiredFingers(init) || (last.finger > 0 && f == last.finger)
    {
      var i :| 0 <= i < |ps| && ps[i].finger > 0 && ps[i].finger == f;
      if i < |init| {
        assert init[i] == ps[i];
      }
    }
    forall f | f in RequiredFingers(init)
      ensures f in RequiredFingers(ps)
    {
      var i :| 0 <= i < |init| && init[i].finger > 0 && init[i].finger == f;
      assert ps[i] == init[i];
    }
  }

  /** With no finger used twice there are as many required fingers as
      positions that need a finger. */
  lemma {:induction false} RequiredFingersCount(ps: seq<FingerPosition>)
    requires DistinctFingers(ps)
    ensures |RequiredFingers(ps)| == RequiredCount(ps)
  {
    if ps != [] {
      var init := ps[..|ps| - 1];
      var last := ps[|ps| - 1];
      assert DistinctFingers(init) by {
        assert forall k :: 0 <= k < |init| ==> init[k] == ps[k];
      }
      RequiredFingersCount(init);
      RequiredFingersSnoc(ps);
      if last.finger > 0 {
        forall k | 0 <= k < |init| && init[k].finger > 0
          ensures init[k].finger != last.finger
        {
          assert init[k] == ps[k];
        }
        assert last.finger !in RequiredFingers(init);
      }
    }
  }

  /** For verdicts covering exactly the required fingers of a fingering that
      uses no finger twice, the banner says "Perfect" exactly when some
      finger is required and every verdict is correct. */
  lemma PerfectIffAllCorrect(fingerStatus: map<int, FingerStatus>, ps: seq<FingerPosition>)
    requires DistinctFingers(ps)
    requires fingerStatus.Keys == RequiredFingers(ps)
    ensures Banner(fingerStatus, ps) == Perfect <==>
              RequiredFingers(ps) != {} && forall f :: f in fingerStatus ==> fingerStatus[f] == Correct
  {
    RequiredFingersCount(ps);
    SubsetCardinality(CorrectFingers(fingerStatus), fingerStatus.Keys);
    if forall f :: f in fingerStatus ==> fingerStatus[f] == Correct {
      assert CorrectFingers(fingerStatus) == fingerStatus.Keys;
    }
    if CorrectFingers(fingerStatus) == fingerStatus.Keys {
      forall f | f in fingerStatus
        ensures fingerStatus[f] == Correct
      {
        assert f in CorrectFingers(fingerStatus);
      }
    }
    if RequiredFingers(ps) == {} {
      assert RequiredCount(ps) == 0;
    }
  }

  /** For the verdicts the scorer gives for a chord: "Perfect" exactly when
      every required position is scored correct. */
  lemma ChordPerfectIffAllPlaced(c: Chord, handPoints: map<Joint, Point>)
    ensures Banner(Placement(FingerPositions(c), handPoints), FingerPositions(c)) == Perfect <==>
              forall i :: 0 <= i < |FingerPositions(c)| && FingerPositions(c)[i].finger > 0 ==>
                StatusFor(FingerPositions(c)[i], handPoints) == Correct
  {
    var ps := FingerPositions(c);
    var m := Placement(ps, handPoints);
    ChordWellFormed(c);
    PlacementKeys(ps, handPoints);
    PerfectIffAllCorrect(m, ps);
    ChordRequiredCount(c);
    RequiredFingersCount(ps);
    assert RequiredFingers(ps) != {};
    forall i | 0 <= i < |ps| && ps[i].finger > 0
      ensures m[ps[i].finger] == StatusFor(ps[i], handPoints)
    {
      PlacementValues(ps, handPoints, i);
    }
    if forall i :: 0 <= i < |ps| && ps[i].finger > 0 ==> StatusFor(ps[i], handPoints) == Correct {
      forall f | f in m
        ensures m[f] == Correct
      {
        var i :| 0 <= i < |ps| && ps[i].finger > 0 && ps[i].finger == f;
      }
    }
  }

  // ---------------------------------------------------------------------------
  // Colours and icons

  /** `getStatusColor`: never the gray of "no verdict", and the same colour
      the lesson screen gives a finger with this verdict. */
  function StatusColor(s: FingerStatus): (c: Color)
    ensures c != Gray
    ensures forall fingerStatus: map<int, FingerStatus>, f :: f in fingerStatus && fingerStatus[f] == s ==>
              FingerColor(fingerStatus, f) == c
  {
    match s
    case Correct => Green
    case Incorrect => Red
    case Missing => Orange
  }

  /** `getStatusIcon`: the SF Symbol name, a check mark exactly for a correct
      finger, a cross exactly for an incorrect one, a question mark exactly
      for a missing one. */
  function StatusIcon(s: FingerStatus): (icon: string)
    ensures icon == "checkmark" <==> s == Correct
    ensures icon == "xmark" <==> s == Incorrect
    ensures icon == "questionmark" <==> s == Missing
  {
    match s
    case Correct => "checkmark"
    case Incorrect => "xmark"
    case Missing => "questionmark"
  }

  /** Both maps tell every status apart. */
  lemma StatusMapsInjective(a: FingerStatus, b: FingerStatus)
    ensures StatusColor(a) == StatusColor(b) ==> a == b
    ensures StatusIcon(a) == StatusIcon(b) ==> a == b
  {
    assert StatusIcon(Correct)[0] == 'c' && StatusIcon(Incorrect)[0] == 'x' && StatusIcon(Missing)[0] == 'q';
  }

  // ---------------------------------------------------------------------------
  // Markers

  /** A fingertip circle: the finger, where it is drawn, the status shown. */
  datatype FingertipMarker = FingertipMarker(finger: int, at: Point, status: FingerStatus)

  /** The fingertip circles: one per tracked fingertip whose joint is in the
      hand points, at the point scaled to the view. */
  function FingertipMarkers(tracked: seq<(int, Joint)>, handPoints: map<Joint, Point>,
                            fingerStatus: map<int, FingerStatus>, size: Size): (ms: seq<FingertipMarker>)
    ensures |ms| <= |tracked|
    ensures forall m :: m in ms ==> m.status == DisplayedStatus(fingerStatus, m.finger)
  {
    if tracked == [] then []
    else
      var item := tracked[|tracked| - 1];
      FingertipMarkers(tracked[..|tracked| - 1], handPoints, fingerStatus, size) +
        (if item.1 in handPoints
         then [FingertipMarker(item.0, ScaleToView(handPoints[item.1], size), DisplayedStatus(fingerStatus, item.0))]
         else [])
  }

  /** A fingertip circle is drawn exactly for each tracked fingertip the
      camera sees, scaled to the view and showing its displayed status. */
  lemma {:induction false} FingertipMarkersMembership(tracked: seq<(int, Joint)>, handPoints: map<Joint, Point>,
                                                      fingerStatus: map<int, FingerStatus>, size: Size, m: FingertipMarker)
    ensures m in FingertipMarkers(tracked, handPoints, fingerStatus, size) <==>
              exists t :: t in tracked && t.1 in handPoints &&
                m == FingertipMarker(t.0, ScaleToView(handPoints[t.1], size), DisplayedStatus(fingerStatus, t.0))
  {
    if tracked != [] {
      var init := tracked[..|tracked| - 1];
      var item := tracked[|tracked| - 1];
      FingertipMarkersMembership(init, handPoints, fingerStatus, size, m);
      assert forall t :: t in tracked <==> t in init || t == item;
    }
  }

  /** A yellow target of SmartFingerOverlay: where it is drawn, the finger
      and the fret it shows. */
  datatype ZoneTarget = ZoneTarget(at: Point, finger: int, fret: int)

  /** The targets of SmartFingerOverlay, one per position with a fret above
      0, in position order. `fingerPosition` stands for
      `GuitarZone.getFingerPosition(fret:string:)`, whose definition is not
      part of this model; its normalised result is scaled to the view. */
  function ZoneTargets(ps: seq<FingerPosition>, fingerPosition: (int, int) -> Point, size: Size): (ts: seq<ZoneTarget>)
    ensures |ts| <= |ps|
    ensures forall t :: t in ts ==> t.fret > 0
  {
    if ps == [] then []
    else
      var p := ps[|ps| - 1];
      ZoneTargets(ps[..|ps| - 1], fingerPosition, size) +
        (if p.fret > 0 then [ZoneTarget(ScaleToView(fingerPosition(p.fret, p.stringNumber), size), p.finger, p.fret)] else [])
  }

  /** A target is drawn exactly for each fretted position, at its mapped
      point scaled to the view. */
  lemma {:induction false} ZoneTargetsMembership(ps: seq<FingerPosition>, fingerPosition: (int, int) -> Point, size: Size, t: ZoneTarget)
    ensures t in ZoneTargets(ps, fingerPosition, size) <==>
              exists i :: 0 <= i < |ps| && ps[i].fret > 0 &&
                t == ZoneTarget(ScaleToView(fingerPosition(ps[i].fret, ps[i].stringNumber), size), ps[i].finger, ps[i].fret)
  {
    if ps != [] {
      var init := ps[..|ps| - 1];
      ZoneTargetsMembership(init, fingerPosition, size, t);
      assert forall i :: 0 <= i < |init| ==> init[i] == ps[i];
      if exists i :: 0 <= i < |ps| && ps[i].fret > 0 &&
           t == ZoneTarget(ScaleToView(fingerPosition(ps[i].fret, ps[i].stringNumber), size), ps[i].finger, ps[i].fret) {
        var i :| 0 <= i < |ps| && ps[i].fret > 0 &&
           t == ZoneTarget(ScaleToView(fingerPosition(ps[i].fret, ps[i].stringNumber), size), ps[i].finger, ps[i].fret);
        if i < |init| {
          assert t in ZoneTargets(init, fingerPosition, size);
        }
      }
    }
  }
}
