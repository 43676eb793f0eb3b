/** The perspective calibration of GuitarNeckOverlay.swift: four tapped
    corners of the neck, the fret-to-X and string-to-Y interpolation over
    them, the tap / reset / done flow that collects the corners, and the
    chord targets placed with a calibration. */
module NeckOverlay {
  import opened Common
  import opened Geometry
  import opened Chords

  /** The four corners, normalised to the view: top is the low E string,
      left is the nut, right is the fourth fret. */
  datatype OverlayCalibration = OverlayCalibration(topLeft: Point, topRight: Point, bottomRight: Point, bottomLeft: Point)

  /** `getFretX`: interpolates the top and the bottom edge at `fret / 4`,
      averages the two, and scales by the view width. Averaging the two
      interpolated edges is interpolating between the edge midpoints: X
      moves from the nut midpoint to the fourth-fret midpoint in four equal
      steps. */
  function FretX(cal: OverlayCalibration, fret: int, size: Size): (x: real)
    ensures x == (NutX(cal) + (FourthFretX(cal) - NutX(cal)) * (fret as real) / 4.0) * size.width
  {
    var fretRatio := (fret as real) / 4.0;
    var topX := cal.topLeft.x + (cal.topRight.x - cal.topLeft.x) * fretRatio;
    var bottomX := cal.bottomLeft.x + (cal.bottomRight.x - cal.bottomLeft.x) * fretRatio;
    var normalizedX := (topX + bottomX) / 2.0;
    normalizedX * size.width
  }

  /** `getStringY`: interpolates the left and the right edge at
      `(6 - string) / 5`, averages the two, and scales by the view height.
      Y moves from the low-E midpoint (string 6) to the high-E midpoint
      (string 1) in five equal steps. */
  function StringY(cal: OverlayCalibration, stringNumber: int, size: Size): (y: real)
    ensures y == (LowEY(cal) + (HighEY(cal) - LowEY(cal)) * ((6 - stringNumber) as real) / 5.0) * size.height
  {
    var stringRatio := ((6 - stringNumber) as real) / 5.0;
    var leftY := cal.topLeft.y + (cal.bottomLeft.y - cal.topLeft.y) * stringRatio;
    var rightY := cal.topRight.y + (cal.bottomRight.y - cal.topRight.y) * stringRatio;
    var normalizedY := (leftY + rightY) / 2.0;
    normalizedY * size.height
  }

  /** The midpoint of the nut edge and of the fourth-fret edge, in X. */
  function NutX(cal: OverlayCalibration): real { (cal.topLeft.x + cal.bottomLeft.x) / 2.0 }
  function FourthFretX(cal: OverlayCalibration): real { (cal.topRight.x + cal.bottomRight.x) / 2.0 }

  /** The midpoint of the low-E edge and of the high-E edge, in Y. */
  function LowEY(cal: OverlayCalibration): real { (cal.topLeft.y + cal.topRight.y) / 2.0 }
  function HighEY(cal: OverlayCalibration): real { (cal.bottomLeft.y + cal.bottomRight.y) / 2.0 }

  /** Fret 0 lies at the nut midpoint, fret 4 at the fourth-fret midpoint. */
  lemma FretXEnds(cal: OverlayCalibration, size: Size)
    ensures FretX(cal, 0, size) == NutX(cal) * size.width
    ensures FretX(cal, 4, size) == FourthFretX(cal) * size.width
  {
  }

  /** String 6 lies on the low-E midpoint, string 1 on the high-E midpoint. */
  lemma StringYEnds(cal: OverlayCalibration, size: Size)
    ensures StringY(cal, 6, size) == LowEY(cal) * size.height
    ensures StringY(cal, 1, size) == HighEY(cal) * size.height
  {
  }

  /** Every fret moves X by the same amount, a quarter of the span. */
  lemma FretXEqualSteps(cal: OverlayCalibration, fret: int, size: Size)
    ensures FretX(cal, fret + 1, size) - FretX(cal, fret, size) ==
            (FourthFretX(cal) - NutX(cal)) / 4.0 * size.width
  {
    var d := FourthFretX(cal) - NutX(cal);
    assert d * ((fret + 1) as real) / 4.0 == d * (fret as real) / 4.0 + d / 4.0;
  }

  /** Every string moves Y by the same amount, a fifth of the span. */
  lemma StringYEqualSteps(cal: OverlayCalibration, stringNumber: int, size: Size)
    ensures StringY(cal, stringNumber - 1, size) - StringY(cal, stringNumber, size) ==
            (HighEY(cal) - LowEY(cal)) / 5.0 * size.height
  {
    var d := HighEY(cal) - LowEY(cal);
    assert d * ((6 - (stringNumber - 1)) as real) / 5.0 == d * ((6 - stringNumber) as real) / 5.0 + d / 5.0;
  }

  /** In a view of positive width, a higher fret lies further right exactly
      when the fourth-fret edge lies right of the nut edge. */
  lemma FretXIncreasing(cal: OverlayCalibration, f: int, g: int, size: Size)
    requires size.width > 0.0 && f < g
    ensures FretX(cal, f, size) < FretX(cal, g, size) <==> FourthFretX(cal) > NutX(cal)
  {
    var d := FourthFretX(cal) - NutX(cal);
    var k := ((g - f) as real) / 4.0;
    assert k > 0.0;
    assert FretX(cal, g, size) - FretX(cal, f, size) == d * k * size.width;
    if d > 0.0 {
      assert d * k > 0.0;
      assert d * k * size.width > 0.0;
    } else {
      assert d * k <= 0.0;
      assert d * k * size.width <= 0.0;
    }
  }

  /** `defaultCalibration`: the corners (0.15, 0.25), (0.75, 0.25),
      (0.75, 0.75), (0.15, 0.75). */
  const DefaultCalibration: OverlayCalibration := OverlayCalibration(
    topLeft := Point(0.15, 0.25),
    topRight := Point(0.75, 0.25),
    bottomRight := Point(0.75, 0.75),
    bottomLeft := Point(0.15, 0.75))

  /** With the default corners fret `f` lies at (0.15 + 0.15 f) widths and
      string `s` at (0.25 + 0.1 (6 - s)) heights. */
  lemma DefaultCalibrationPositions(fret: int, stringNumber: int, size: Size)
    ensures FretX(DefaultCalibration, fret, size) == (0.15 + 0.15 * (fret as real)) * size.width
    ensures StringY(DefaultCalibration, stringNumber, size) == (0.25 + 0.1 * ((6 - stringNumber) as real)) * size.height
  {
  }

  // ---------------------------------------------------------------------------
  // The chord targets drawn with a calibration

  /** One yellow target: where it is drawn and the finger number it shows. */
  datatype Target = Target(at: Point, finger: int)

  function TargetFor(cal: OverlayCalibration, p: FingerPosition, size: Size): Target
  {
    Target(Point(FretX(cal, p.fret, size), StringY(cal, p.stringNumber, size)), p.finger)
  }

  /** The targets of a chord, in position order: only positions with a
      fret above 0 get one. */
  function CalibratedTargets(ps: seq<FingerPosition>, cal: OverlayCalibration, size: Size): (ts: seq<Target>)
    ensures |ts| <= |ps|
  {
    if ps == [] then []
    else
      var last := ps[|ps| - 1];
      CalibratedTargets(ps[..|ps| - 1], cal, size) + (if last.fret > 0 then [TargetFor(cal, last, size)] else [])
  }

  /** A target is drawn exactly for each fretted position. */
  lemma {:induction false} CalibratedTargetsMembership(ps: seq<FingerPosition>, cal: OverlayCalibration, size: Size, t: Target)
    ensures t in CalibratedTargets(ps, cal, size) <==>
              exists i :: 0 <= i < |ps| && ps[i].fret > 0 && t == TargetFor(cal, ps[i], size)
  {
    if ps != [] {
      var init := ps[..|ps| - 1];
      CalibratedTargetsMembership(init, cal, size, t);
      assert forall i :: 0 <= i < |init| ==> init[i] == ps[i];
      if exists i :: 0 <= i < |ps| && ps[i].fret > 0 && t == TargetFor(cal, ps[i], size) {
        var i :| 0 <= i < |ps| && ps[i].fret > 0 && t == TargetFor(cal, ps[i], size);
        if i < |init| {
          assert t in CalibratedTargets(init, cal, size);
        }
      }
    }
  }

  /** When fingers sit exactly on the fretted strings there is one target
      per required finger. */
  lemma {:induction false} CalibratedTargetsCount(ps: seq<FingerPosition>, cal: OverlayCalibration, size: Size)
    requires FingerIffFretted(ps)
    ensures |CalibratedTargets(ps, cal, size)| == RequiredCount(ps)
  {
    if ps != [] {
      var init := ps[..|ps| - 1];
      assert forall i :: 0 <= i < |init| ==> init[i] == ps[i];
      CalibratedTargetsCount(init, cal, size);
    }
  }

  /** Every chord gets three targets, Em two. */
  lemma ChordTargetCount(c: Chord, cal: OverlayCalibration, size: Size)
    ensures |CalibratedTargets(FingerPositions(c), cal, size)| == (if c == Em then 2 else 3)
  {
    ChordWellFormed(c);
    CalibratedTargetsCount(FingerPositions(c), cal, size);
    ChordRequiredCount(c);
  }

  // ---------------------------------------------------------------------------
  // The tap flow

  const CornerCount: nat := 4

  /** A tap location divided by the view size. */
  function Normalized(p: Point, size: Size): Point
    requires size.width != 0.0 && size.height != 0.0
  {
    Point(p.x / size.width, p.y / size.height)
  }

  /** The calibration state the overlay shares with its parent view through
      bindings: the current calibration, the calibrating flag and the taps. */
  class CalibrationFlow {
    var overlayCalibration: Option<OverlayCalibration>
    var isCalibrating: bool
    var calibrationPoints: seq<Point>

    ghost predicate Valid()
      reads this
    {
      |calibrationPoints| <= CornerCount
    }

    constructor (calibration: Option<OverlayCalibration>, calibrating: bool)
      ensures Valid()
      ensures overlayCalibration == calibration && isCalibrating == calibrating && calibrationPoints == []
    {
      overlayCalibration := calibration;
      isCalibrating := calibrating;
      calibrationPoints := [];
    }

    /** The drag gesture's end: the location is recorded only while
        calibrating and while fewer than four corners are recorded. */
    method Tap(location: Point)
      requires Valid()
      modifies this
      ensures Valid()
      ensures old(isCalibrating) && |old(calibrationPoints)| < CornerCount ==>
                calibrationPoints == old(calibrationPoints) + [location]
      ensures !(old(isCalibrating) && |old(calibrationPoints)| < CornerCount) ==>
                calibrationPoints == old(calibrationPoints)
      ensures overlayCalibration == old(overlayCalibration) && isCalibrating == old(isCalibrating)
    {
      if isCalibrating && |calibrationPoints| < CornerCount {
        calibrationPoints := calibrationPoints + [location];
      }
    }

    /** The Reset button. */
    method Reset()
      requires Valid()
      modifies this
      ensures Valid()
      ensures calibrationPoints == []
      ensures overlayCalibration == old(overlayCalibration) && isCalibrating == old(isCalibrating)
    {
      calibrationPoints := [];
    }

    /** The Done button (`completeCalibration`): with exactly four taps, the
        taps in order become the top-left, top-right, bottom-right and
        bottom-left corners, normalised to the view; calibration ends and the
        taps are cleared. With any other number of taps nothing changes. */
    method CompleteCalibration(size: Size)
      requires Valid()
      requires size.width != 0.0 && size.height != 0.0
      modifies this
      ensures Valid()
      ensures |old(calibrationPoints)| != CornerCount ==> unchanged(this)
      ensures |old(calibrationPoints)| == CornerCount ==>
                var pts := old(calibrationPoints);
                && overlayCalibration == Some(OverlayCalibration(
                     Normalized(pts[0], size), Normalized(pts[1], size),
                     Normalized(pts[2], size), Normalized(pts[3], size)))
                && !isCalibrating
                && calibrationPoints == []
    {
      if |calibrationPoints| != CornerCount {
        return;
      }
      var points := calibrationPoints;
      var normalizedPoints := seq(CornerCount, i requires 0 <= i < CornerCount => Normalized(points[i], size));
      var newCalibration := OverlayCalibration(
        topLeft := normalizedPoints[0],
        topRight := normalizedPoints[1],
        bottomRight := normalizedPoints[2],
        bottomLeft := normalizedPoints[3]);
      overlayCalibration := Some(newCalibration);
      isCalibrating := false;
      calibrationPoints := [];
    }
  }
}
