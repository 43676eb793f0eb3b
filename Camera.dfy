/** The hand-pose half of CameraManager.swift: the detecting flag, the 15 Hz
    gate on camera frames, and the published fingertip points, which keep
    only confident joints and mirror them into screen orientation. The
    capture session and the Vision request are not modelled; the outcome
    of one hand-pose pass is an input. */
module Camera {
  import opened Common
  import opened Geometry

  /** A joint as Vision reports it: a normalised location with the origin at
      the bottom left, and a confidence. */
  datatype RecognizedPoint = RecognizedPoint(location: Point, confidence: real)

  /** What one hand-pose pass over a frame produced. */
  datatype HandPoseOutcome =
    | NoImageBuffer                                    // the sample had no pixel buffer
    | DetectionFailed                                  // `perform` or `recognizedPoints` threw
    | NoHand                                           // no observation
    | Hand(recognizedPoints: map<Joint, RecognizedPoint>)

  const MinConfidence: real := 0.3

  /** Vision's origin is bottom left and the front camera is mirrored:
      both coordinates are flipped. The flip maps the unit square onto
      itself: a point is inside exactly when its image is. */
  function Mirror(p: Point): (q: Point)
    ensures InUnitSquare(q) <==> InUnitSquare(p)
  {
    Point(1.0 - p.x, 1.0 - p.y)
  }

  /** Flipping twice gives the point back. */
  lemma MirrorInvolution(p: Point)
    ensures Mirror(Mirror(p)) == p
  {
  }

  /** The published points for a hand: the joints seen with confidence above
      0.3, each mirrored. */
  function ConfidentMirrored(recognized: map<Joint, RecognizedPoint>): (points: map<Joint, Point>)
    ensures forall j :: j in points <==> j in recognized && recognized[j].confidence > MinConfidence
    ensures forall j :: j in points ==> points[j] == Mirror(recognized[j].location)
  {
    map j | j in recognized && recognized[j].confidence > MinConfidence :: Mirror(recognized[j].location)
  }

  /** A hand seen inside the frame is published inside the frame. */
  lemma ConfidentMirroredInFrame(recognized: map<Joint, RecognizedPoint>)
    requires forall j :: j in recognized ==> InUnitSquare(recognized[j].location)
    ensures forall j :: j in ConfidentMirrored(recognized) ==> InUnitSquare(ConfidentMirrored(recognized)[j])
  {
  }

  /** The `for (joint, point) in recognizedPoints where point.confidence > 0.3`
      loop that fills `points`. */
  method CollectPoints(recognized: map<Joint, RecognizedPoint>) returns (points: map<Joint, Point>)
    ensures points == ConfidentMirrored(recognized)
  {
    points := map[];
    var remaining := recognized.Keys;
    while remaining != {}
      invariant remaining <= recognized.Keys
      invariant points == map j | j in recognized.Keys - remaining && recognized[j].confidence > MinConfidence
                                :: Mirror(recognized[j].location)
      decreases remaining
    {
      var joint :| joint in remaining;
      var point := recognized[joint];
      if point.confidence > MinConfidence {
        points := points[joint := Mirror(point.location)];
      }
      remaining := remaining - {joint};
    }
  }

  class CameraManager {
    var detectedHandPoints: map<Joint, Point>
    var isDetecting: bool
    var lastVisionTime: real
    /** The times of all frames that passed the gate, oldest first. */
    ghost var processedTimes: seq<real>

    ghost predicate Valid()
      reads this
    {
      && Spaced(processedTimes)
      && (processedTimes != [] ==> processedTimes[|processedTimes| - 1] == lastVisionTime)
    }

    constructor ()
      ensures Valid()
      ensures detectedHandPoints == map[] && !isDetecting && lastVisionTime == 0.0 && processedTimes == []
    {
      detectedHandPoints := map[];
      isDetecting := false;
      lastVisionTime := 0.0;
      processedTimes := [];
    }

    method StartDetection()
      requires Valid()
      modifies this
      ensures Valid()
      ensures isDetecting
      ensures detectedHandPoints == old(detectedHandPoints)
      ensures lastVisionTime == old(lastVisionTime) && processedTimes == old(processedTimes)
    {
      isDetecting := true;
    }

    /** Clears the flag and publishes no points. */
    method StopDetection()
      requires Valid()
      modifies this
      ensures Valid()
      ensures !isDetecting
      ensures detectedHandPoints == map[]
      ensures lastVisionTime == old(lastVisionTime) && processedTimes == old(processedTimes)
    {
      isDetecting := false;
      detectedHandPoints := map[];
    }

    /** `captureOutput` for a frame arriving at `now` whose hand-pose pass
        gives `outcome`. Nothing changes unless detecting and more than 1/15 s
        after the last frame that passed. A passing frame records `now` even
        when it has no pixel buffer; then no hand clears the points, a hand
        publishes its confident mirrored joints, and a missing buffer or a
        failed detection leaves the points as they were. */
    method CaptureOutput(now: real, outcome: HandPoseOutcome) returns (passed: bool)
      requires Valid()
      modifies this
      ensures Valid()
      ensures passed <==> old(isDetecting) && FrameDue(now, old(lastVisionTime))
      ensures !passed ==> unchanged(this)
      ensures passed ==> lastVisionTime == now && processedTimes == old(processedTimes) + [now]
      ensures passed ==> detectedHandPoints == (match outcome
                                                 case NoImageBuffer => old(detectedHandPoints)
                                                 case DetectionFailed => old(detectedHandPoints)
                                                 case NoHand => map[]
                                                 case Hand(recognized) => ConfidentMirrored(recognized))
      ensures isDetecting == old(isDetecting)
    {
      var detecting := isDetecting;
      if !detecting {
        return false;
      }
      if !(now - lastVisionTime > 1.0 / DetectionFPS) {
        return false;
      }
      if processedTimes != [] {
        AcceptKeepsSpaced(processedTimes, now);
      }
      lastVisionTime := now;
      processedTimes := processedTimes + [now];
      passed := true;
      match outcome
      case NoImageBuffer =>
      case DetectionFailed =>
      case NoHand =>
        detectedHandPoints := map[];
      case Hand(recognized) =>
        var points := CollectPoints(recognized);
        detectedHandPoints := points;
    }
  }
}
