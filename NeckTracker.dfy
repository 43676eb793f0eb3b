/** The `GuitarNeckTracker` object: the tracking flag, the 15 Hz frame gate,
    the three smoothing buffers and the published zone and lines. The two
    detector callbacks are methods that take the detectors' results; the
    caller runs them after `ProcessFrame` accepts a frame. Like the source,
    they do not look at `isTracking` again. */
module NeckTracker {
  import opened Common
  import opened Geometry
  import opened NeckDetection
  import opened Smoothing

  /** A line list as the contour analysis pushes it: non-empty, strictly
      increasing, at most `cap` long. */
  predicate PushedLines(l: seq<real>, cap: nat)
  {
    l != [] && StrictlyIncreasing(l) && |l| <= cap
  }

  /** Each buffer is the window of the last three pushes, and holds what
      the detectors push: ordered zones and well-formed line lists. */
  ghost predicate BuffersValid(zones: seq<GuitarZone>, zoneHistory: seq<GuitarZone>,
                               strings: seq<seq<real>>, stringHistory: seq<seq<real>>,
                               frets: seq<seq<real>>, fretHistory: seq<seq<real>>)
  {
    && zones == Window(zoneHistory)
    && strings == Window(stringHistory)
    && frets == Window(fretHistory)
    && (forall k :: 0 <= k < |zones| ==> Ordered(zones[k]))
    && (forall k :: 0 <= k < |strings| ==> PushedLines(strings[k], MaxStringLines))
    && (forall k :: 0 <= k < |frets| ==> PushedLines(frets[k], MaxFretLines))
  }

  /** The published zone is ordered; the published lines are sorted and capped. */
  predicate PublishedValid(zone: Option<GuitarZone>, strings: seq<real>, frets: seq<real>)
  {
    && (zone.Some? ==> Ordered(zone.value))
    && SortedAsc(strings) && |strings| <= MaxStringLines
    && SortedAsc(frets) && |frets| <= MaxFretLines
  }

  /** Accepted frames are spaced, and the last one is the recorded time. */
  ghost predicate GateValid(acceptedTimes: seq<real>, lastDetectionTime: real)
  {
    && Spaced(acceptedTimes)
    && (acceptedTimes != [] ==> acceptedTimes[|acceptedTimes| - 1] == lastDetectionTime)
  }

  /** The three smoothed values `updateSmoothedLinesAndZone` publishes. */
  method Smoothed(zones: seq<GuitarZone>, strings: seq<seq<real>>, frets: seq<seq<real>>)
    returns (zone: GuitarZone, smoothedStrings: seq<real>, smoothedFrets: seq<real>)
    requires forall k :: 0 <= k < |zones| ==> Ordered(zones[k])
    ensures zone == SmoothedZone(zones)
    ensures smoothedStrings == SmoothedLines(strings, MaxStringLines)
    ensures smoothedFrets == SmoothedLines(frets, MaxFretLines)
    ensures PublishedValid(Some(zone), smoothedStrings, smoothedFrets)
  {
    SmoothedZoneKeepsOrder(zones);
    zone := SmoothedZone(zones);
    smoothedStrings := AverageLines(strings, MaxStringLines);
    smoothedFrets := AverageLines(frets, MaxFretLines);
  }

  class GuitarNeckTracker {
    var detectedGuitarZone: Option<GuitarZone>
    var detectedFretLines: seq<real>
    var detectedStringLines: seq<real>
    var isTracking: bool
    var lastDetectionTime: real

    var recentZones: seq<GuitarZone>
    var recentFretLines: seq<seq<real>>
    var recentStringLines: seq<seq<real>>

    /** Everything pushed into each buffer since it was last emptied. */
    ghost var zoneHistory: seq<GuitarZone>
    ghost var stringHistory: seq<seq<real>>
    ghost var fretHistory: seq<seq<real>>
    /** The times of all accepted frames, oldest first. */
    ghost var acceptedTimes: seq<real>

    ghost predicate Valid()
      reads this
    {
      && BuffersValid(recentZones, zoneHistory, recentStringLines, stringHistory, recentFretLines, fretHistory)
      && PublishedValid(detectedGuitarZone, detectedStringLines, detectedFretLines)
      && GateValid(acceptedTimes, lastDetectionTime)
    }

    constructor ()
      ensures Valid()
      ensures detectedGuitarZone == None && detectedFretLines == [] && detectedStringLines == []
      ensures !isTracking && lastDetectionTime == 0.0
      ensures recentZones == [] && recentFretLines == [] && recentStringLines == []
      ensures acceptedTimes == []
    {
      detectedGuitarZone := None;
      detectedFretLines := [];
      detectedStringLines := [];
      isTracking := false;
      lastDetectionTime := 0.0;
      recentZones := [];
      recentFretLines := [];
      recentStringLines := [];
      zoneHistory := [];
      stringHistory := [];
      fretHistory := [];
      acceptedTimes := [];
    }

    /** `processFrame` at clock time `now`: accepts the frame only while
        tracking and only when more than 1/15 s has passed since the last
        accepted frame; an accepted frame records `now` and nothing else
        changes. Every two accepted frames are more than 1/15 s apart
        (`Valid`), so at most 15 fall in any second (`AtMostFifteenPerSecond`). */
    method ProcessFrame(now: real) returns (accepted: bool)
      requires Valid()
      modifies this
      ensures Valid()
      ensures accepted <==> old(isTracking) && FrameDue(now, old(lastDetectionTime))
      ensures accepted ==> lastDetectionTime == now && acceptedTimes == old(acceptedTimes) + [now]
      ensures !accepted ==> lastDetectionTime == old(lastDetectionTime) && acceptedTimes == old(acceptedTimes)
      ensures isTracking == old(isTracking)
      ensures recentZones == old(recentZones) && recentStringLines == old(recentStringLines)
      ensures recentFretLines == old(recentFretLines)
      ensures zoneHistory == old(zoneHistory) && stringHistory == old(stringHistory)
      ensures fretHistory == old(fretHistory)
      ensures detectedGuitarZone == old(detectedGuitarZone)
      ensures detectedStringLines == old(detectedStringLines) && detectedFretLines == old(detectedFretLines)
    {
      if !isTracking {
        return false;
      }
      if !(now - lastDetectionTime > 1.0 / DetectionFPS) {
        return false;
      }
      if acceptedTimes != [] {
        AcceptKeepsSpaced(acceptedTimes, now);
      }
      lastDetectionTime := now;
      acceptedTimes := acceptedTimes + [now];
      accepted := true;
    }

    /** `updateSmoothedLinesAndZone`: publishes the smoothed zone (the default
        zone when no zone is buffered, never nothing) and the smoothed lines. */
    method UpdateSmoothedLinesAndZone()
      requires Valid()
      modifies this
      ensures Valid()
      ensures detectedGuitarZone == Some(SmoothedZone(recentZones))
      ensures detectedStringLines == SmoothedLines(recentStringLines, MaxStringLines)
      ensures detectedFretLines == SmoothedLines(recentFretLines, MaxFretLines)
      ensures isTracking == old(isTracking) && lastDetectionTime == old(lastDetectionTime)
      ensures acceptedTimes == old(acceptedTimes)
      ensures recentZones == old(recentZones) && recentStringLines == old(recentStringLines)
      ensures recentFretLines == old(recentFretLines)
      ensures zoneHistory == old(zoneHistory) && stringHistory == old(stringHistory)
      ensures fretHistory == old(fretHistory)
    {
      var smoothedZone, smoothedStrings, smoothedFrets := Smoothed(recentZones, recentStringLines, recentFretLines);
      detectedGuitarZone := Some(smoothedZone);
      detectedStringLines := smoothedStrings;
      detectedFretLines := smoothedFrets;
    }

    /** The rectangle callback: when a neck rectangle is found, its zone is
        pushed and everything is republished; otherwise nothing changes. */
    method OnRectanglesDetected(results: seq<Rect>)
      requires Valid()
      modifies this
      ensures Valid()
      ensures FindGuitarNeckRectangle(results).None? ==> unchanged(this)
      ensures FindGuitarNeckRectangle(results).Some? ==>
                var zone := ConvertToGuitarZone(FindGuitarNeckRectangle(results).value);
                && zoneHistory == old(zoneHistory) + [zone]
                && recentZones == Push(old(recentZones), zone)
                && detectedGuitarZone == Some(SmoothedZone(recentZones))
                && detectedStringLines == SmoothedLines(recentStringLines, MaxStringLines)
                && detectedFretLines == SmoothedLines(recentFretLines, MaxFretLines)
      ensures recentStringLines == old(recentStringLines) && recentFretLines == old(recentFretLines)
      ensures stringHistory == old(stringHistory) && fretHistory == old(fretHistory)
      ensures isTracking == old(isTracking) && lastDetectionTime == old(lastDetectionTime)
      ensures acceptedTimes == old(acceptedTimes)
    {
      var guitarRect := FindGuitarNeckRectangle(results);
      if guitarRect.Some? {
        var zone := ConvertToGuitarZone(guitarRect.value);
        AddZoneToSmoothingBuffer(zone);
      }
    }

    /** `addZoneToSmoothingBuffer`: append, drop the oldest beyond three,
        republish. */
    method AddZoneToSmoothingBuffer(zone: GuitarZone)
      requires Valid() && Ordered(zone)
      modifies this
      ensures Valid()
      ensures zoneHistory == old(zoneHistory) + [zone]
      ensures recentZones == Push(old(recentZones), zone)
      ensures detectedGuitarZone == Some(SmoothedZone(recentZones))
      ensures detectedStringLines == SmoothedLines(recentStringLines, MaxStringLines)
      ensures detectedFretLines == SmoothedLines(recentFretLines, MaxFretLines)
      ensures recentStringLines == old(recentStringLines) && recentFretLines == old(recentFretLines)
      ensures stringHistory == old(stringHistory) && fretHistory == old(fretHistory)
      ensures isTracking == old(isTracking) && lastDetectionTime == old(lastDetectionTime)
      ensures acceptedTimes == old(acceptedTimes)
    {
      PushKeepsWindow(zoneHistory, zone);
      recentZones := recentZones + [zone];
      if |recentZones| > SmoothingWindowSize {
        recentZones := recentZones[1..];
      }
      zoneHistory := zoneHistory + [zone];
      UpdateSmoothedLinesAndZone();
    }

    /** The contour callback (`analyzeContoursForFretsAndStrings`): classifies
        the first 50 contours, pushes each line list that is not empty, and
        republishes whether or not anything was pushed. */
    method OnContoursDetected(observations: seq<Rect>)
      requires Valid()
      modifies this
      ensures Valid()
      ensures var seen := observations[..Min(MaxContours, |observations|)];
        var strings := Take(SortDistinct(Positions(seen, StringLine)), MaxStringLines);
        var frets := Take(SortDistinct(Positions(seen, FretLine)), MaxFretLines);
        && stringHistory == old(stringHistory) + (if strings == [] then [] else [strings])
        && fretHistory == old(fretHistory) + (if frets == [] then [] else [frets])
        && recentStringLines == (if strings == [] then old(recentStringLines) else Push(old(recentStringLines), strings))
        && recentFretLines == (if frets == [] then old(recentFretLines) else Push(old(recentFretLines), frets))
      ensures detectedGuitarZone == Some(SmoothedZone(recentZones))
      ensures detectedStringLines == SmoothedLines(recentStringLines, MaxStringLines)
      ensures detectedFretLines == SmoothedLines(recentFretLines, MaxFretLines)
      ensures recentZones == old(recentZones) && zoneHistory == old(zoneHistory)
      ensures isTracking == old(isTracking) && lastDetectionTime == old(lastDetectionTime)
      ensures acceptedTimes == old(acceptedTimes)
    {
      var horizontalLines, verticalLines := AnalyzeContours(observations);
      if horizontalLines != [] {
        PushStringLines(horizontalLines);
      }
      if verticalLines != [] {
        PushFretLines(verticalLines);
      }
      UpdateSmoothedLinesAndZone();
    }

    /** The string half of the `detectionQueue.sync` block: append, drop the
        oldest beyond three. */
    method PushStringLines(lines: seq<real>)
      requires Valid() && PushedLines(lines, MaxStringLines)
      modifies this
      ensures Valid()
      ensures stringHistory == old(stringHistory) + [lines]
      ensures recentStringLines == Push(old(recentStringLines), lines)
      ensures recentFretLines == old(recentFretLines) && fretHistory == old(fretHistory)
      ensures recentZones == old(recentZones) && zoneHistory == old(zoneHistory)
      ensures isTracking == old(isTracking) && lastDetectionTime == old(lastDetectionTime)
      ensures acceptedTimes == old(acceptedTimes)
      ensures detectedGuitarZone == old(detectedGuitarZone)
      ensures detectedStringLines == old(detectedStringLines) && detectedFretLines == old(detectedFretLines)
    {
      PushKeepsWindow(stringHistory, lines);
      assert Push(recentStringLines, lines) == Window(stringHistory + [lines]);
      recentStringLines := recentStringLines + [lines];
      if |recentStringLines| > SmoothingWindowSize {
        recentStringLines := recentStringLines[1..];
      }
      stringHistory := stringHistory + [lines];
    }

    /** The fret half of the same block. */
    method PushFretLines(lines: seq<real>)
      requires Valid() && PushedLines(lines, MaxFretLines)
      modifies this
      ensures Valid()
      ensures fretHistory == old(fretHistory) + [lines]
      ensures recentFretLines == Push(old(recentFretLines), lines)
      ensures recentStringLines == old(recentStringLines) && stringHistory == old(stringHistory)
      ensures recentZones == old(recentZones) && zoneHistory == old(zoneHistory)
      ensures isTracking == old(isTracking) && lastDetectionTime == old(lastDetectionTime)
      ensures acceptedTimes == old(acceptedTimes)
      ensures detectedGuitarZone == old(detectedGuitarZone)
      ensures detectedStringLines == old(detectedStringLines) && detectedFretLines == old(detectedFretLines)
    {
      PushKeepsWindow(fretHistory, lines);
      assert Push(recentFretLines, lines) == Window(fretHistory + [lines]);
      recentFretLines := recentFretLines + [lines];
      if |recentFretLines| > SmoothingWindowSize {
        recentFretLines := recentFretLines[1..];
      }
      fretHistory := fretHistory + [lines];
    }

    /** `startTracking`: sets the flag and empties the three buffers; what
        was published stays until the next update. */
    method StartTracking()
      requires Valid()
      modifies this
      ensures Valid()
      ensures isTracking
      ensures recentZones == [] && recentFretLines == [] && recentStringLines == []
      ensures detectedGuitarZone == old(detectedGuitarZone)
      ensures detectedStringLines == old(detectedStringLines) && detectedFretLines == old(detectedFretLines)
      ensures lastDetectionTime == old(lastDetectionTime) && acceptedTimes == old(acceptedTimes)
    {
      isTracking := true;
      recentZones := [];
      recentFretLines := [];
      recentStringLines := [];
      zoneHistory := [];
      stringHistory := [];
      fretHistory := [];
    }

    /** `stopTracking`: clears the flag, empties the buffers and publishes no
        zone and no lines. */
    method StopTracking()
      requires Valid()
      modifies this
      ensures Valid()
      ensures !isTracking
      ensures recentZones == [] && recentFretLines == [] && recentStringLines == []
      ensures detectedGuitarZone == None && detectedFretLines == [] && detectedStringLines == []
      ensures lastDetectionTime == old(lastDetectionTime) && acceptedTimes == old(acceptedTimes)
    {
      assert BuffersValid([], [], [], [], [], []) && PublishedValid(None, [], []);
      isTracking := false;
      recentZones := [];
      recentFretLines := [];
      recentStringLines := [];
      zoneHistory := [];
      stringHistory := [];
      fretHistory := [];
      detectedGuitarZone := None;
      detectedFretLines := [];
      detectedStringLines := [];
    }
  }
}
