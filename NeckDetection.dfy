/** The per-frame geometry of GuitarNeckTracker.swift: choosing the neck among
    the detected rectangles, flipping its box into a zone, and turning the
    contour detector's boxes into string and fret line positions. The
    detectors themselves are not modelled; their results are the inputs. */
module NeckDetection {
  import opened Common
  import opened Geometry

  const MaxContours: nat := 50
  const MaxStringLines: nat := 6
  const MaxFretLines: nat := 5

  // ---------------------------------------------------------------------------
  // Choosing the neck rectangle

  /** `width * height` of the standardized box. */
  function Area(r: Rect): real { r.Width() * r.Height() }

  /** `height / width` lies in (0.8, 3.5) or in (0.3, 1.2). With a zero width
      the floating-point ratio is infinite or NaN and lies in neither band. */
  predicate GoodAspect(r: Rect)
  {
    r.Width() != 0.0 &&
    var aspect := r.Height() / r.Width();
    (0.8 < aspect < 3.5) || (0.3 < aspect < 1.2)
  }

  predicate LargeEnough(r: Rect)
  {
    Area(r) > 0.05 && (r.Width() > 0.15 || r.Height() > 0.15)
  }

  predicate IsNeckCandidate(r: Rect)
  {
    GoodAspect(r) && LargeEnough(r)
  }

  /** With a positive width the aspect test is the cross-multiplied one:
      the height lies strictly between 0.3 and 3.5 widths. */
  lemma GoodAspectCrossMultiplied(r: Rect)
    requires r.Width() > 0.0
    ensures GoodAspect(r) <==> 0.3 * r.Width() < r.Height() < 3.5 * r.Width()
  {
    RatioCompare(r.Height(), r.Width(), 0.3);
    RatioCompare(r.Height(), r.Width(), 3.5);
  }

  /** The indices of the boxes that pass the filter, in increasing order. */
  function CandidateIndices(rs: seq<Rect>): (ks: seq<nat>)
    ensures forall a, b :: 0 <= a < b < |ks| ==> ks[a] < ks[b]
    ensures forall j :: 0 <= j < |ks| ==> ks[j] < |rs| && IsNeckCandidate(rs[ks[j]])
    ensures forall k :: 0 <= k < |rs| && IsNeckCandidate(rs[k]) ==> k in ks
  {
    if rs == [] then []
    else
      var init := rs[..|rs| - 1];
      assert forall k :: 0 <= k < |init| ==> init[k] == rs[k];
      var ks := CandidateIndices(init);
      if IsNeckCandidate(rs[|rs| - 1]) then ks + [|rs| - 1] else ks
  }

  /** `rectangles.filter { ... }`: the candidates in detector order, that is,
      the boxes at the increasing indices of the boxes that pass. */
  function Candidates(rs: seq<Rect>): (cs: seq<Rect>)
    ensures var ks := CandidateIndices(rs);
      |cs| == |ks| && forall j :: 0 <= j < |ks| ==> cs[j] == rs[ks[j]]
  {
    if rs == [] then []
    else
      var init := rs[..|rs| - 1];
      var last := rs[|rs| - 1];
      assert forall k :: 0 <= k < |init| ==> init[k] == rs[k];
      if IsNeckCandidate(last) then Candidates(init) + [last] else Candidates(init)
  }

  /** The filter keeps exactly the boxes that pass. */
  lemma CandidatesMembership(rs: seq<Rect>)
    ensures forall x :: x in Candidates(rs) <==> x in rs && IsNeckCandidate(x)
  {
    var cs := Candidates(rs);
    var ks := CandidateIndices(rs);
    forall x | x in cs
      ensures x in rs && IsNeckCandidate(x)
    {
      var j :| 0 <= j < |cs| && cs[j] == x;
      assert x == rs[ks[j]];
    }
    forall x | x in rs && IsNeckCandidate(x)
      ensures x in cs
    {
      var k :| 0 <= k < |rs| && rs[k] == x;
      var j :| 0 <= j < |ks| && ks[j] == k;
      assert cs[j] == x;
    }
  }

  /** Index chosen by Swift's `max(by:)` on area: it scans left to right and
      replaces its choice only by a strictly larger area, so the first of
      several equally large rectangles wins. */
  function LargestIndex(cs: seq<Rect>): (k: nat)
    requires |cs| > 0
    ensures k < |cs|
    ensures forall i :: 0 <= i < |cs| ==> Area(cs[i]) <= Area(cs[k])
    ensures forall i :: 0 <= i < k ==> Area(cs[i]) < Area(cs[k])
  {
    if |cs| == 1 then 0
    else
      var k := LargestIndex(cs[..|cs| - 1]);
      if Area(cs[k]) < Area(cs[|cs| - 1]) then |cs| - 1 else k
  }

  /** The candidate `max(by:)` picks passes the filter and is at least as
      large as every passing box. */
  lemma LargestCandidate(rs: seq<Rect>)
    requires Candidates(rs) != []
    ensures var c := Candidates(rs)[LargestIndex(Candidates(rs))];
      && c in rs && IsNeckCandidate(c)
      && forall i :: 0 <= i < |rs| && IsNeckCandidate(rs[i]) ==> Area(rs[i]) <= Area(c)
  {
    var cs := Candidates(rs);
    var m := LargestIndex(cs);
    CandidatesMembership(rs);
    assert cs[m] in cs;
    forall i | 0 <= i < |rs| && IsNeckCandidate(rs[i])
      ensures Area(rs[i]) <= Area(cs[m])
    {
      assert rs[i] in cs;
    }
  }

  /** Ties go to the first: the candidate `max(by:)` picks occurs in the
      detector's list no later than any passing box at least as large. */
  lemma LargestCandidateFirst(rs: seq<Rect>)
    requires Candidates(rs) != []
    ensures var c := Candidates(rs)[LargestIndex(Candidates(rs))];
      forall i :: 0 <= i < |rs| && IsNeckCandidate(rs[i]) && Area(c) <= Area(rs[i]) ==> c in rs[..i + 1]
  {
    var cs := Candidates(rs);
    var ks := CandidateIndices(rs);
    var m := LargestIndex(cs);
    forall i | 0 <= i < |rs| && IsNeckCandidate(rs[i]) && Area(cs[m]) <= Area(rs[i])
      ensures cs[m] in rs[..i + 1]
    {
      var j :| 0 <= j < |ks| && ks[j] == i;
      assert cs[j] == rs[i];
      assert m <= j;
      assert ks[m] <= i;
      assert rs[..i + 1][ks[m]] == cs[m];
    }
  }

  /** `findGuitarNeckRectangle`: nothing when no rectangle passes the filter,
      otherwise a passing rectangle at least as large as every passing one,
      and of the largest the first the detector listed. */
  function FindGuitarNeckRectangle(rs: seq<Rect>): (r: Option<Rect>)
    ensures r.None? <==> forall i :: 0 <= i < |rs| ==> !IsNeckCandidate(rs[i])
    ensures r.Some? ==> r.value in rs && IsNeckCandidate(r.value)
    ensures r.Some? ==> forall i :: 0 <= i < |rs| && IsNeckCandidate(rs[i]) ==> Area(rs[i]) <= Area(r.value)
    ensures r.Some? ==> forall i :: 0 <= i < |rs| && IsNeckCandidate(rs[i]) && Area(r.value) <= Area(rs[i]) ==>
                          r.value in rs[..i + 1]
  {
    var cs := Candidates(rs);
    CandidatesMembership(rs);
    if cs == [] then
      assert forall i :: 0 <= i < |rs| ==> rs[i] in rs;
      None
    else
      LargestCandidate(rs);
      LargestCandidateFirst(rs);
      Some(cs[LargestIndex(cs)])
  }

  // ---------------------------------------------------------------------------
  // From detector box to zone

  /** `convertToGuitarZone`: Vision's origin is bottom-left and the camera is
      mirrored, so both axes are flipped with `1 - v`, which swaps min and max. */
  function ConvertToGuitarZone(box: Rect): (z: GuitarZone)
    ensures z.leftX <= z.rightX && z.nutY <= z.fret4Y
    ensures z.rightX - z.leftX == box.Width() && z.fret4Y - z.nutY == box.Height()
    ensures 0.0 <= box.MinX() && box.MaxX() <= 1.0 ==> 0.0 <= z.leftX && z.rightX <= 1.0
    ensures 0.0 <= box.MinY() && box.MaxY() <= 1.0 ==> 0.0 <= z.nutY && z.fret4Y <= 1.0
  {
    GuitarZone(
      nutY := 1.0 - box.MaxY(),
      fret4Y := 1.0 - box.MinY(),
      leftX := 1.0 - box.MaxX(),
      rightX := 1.0 - box.MinX())
  }

  /** The detector box a zone came from, for boxes of non-negative size. */
  function ZoneToBox(z: GuitarZone): Rect
  {
    Rect(1.0 - z.rightX, 1.0 - z.fret4Y, z.rightX - z.leftX, z.fret4Y - z.nutY)
  }

  /** The flip loses nothing: a box of non-negative size comes back from its
      zone, and an ordered zone comes back from its box. */
  lemma ConvertToGuitarZoneRoundTrip(box: Rect, z: GuitarZone)
    ensures box.width >= 0.0 && box.height >= 0.0 ==> ZoneToBox(ConvertToGuitarZone(box)) == box
    ensures z.leftX <= z.rightX && z.nutY <= z.fret4Y ==> ConvertToGuitarZone(ZoneToBox(z)) == z
  {
  }

  /** The worked example: box (0.2, 0.3, 0.4, 0.3) gives nutY 0.4, fret4Y 0.7,
      leftX 0.4, rightX 0.8. */
  lemma ConvertToGuitarZoneExample()
    ensures ConvertToGuitarZone(Rect(0.2, 0.3, 0.4, 0.3)) == GuitarZone(0.4, 0.7, 0.4, 0.8)
  {
  }

  // ---------------------------------------------------------------------------
  // Contours to lines

  datatype LineKind = StringLine | FretLine | OtherContour

  /** Classifies a contour box by `width / height` of the standardized box.
      A zero height gives an infinite ratio for a positive width (a string
      line when wide enough) and a NaN one for a zero width, which matches
      nothing. A string line is wider than 0.15 and than three heights; a
      fret line is taller than 0.15 and narrower than 0.33 heights. */
  function ClassifyContour(b: Rect): (kind: LineKind)
    ensures kind == StringLine ==> b.Width() > 0.15 && b.Width() > 3.0 * b.Height()
    ensures kind == FretLine ==> b.Height() > 0.15 && b.Width() < 0.33 * b.Height()
  {
    var w, h := b.Width(), b.Height();
    if h == 0.0 then
      (if w > 0.15 then StringLine else OtherContour)
    else
      var aspect := w / h;
      RatioCompare(w, h, 3.0);
      RatioCompare(w, h, 0.33);
      if aspect > 3.0 && w > 0.15 then StringLine
      else if aspect < 0.33 && h > 0.15 then FretLine
      else OtherContour
  }

  /** For a box of positive height the tests cross-multiply: a string line is
      more than three heights wide and wider than 0.15; a fret line is narrower
      than 0.33 heights and taller than 0.15. */
  lemma ClassifyContourCrossMultiplied(b: Rect)
    requires b.Height() > 0.0
    ensures ClassifyContour(b) == StringLine <==> b.Width() > 3.0 * b.Height() && b.Width() > 0.15
    ensures ClassifyContour(b) == FretLine <==>
              !(b.Width() > 3.0 * b.Height() && b.Width() > 0.15) && b.Width() < 0.33 * b.Height() && b.Height() > 0.15
  {
    RatioCompare(b.Width(), b.Height(), 3.0);
    RatioCompare(b.Width(), b.Height(), 0.33);
  }

  /** Where a classified contour lies: a string line at `1 - midY`, a fret
      line at `1 - midX`. */
  function LinePosition(b: Rect, kind: LineKind): real
  {
    if kind == StringLine then 1.0 - b.MidY() else 1.0 - b.MidX()
  }

  /** The positions appended for the contours of one kind, in contour order. */
  function Positions(cs: seq<Rect>, kind: LineKind): seq<real>
  {
    if cs == [] then []
    else
      var last := cs[|cs| - 1];
      Positions(cs[..|cs| - 1], kind) + (if ClassifyContour(last) == kind then [LinePosition(last, kind)] else [])
  }

  /** A position is listed exactly when some contour of that kind lies there. */
  lemma {:induction false} PositionsMembership(cs: seq<Rect>, kind: LineKind, y: real)
    ensures y in Positions(cs, kind) <==>
              exists i :: 0 <= i < |cs| && ClassifyContour(cs[i]) == kind && y == LinePosition(cs[i], kind)
  {
    if cs != [] {
      var init := cs[..|cs| - 1];
      PositionsMembership(init, kind, y);
      assert forall i :: 0 <= i < |init| ==> init[i] == cs[i];
      if exists i :: 0 <= i < |cs| && ClassifyContour(cs[i]) == kind && y == LinePosition(cs[i], kind) {
        var i :| 0 <= i < |cs| && ClassifyContour(cs[i]) == kind && y == LinePosition(cs[i], kind);
        if i < |init| {
          assert y in Positions(init, kind);
        }
      }
    }
  }

  /** `Array(Set(lines)).sorted()` capped with `prefix(k)`: the `k` smallest
      distinct positions, strictly increasing. Every listed position is one of
      the input's, and an input position that is left out is larger than all
      `k` that were kept. */
  lemma {:induction false} SmallestDistinct(c: seq<real>, k: nat)
    requires k > 0
    ensures var r := Take(SortDistinct(c), k);
      && StrictlyIncreasing(r)
      && |r| <= k
      && (forall y :: y in r ==> y in c)
      && (forall y :: y in c && y !in r ==> |r| == k && y > r[k - 1])
  {
    var d := SortDistinct(c);
    var r := Take(SortDistinct(c), k);
    forall y | y in c && y !in r
      ensures |r| == k && y > r[k - 1]
    {
      assert y in d;
      var j :| 0 <= j < |d| && d[j] == y;
      assert |d| >= k;
      assert r == d[..k];
      assert forall m :: 0 <= m < k ==> r[m] == d[m] && r[m] in r;
      assert j >= k;
      assert d[k - 1] < d[j];
    }
  }

  /** `analyzeContoursForFretsAndStrings`, up to the point where the lines are
      pushed: the first 50 contours are classified in a loop, then each list is
      deduplicated, sorted and capped at 6 string lines and 5 fret lines. */
  method AnalyzeContours(observations: seq<Rect>) returns (strings: seq<real>, frets: seq<real>)
    ensures var seen := observations[..Min(MaxContours, |observations|)];
      && strings == Take(SortDistinct(Positions(seen, StringLine)), MaxStringLines)
      && frets == Take(SortDistinct(Positions(seen, FretLine)), MaxFretLines)
    ensures StrictlyIncreasing(strings) && |strings| <= MaxStringLines
    ensures StrictlyIncreasing(frets) && |frets| <= MaxFretLines
  {
    var n := Min(MaxContours, |observations|);
    var horizontalLines: seq<real> := [];
    var verticalLines: seq<real> := [];
    var i := 0;
    while i < n
      invariant 0 <= i <= n
      invariant horizontalLines == Positions(observations[..i], StringLine)
      invariant verticalLines == Positions(observations[..i], FretLine)
    {
      var bounds := observations[i];
      assert observations[..i + 1][..i] == observations[..i];
      var kind := ClassifyContour(bounds);
      if kind == StringLine {
        horizontalLines := horizontalLines + [1.0 - bounds.MidY()];
      } else if kind == FretLine {
        verticalLines := verticalLines + [1.0 - bounds.MidX()];
      }
      i := i + 1;
    }
    horizontalLines := SortDistinct(horizontalLines);
    verticalLines := SortDistinct(verticalLines);
    if |horizontalLines| >= MaxStringLines {
      horizontalLines := horizontalLines[..MaxStringLines];
    }
    if |verticalLines| >= MaxFretLines {
      verticalLines := verticalLines[..MaxFretLines];
    }
    strings, frets := horizontalLines, verticalLines;
  }
}
