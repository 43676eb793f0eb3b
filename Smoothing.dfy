/** The smoothing buffers of GuitarNeckTracker.swift: three FIFO windows of the
    last three detections (zones, string-line lists, fret-line lists) and the
    averages published from them. */
module Smoothing {
  import opened Common
  import opened Geometry

  const SmoothingWindowSize: nat := 3

  /** The zone published while no zone has been detected. */
  const DefaultZone: GuitarZone := GuitarZone(nutY := 0.2, fret4Y := 0.8, leftX := 0.3, rightX := 0.7)

  // ---------------------------------------------------------------------------
  // Windows

  /** One push: `append`, then `removeFirst` when the count exceeds three.
      The pushed item is last, and a buffer of at most three items stays at
      most three items long, growing by one until it is full. */
  function Push<T>(buf: seq<T>, x: T): (r: seq<T>)
    ensures |r| > 0 && r[|r| - 1] == x
    ensures |buf| <= SmoothingWindowSize ==> |r| == Min(|buf| + 1, SmoothingWindowSize)
  {
    var b := buf + [x];
    if |b| > SmoothingWindowSize then b[1..] else b
  }

  /** The last min(n, 3) items of a history of n pushes, in push order. */
  function Window<T>(h: seq<T>): seq<T>
  {
    if |h| <= SmoothingWindowSize then h else h[|h| - SmoothingWindowSize..]
  }

  /** Pushes `xs` one after another. */
  function PushAll<T>(buf: seq<T>, xs: seq<T>): seq<T>
    decreases xs
  {
    if xs == [] then buf else PushAll(Push(buf, xs[0]), xs[1..])
  }

  /** A push onto the window of a history is the window of the longer history. */
  lemma PushKeepsWindow<T>(h: seq<T>, x: T)
    ensures Push(Window(h), x) == Window(h + [x])
  {
    if |h| >= SmoothingWindowSize {
      assert (h + [x])[|h| + 1 - SmoothingWindowSize..] == h[|h| - SmoothingWindowSize..][1..] + [x];
    }
  }

  /** A buffer fed `xs` from empty holds exactly the last min(|xs|, 3) of them,
      in the order they were pushed. */
  lemma PushAllIsWindow<T>(xs: seq<T>)
    ensures PushAll([], xs) == Window(xs)
    ensures |PushAll([], xs)| == Min(|xs|, SmoothingWindowSize)
  {
    PushAllFromWindow([], xs);
  }

  lemma {:induction false} PushAllFromWindow<T>(h: seq<T>, xs: seq<T>)
    ensures PushAll(Window(h), xs) == Window(h + xs)
    decreases xs
  {
    if xs != [] {
      PushKeepsWindow(h, xs[0]);
      PushAllFromWindow(h + [xs[0]], xs[1..]);
      assert h + [xs[0]] + xs[1..] == h + xs;
    }
  }

  // ---------------------------------------------------------------------------
  // The zone average

  function NutY(z: GuitarZone): real { z.nutY }
  function Fret4Y(z: GuitarZone): real { z.fret4Y }
  function LeftX(z: GuitarZone): real { z.leftX }
  function RightX(z: GuitarZone): real { z.rightX }

  /** `getSmoothedZone`: the default zone for an empty buffer, otherwise the
      field-by-field mean of the buffered zones. */
  function SmoothedZone(zones: seq<GuitarZone>): (z: GuitarZone)
    ensures zones == [] ==> z == DefaultZone
    ensures |zones| == 1 ==> z == zones[0]
  {
    if zones == [] then DefaultZone
    else
      var n := |zones| as real;
      assert |zones| == 1 ==>
               && zones[..0] == []
               && SumOf(zones, NutY) == zones[0].nutY && SumOf(zones, Fret4Y) == zones[0].fret4Y
               && SumOf(zones, LeftX) == zones[0].leftX && SumOf(zones, RightX) == zones[0].rightX;
      GuitarZone(
        nutY := SumOf(zones, NutY) / n,
        fret4Y := SumOf(zones, Fret4Y) / n,
        leftX := SumOf(zones, LeftX) / n,
        rightX := SumOf(zones, RightX) / n)
  }

  /** Pushing the same zone into every slot gives back that zone. */
  lemma SmoothedZoneOfRepeated(zones: seq<GuitarZone>, z: GuitarZone)
    requires |zones| > 0
    requires forall i :: 0 <= i < |zones| ==> zones[i] == z
    ensures SmoothedZone(zones) == z
  {
    var n := |zones| as real;
    SumOfConstant(zones, NutY, z.nutY);
    SumOfConstant(zones, Fret4Y, z.fret4Y);
    SumOfConstant(zones, LeftX, z.leftX);
    SumOfConstant(zones, RightX, z.rightX);
  }

  predicate Ordered(z: GuitarZone)
  {
    z.nutY <= z.fret4Y && z.leftX <= z.rightX
  }

  predicate WithinFrame(z: GuitarZone)
  {
    0.0 <= z.nutY <= 1.0 && 0.0 <= z.fret4Y <= 1.0 && 0.0 <= z.leftX <= 1.0 && 0.0 <= z.rightX <= 1.0
  }

  /** Averaging keeps the nut above the fourth fret and the left edge left of
      the right edge, when every buffered zone has them so. */
  lemma SmoothedZoneKeepsOrder(zones: seq<GuitarZone>)
    requires forall i :: 0 <= i < |zones| ==> Ordered(zones[i])
    ensures Ordered(SmoothedZone(zones))
  {
    if zones != [] {
      var n := |zones| as real;
      SumOfMonotone(zones, NutY, Fret4Y);
      SumOfMonotone(zones, LeftX, RightX);
      DivideKeepsOrder(SumOf(zones, NutY), SumOf(zones, Fret4Y), n);
      DivideKeepsOrder(SumOf(zones, LeftX), SumOf(zones, RightX), n);
    }
  }

  lemma DivideKeepsOrder(a: real, b: real, n: real)
    requires n > 0.0 && a <= b
    ensures a / n <= b / n
  {
    assert b / n - a / n == (b - a) / n;
  }

  lemma DivideKeepsBounds(s: real, n: real)
    requires n > 0.0 && 0.0 <= s <= n
    ensures 0.0 <= s / n <= 1.0
  {
    DivideKeepsOrder(s, n, n);
    DivideKeepsOrder(0.0, s, n);
  }

  /** Averaging zones inside the frame gives a zone inside the frame. */
  lemma SmoothedZoneWithinFrame(zones: seq<GuitarZone>)
    requires forall i :: 0 <= i < |zones| ==> WithinFrame(zones[i])
    ensures WithinFrame(SmoothedZone(zones))
  {
    if zones != [] {
      var n := |zones| as real;
      SumOfBounds(zones, NutY, 0.0, 1.0);
      SumOfBounds(zones, Fret4Y, 0.0, 1.0);
      SumOfBounds(zones, LeftX, 0.0, 1.0);
      SumOfBounds(zones, RightX, 0.0, 1.0);
      DivideKeepsBounds(SumOf(zones, NutY), n);
      DivideKeepsBounds(SumOf(zones, Fret4Y), n);
      DivideKeepsBounds(SumOf(zones, LeftX), n);
      DivideKeepsBounds(SumOf(zones, RightX), n);
    }
  }

  /** After pushing s1..s5 the average is that of s3, s4, s5 only. */
  lemma SmoothedZoneForgetsOldPushes(s1: GuitarZone, s2: GuitarZone, s3: GuitarZone, s4: GuitarZone, s5: GuitarZone)
    ensures SmoothedZone(PushAll([], [s1, s2, s3, s4, s5])) == SmoothedZone([s3, s4, s5])
  {
    PushAllIsWindow([s1, s2, s3, s4, s5]);
    assert Window([s1, s2, s3, s4, s5]) == [s3, s4, s5];
  }

  // ---------------------------------------------------------------------------
  // The line average

  /** `compactMap { $0.indices.contains(i) ? $0[i] : nil }`: entry `i` of each
      buffered list that has one, in buffer order. */
  function Column(buf: seq<seq<real>>, i: nat): (c: seq<real>)
    ensures |c| <= |buf|
  {
    if buf == [] then []
    else
      var last := buf[|buf| - 1];
      Column(buf[..|buf| - 1], i) + (if i < |last| then [last[i]] else [])
  }

  /** `map { $0.count }.max() ?? 0`. */
  function MaxLen(buf: seq<seq<real>>): (m: nat)
    ensures forall k :: 0 <= k < |buf| ==> |buf[k]| <= m
    ensures buf != [] ==> exists k :: 0 <= k < |buf| && |buf[k]| == m
    ensures buf == [] ==> m == 0
  {
    if buf == [] then 0
    else
      var m := MaxLen(buf[..|buf| - 1]);
      var last := |buf[|buf| - 1]|;
      assert forall k :: 0 <= k < |buf| - 1 ==> buf[..|buf| - 1][k] == buf[k];
      if m < last then last else m
  }

  /** The mean of column `i`; zero for an empty column, which no index below
      the longest list's length has (see `ColumnNonEmpty`). */
  function ColumnMean(buf: seq<seq<real>>, i: nat): real
  {
    var values := Column(buf, i);
    if |values| > 0 then Mean(values) else 0.0
  }

  /** The per-index means of indices 0..n-1, in index order. */
  function ColumnMeans(buf: seq<seq<real>>, n: nat): (ms: seq<real>)
    ensures |ms| == n && forall i :: 0 <= i < n ==> ms[i] == ColumnMean(buf, i)
  {
    seq(n, i requires 0 <= i < n => ColumnMean(buf, i))
  }

  /** `getSmoothedStrings` (cap 6) and `getSmoothedFrets` (cap 5). */
  function SmoothedLines(buf: seq<seq<real>>, cap: nat): (lines: seq<real>)
    ensures buf == [] ==> lines == []
    ensures |lines| == Min(MaxLen(buf), cap) && SortedAsc(lines)
  {
    if buf == [] then []
    else
      var maxCount := MaxLen(buf);
      if maxCount == 0 then [] else Sort(ColumnMeans(buf, Min(maxCount, cap)))
  }

  /** The value `y` is in column `i` exactly when some buffered list has `y`
      at index `i`: index `i` averages only the lists long enough to have it. */
  lemma {:induction false} ColumnMembership(buf: seq<seq<real>>, i: nat, y: real)
    ensures y in Column(buf, i) <==> exists k :: 0 <= k < |buf| && i < |buf[k]| && buf[k][i] == y
  {
    if buf != [] {
      var init := buf[..|buf| - 1];
      var last := buf[|buf| - 1];
      ColumnMembership(init, i, y);
      assert y in Column(buf, i) <==> y in Column(init, i) || (i < |last| && last[i] == y);
      if y in Column(init, i) {
        var k :| 0 <= k < |init| && i < |init[k]| && init[k][i] == y;
        assert buf[k] == init[k];
      }
      if exists k :: 0 <= k < |buf| && i < |buf[k]| && buf[k][i] == y {
        var k :| 0 <= k < |buf| && i < |buf[k]| && buf[k][i] == y;
        if k < |init| {
          assert init[k] == buf[k];
        }
      }
    }
  }

  /** The indices of the buffered lists longer than `i`, in increasing order. */
  function ListsWithIndex(buf: seq<seq<real>>, i: nat): (ks: seq<nat>)
    ensures forall a, b :: 0 <= a < b < |ks| ==> ks[a] < ks[b]
    ensures forall j :: 0 <= j < |ks| ==> ks[j] < |buf| && i < |buf[ks[j]]|
    ensures forall k :: 0 <= k < |buf| && i < |buf[k]| ==> k in ks
  {
    if buf == [] then []
    else
      var init := buf[..|buf| - 1];
      assert forall k :: 0 <= k < |init| ==> init[k] == buf[k];
      var ks := ListsWithIndex(init, i);
      if i < |buf[|buf| - 1]| then ks + [|buf| - 1] else ks
  }

  /** Column `i` holds entry `i` of every buffered list long enough to have
      one, each list once and in buffer order. */
  lemma {:induction false} ColumnContents(buf: seq<seq<real>>, i: nat)
    ensures var ks := ListsWithIndex(buf, i);
      |Column(buf, i)| == |ks| && forall j :: 0 <= j < |ks| ==> Column(buf, i)[j] == buf[ks[j]][i]
  {
    if buf != [] {
      var init := buf[..|buf| - 1];
      var last := buf[|buf| - 1];
      ColumnContents(init, i);
      var ks0, ks := ListsWithIndex(init, i), ListsWithIndex(buf, i);
      var c0, c := Column(init, i), Column(buf, i);
      assert c == c0 + (if i < |last| then [last[i]] else []);
      assert ks == ks0 + (if i < |last| then [|buf| - 1] else []);
      forall j | 0 <= j < |ks|
        ensures c[j] == buf[ks[j]][i]
      {
        if j < |ks0| {
          assert c[j] == c0[j] && ks[j] == ks0[j];
          assert init[ks0[j]] == buf[ks0[j]];
        }
      }
    }
  }

  /** A column below the longest list's length is never empty. */
  lemma {:induction false} ColumnNonEmpty(buf: seq<seq<real>>, i: nat)
    requires i < MaxLen(buf)
    ensures |Column(buf, i)| > 0
  {
    var k :| 0 <= k < |buf| && |buf[k]| == MaxLen(buf);
    ColumnMembership(buf, i, buf[k][i]);
  }

  /** The published lines of a non-empty buffer are, as a multiset, exactly
      the per-index means, and every index averages a non-empty column. */
  lemma SmoothedLinesShape(buf: seq<seq<real>>, cap: nat)
    ensures var n := Min(MaxLen(buf), cap);
      && (buf != [] ==> multiset(SmoothedLines(buf, cap)) == multiset(ColumnMeans(buf, n)))
      && (forall i :: 0 <= i < n ==> |Column(buf, i)| > 0 && ColumnMeans(buf, n)[i] == Mean(Column(buf, i)))
  {
    var n := Min(MaxLen(buf), cap);
    forall i | 0 <= i < n
      ensures |Column(buf, i)| > 0 && ColumnMeans(buf, n)[i] == Mean(Column(buf, i))
    {
      ColumnNonEmpty(buf, i);
    }
  }

  /** Averaging lines that lie in [lo, hi] gives lines in [lo, hi]. */
  lemma SmoothedLinesWithin(buf: seq<seq<real>>, cap: nat, lo: real, hi: real)
    requires forall k, j :: 0 <= k < |buf| && 0 <= j < |buf[k]| ==> lo <= buf[k][j] <= hi
    ensures forall y :: y in SmoothedLines(buf, cap) ==> lo <= y <= hi
  {
    var n := Min(MaxLen(buf), cap);
    SmoothedLinesShape(buf, cap);
    forall i | 0 <= i < n
      ensures lo <= ColumnMeans(buf, n)[i] <= hi
    {
      var c := Column(buf, i);
      forall j | 0 <= j < |c|
        ensures lo <= c[j] <= hi
      {
        ColumnMembership(buf, i, c[j]);
      }
      MeanBounds(c, lo, hi);
    }
    forall y | y in SmoothedLines(buf, cap)
      ensures lo <= y <= hi
    {
      assert y in multiset(SmoothedLines(buf, cap));
      assert y in multiset(ColumnMeans(buf, n));
      var i :| 0 <= i < n && ColumnMeans(buf, n)[i] == y;
    }
  }

  /** Pushing the same sorted list into every slot publishes that list, capped. */
  lemma SmoothedLinesOfRepeated(buf: seq<seq<real>>, v: seq<real>, cap: nat)
    requires |buf| > 0 && SortedAsc(v)
    requires forall k :: 0 <= k < |buf| ==> buf[k] == v
    ensures SmoothedLines(buf, cap) == Take(v, cap)
  {
    var n := Min(MaxLen(buf), cap);
    MaxLenOfRepeated(buf, v);
    ColumnMeansOfRepeated(buf, v, n);
    assert Take(v, cap) == v[..n];
    if n > 0 {
      SortOfSorted(v[..n]);
    }
  }

  lemma ColumnMeansOfRepeated(buf: seq<seq<real>>, v: seq<real>, n: nat)
    requires |buf| > 0 && n <= |v|
    requires forall k :: 0 <= k < |buf| ==> buf[k] == v
    ensures ColumnMeans(buf, n) == v[..n]
  {
    var ms := ColumnMeans(buf, n);
    forall i | 0 <= i < n
      ensures ms[i] == v[i]
    {
      ColumnOfRepeated(buf, v, i);
    }
  }

  lemma MaxLenOfRepeated(buf: seq<seq<real>>, v: seq<real>)
    requires |buf| > 0
    requires forall k :: 0 <= k < |buf| ==> buf[k] == v
    ensures MaxLen(buf) == |v|
  {
    var k :| 0 <= k < |buf| && |buf[k]| == MaxLen(buf);
  }

  lemma ColumnOfRepeated(buf: seq<seq<real>>, v: seq<real>, i: nat)
    requires |buf| > 0 && i < |v|
    requires forall k :: 0 <= k < |buf| ==> buf[k] == v
    ensures |Column(buf, i)| > 0 && Mean(Column(buf, i)) == v[i]
  {
    var c := Column(buf, i);
    ColumnMembership(buf, i, v[i]);
    forall j | 0 <= j < |c|
      ensures c[j] == v[i]
    {
      ColumnMembership(buf, i, c[j]);
    }
    MeanOfConstant(c, v[i]);
  }

  /** A worked example: buffer [2, 4], [2] publishes [2, 4]; index 1 is
      averaged over the first list only. */
  lemma SmoothedLinesExample()
    ensures SmoothedLines([[2.0, 4.0], [2.0]], 6) == [2.0, 4.0]
  {
    var buf := [[2.0, 4.0], [2.0]];
    assert MaxLen(buf) == 2 by {
      assert |buf[0]| == 2 && |buf[1]| == 1;
    }
    assert buf[..1] == [[2.0, 4.0]];
    assert Column(buf, 0) == [2.0, 2.0];
    assert Column(buf, 1) == [4.0];
    MeanOfConstant([2.0, 2.0], 2.0);
    assert ColumnMeans(buf, 2) == [2.0, 4.0];
    SortOfSorted([2.0, 4.0]);
  }

  /** A repeated value counts once per list that has it: buffer [1], [1], [4]
      publishes [2], the mean of 1, 1 and 4. */
  lemma SmoothedLinesRepeatedValue()
    ensures SmoothedLines([[1.0], [1.0], [4.0]], 6) == [2.0]
  {
    var buf := [[1.0], [1.0], [4.0]];
    assert buf[..2] == [[1.0], [1.0]] && buf[..2][..1] == [[1.0]];
    assert Column(buf, 0) == [1.0, 1.0, 4.0];
    var c := [1.0, 1.0, 4.0];
    assert c[..2] == [1.0, 1.0] && c[..2][..1] == [1.0];
    assert Sum(c) == 6.0;
    assert ColumnMeans(buf, 1) == [2.0];
  }

  /** The averaging loop of `getSmoothedStrings` / `getSmoothedFrets`. */
  method AverageLines(buf: seq<seq<real>>, cap: nat) returns (lines: seq<real>)
    ensures lines == SmoothedLines(buf, cap)
    ensures |lines| == Min(MaxLen(buf), cap) && SortedAsc(lines)
  {
    if buf == [] {
      return [];
    }
    var maxCount := MaxLen(buf);
    if maxCount == 0 {
      return [];
    }
    var averaged: seq<real> := [];
    for i := 0 to Min(maxCount, cap)
      invariant averaged == ColumnMeans(buf, i)
    {
      var values := Column(buf, i);
      ColumnNonEmpty(buf, i);
      if |values| > 0 {
        averaged := averaged + [Sum(values) / (|values| as real)];
      }
      assert averaged == ColumnMeans(buf, i + 1);
    }
    lines := Sort(averaged);
  }
}
