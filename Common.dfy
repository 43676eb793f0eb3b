/** Helpers shared by the tracker, the camera manager and the overlays:
    an Option type, sums and means over reals, the two sorts the source
    gets from Swift's standard library (`sorted()` and `Array(Set(xs)).sorted()`),
    and the 15 Hz frame throttle both detection paths use. */
module Common {

  datatype Option<T> = None | Some(value: T)

  function Abs(x: real): real { if x < 0.0 then -x else x }

  function Min(a: int, b: int): int { if a <= b then a else b }

  /** Multiplying both sides by a positive factor keeps a strict comparison. */
  lemma ScaleCompare(a: real, b: real, c: real)
    requires c > 0.0
    ensures a < b <==> a * c < b * c
  {
    if a < b {
      assert (b - a) * c > 0.0;
    }
    if a * c < b * c {
      assert (b - a) * c > 0.0;
    }
  }

  /** Comparing a ratio with a positive denominator is comparing cross-multiplied. */
  lemma RatioCompare(num: real, den: real, k: real)
    requires den > 0.0
    ensures num / den > k <==> num > k * den
    ensures num / den < k <==> num < k * den
  {
    var q := num / den;
    assert q * den == num;
    ScaleCompare(k, q, den);
    ScaleCompare(q, k, den);
  }

  // ---------------------------------------------------------------------------
  // Sums and means

  /** Sum of `f` over `s`, folded left to right like Swift's `reduce(0, +)`. */
  function SumOf<T>(s: seq<T>, f: T -> real): real
  {
    if s == [] then 0.0 else SumOf(s[..|s| - 1], f) + f(s[|s| - 1])
  }

  function Sum(s: seq<real>): real
  {
    if s == [] then 0.0 else Sum(s[..|s| - 1]) + s[|s| - 1]
  }

  /** Arithmetic mean; only defined for a non-empty sequence. */
  function Mean(s: seq<real>): real
    requires |s| > 0
  {
    Sum(s) / (|s| as real)
  }

  /** A sum of `f` is bounded by the pointwise bounds of `f`. */
  lemma {:induction false} SumOfBounds<T>(s: seq<T>, f: T -> real, lo: real, hi: real)
    requires forall i :: 0 <= i < |s| ==> lo <= f(s[i]) <= hi
    ensures (|s| as real) * lo <= SumOf(s, f) <= (|s| as real) * hi
  {
    if s != [] {
      SumOfBounds(s[..|s| - 1], f, lo, hi);
    }
  }

  /** Summing a pointwise smaller quantity gives a smaller sum. */
  lemma {:induction false} SumOfMonotone<T>(s: seq<T>, f: T -> real, g: T -> real)
    requires forall i :: 0 <= i < |s| ==> f(s[i]) <= g(s[i])
    ensures SumOf(s, f) <= SumOf(s, g)
  {
    if s != [] {
      SumOfMonotone(s[..|s| - 1], f, g);
    }
  }

  /** When `f` is the same value `v` everywhere, the sum is `|s| * v`. */
  lemma {:induction false} SumOfConstant<T>(s: seq<T>, f: T -> real, v: real)
    requires forall i :: 0 <= i < |s| ==> f(s[i]) == v
    ensures SumOf(s, f) == (|s| as real) * v
  {
    if s != [] {
      SumOfConstant(s[..|s| - 1], f, v);
    }
  }

  /** A mean of values inside [lo, hi] is inside [lo, hi]. */
  lemma {:induction false} MeanBounds(s: seq<real>, lo: real, hi: real)
    requires |s| > 0
    requires forall i :: 0 <= i < |s| ==> lo <= s[i] <= hi
    ensures lo <= Mean(s) <= hi
  {
    SumBounds(s, lo, hi);
    var n := |s| as real;
    assert n * lo <= Sum(s) <= n * hi;
    assert Sum(s) / n >= lo by {
      assert Sum(s) >= lo * n;
    }
    assert Sum(s) / n <= hi by {
      assert Sum(s) <= hi * n;
    }
  }

  lemma {:induction false} SumBounds(s: seq<real>, lo: real, hi: real)
    requires forall i :: 0 <= i < |s| ==> lo <= s[i] <= hi
    ensures (|s| as real) * lo <= Sum(s) <= (|s| as real) * hi
  {
    if s != [] {
      SumBounds(s[..|s| - 1], lo, hi);
    }
  }

  /** The mean of copies of one value is that value. */
  lemma {:induction false} MeanOfConstant(s: seq<real>, v: real)
    requires |s| > 0
    requires forall i :: 0 <= i < |s| ==> s[i] == v
    ensures Mean(s) == v
  {
    SumBounds(s, v, v);
  }

  // ---------------------------------------------------------------------------
  // Ordering

  predicate SortedAsc(s: seq<real>)
  {
    forall i, j :: 0 <= i < j < |s| ==> s[i] <= s[j]
  }

  predicate StrictlyIncreasing(s: seq<real>)
  {
    forall i, j :: 0 <= i < j < |s| ==> s[i] < s[j]
  }

  /** Inserts `x` into a sorted sequence, keeping duplicates. */
  function Insert(x: real, s: seq<real>): (r: seq<real>)
    requires SortedAsc(s)
    ensures SortedAsc(r)
    ensures multiset(r) == multiset(s) + multiset{x}
    ensures forall i :: 0 <= i < |r| ==> r[i] == x || r[i] in s
  {
    if s == [] then [x]
    else if x <= s[0] then [x] + s
    else
      assert s == [s[0]] + s[1..];
      [s[0]] + Insert(x, s[1..])
  }

  /** Swift's `sorted()` on reals: the ascending permutation of `s`. */
  function Sort(s: seq<real>): (r: seq<real>)
    ensures SortedAsc(r)
    ensures multiset(r) == multiset(s)
    ensures |r| == |s|
  {
    if s == [] then []
    else
      var rest := Sort(s[1..]);
      assert s == [s[0]] + s[1..];
      var r := Insert(s[0], rest);
      assert |r| == |multiset(r)| == |rest| + 1;
      r
  }

  /** Sorting an already sorted sequence leaves it as it is. */
  lemma {:induction false} SortOfSorted(s: seq<real>)
    requires SortedAsc(s)
    ensures Sort(s) == s
  {
    if s != [] {
      SortOfSorted(s[1..]);
      assert Sort(s[1..]) == s[1..];
      assert s == [s[0]] + s[1..];
    }
  }

  /** Inserts `x` into a strictly increasing sequence unless it is already there. */
  function InsertDistinct(x: real, s: seq<real>): (r: seq<real>)
    requires StrictlyIncreasing(s)
    ensures StrictlyIncreasing(r)
    ensures forall y :: y in r <==> y in s || y == x
    ensures |r| <= |s| + 1
  {
    if s == [] then [x]
    else if x < s[0] then [x] + s
    else if x == s[0] then s
    else
      var tail := InsertDistinct(x, s[1..]);
      assert forall y :: y in s <==> y == s[0] || y in s[1..];
      ConsStrictlyIncreasing(s[0], tail);
      [s[0]] + tail
  }

  /** A value below every element of a strictly increasing sequence can be
      put in front of it. */
  lemma ConsStrictlyIncreasing(a: real, t: seq<real>)
    requires StrictlyIncreasing(t)
    requires forall y :: y in t ==> a < y
    ensures StrictlyIncreasing([a] + t)
  {
    var r := [a] + t;
    forall i, j | 0 <= i < j < |r|
      ensures r[i] < r[j]
    {
      assert r[j] == t[j - 1] && t[j - 1] in t;
      if i > 0 {
        assert r[i] == t[i - 1];
      }
    }
  }

  /** Swift's `Array(Set(s)).sorted()`: the distinct values of `s`, ascending. */
  function SortDistinct(s: seq<real>): (r: seq<real>)
    ensures StrictlyIncreasing(r)
    ensures forall y :: y in r <==> y in s
    ensures |r| <= |s|
  {
    if s == [] then []
    else
      var rest := SortDistinct(s[1..]);
      assert forall y :: y in s <==> y == s[0] || y in s[1..];
      InsertDistinct(s[0], rest)
  }

  /** `Array(s.prefix(k))` when `s.count >= k`, `s` otherwise. */
  function Take(s: seq<real>, k: nat): seq<real>
  {
    if |s| >= k then s[..k] else s
  }

  // ---------------------------------------------------------------------------
  // The 15 Hz throttle

  /** Both detection paths accept a frame only when more than 1/15 s has
      passed since the last accepted one. */
  const DetectionFPS: real := 15.0
  const MinFrameInterval: real := 1.0 / DetectionFPS

  /** The gate of both throttles: strictly more than one interval since `last`. */
  predicate FrameDue(now: real, last: real)
  {
    now - last > MinFrameInterval
  }

  /** Accepted frame times: every two of them are more than one interval apart,
      in the order they were accepted. */
  ghost predicate Spaced(ts: seq<real>)
  {
    forall i, j :: 0 <= i < j < |ts| ==> ts[j] - ts[i] > MinFrameInterval
  }

  /** Appending a frame that passed the gate against the last accepted time
      keeps the times spaced. */
  lemma AcceptKeepsSpaced(ts: seq<real>, now: real)
    requires Spaced(ts) && ts != [] && FrameDue(now, ts[|ts| - 1])
    ensures Spaced(ts + [now])
  {
  }

  /** Over a run of accepted frames the elapsed time grows by more than one
      interval per frame. */
  lemma {:induction false} SpreadGrows(ts: seq<real>, i: nat, j: nat)
    requires Spaced(ts) && i <= j < |ts|
    ensures ts[j] - ts[i] >= (j - i) as real * MinFrameInterval
  {
    if i < j {
      SpreadGrows(ts, i, j - 1);
      assert ts[j] - ts[j - 1] > MinFrameInterval;
    }
  }

  /** At most 15 accepted frames fall in any closed window of one second:
      if frames i..j all lie in [t, t + 1], there are at most 15 of them. */
  lemma AtMostFifteenPerSecond(ts: seq<real>, i: nat, j: nat, t: real)
    requires Spaced(ts) && i <= j < |ts|
    requires t <= ts[i] && ts[j] <= t + 1.0
    ensures j - i + 1 <= 15
  {
    if i < j {
      SpreadGrows(ts, i + 1, j);
      assert ts[i + 1] - ts[i] > MinFrameInterval;
      assert ts[j] - ts[i] > (j - i) as real * MinFrameInterval;
      assert (j - i) as real / 15.0 < 1.0;
    }
  }
}
