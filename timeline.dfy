/** The time axis shared by keyframe tracks and camera paths: a sequence of
    keyframe times kept in ascending order, the bracketing lookup that finds
    the two keyframes around a query time, and C's `fmod` used to wrap a
    looping track. Both `KeyframeTrack::getKeyframesAtTime` and
    `CameraPath::getKeyframesAtTime` run the same clamp-and-scan code; here
    it is written once, as `FindBracket`, and specified by `Locate`. */
module Timeline {

  /** Ascending order, as std::sort with the comparator `a.time < b.time`
      leaves a sequence. */
  predicate Sorted(ts: seq<real>) {
    forall i, j :: 0 <= i < j < |ts| ==> ts[i] <= ts[j]
  }

  /** Time of the last keyframe, 0 when there is none. On a sorted sequence
      that is the largest time. */
  function Duration(ts: seq<real>): (d: real)
    ensures |ts| == 0 ==> d == 0.0
    ensures |ts| > 0 ==> d in ts
    ensures Sorted(ts) ==> forall i :: 0 <= i < |ts| ==> ts[i] <= d
  {
    if |ts| == 0 then 0.0 else ts[|ts| - 1]
  }

  // ----------------------------------------------------------------- fmod

  /** C's conversion of a quotient toward zero. */
  function Trunc(r: real): (n: int)
    ensures r >= 0.0 ==> n == r.Floor
    ensures r < 0.0 ==> r <= n as real <= 0.0
  {
    if r >= 0.0 then r.Floor else -((-r).Floor)
  }

  /** C's `fmod(x, d)` for a non-zero divisor: the remainder of the quotient
      truncated toward zero, with the sign of `x`. For a positive divisor
      and a non-negative dividend it lies in [0, d) and differs from `x` by
      a whole number of periods. */
  function FMod(x: real, d: real): (r: real)
    requires d != 0.0
    ensures d > 0.0 && x >= 0.0 ==> 0.0 <= r < d
    ensures d > 0.0 && x >= 0.0 ==> x - r == (x / d).Floor as real * d
  {
    var r := x - (Trunc(x / d) as real) * d;
    if d > 0.0 && x >= 0.0 then
      FloorRemainder(x, d);
      r
    else
      r
  }

  lemma FloorRemainder(x: real, d: real)
    requires d > 0.0 && x >= 0.0
    ensures 0.0 <= x - (x / d).Floor as real * d < d
  {
    var f := (x / d).Floor as real;
    var q := x / d;
    assert q * d == x;
    MulLe(f, q, d);
    MulLt(q, f + 1.0, d);
    assert f * d <= q * d;
    assert q * d < (f + 1.0) * d;
    assert f * d <= x;
    assert x < (f + 1.0) * d;
    assert (f + 1.0) * d == f * d + d;
    Between(x, f * d, (f + 1.0) * d, d);
  }

  /** The linear step of FloorRemainder, kept apart so that the products
      are opaque to the solver. */
  lemma Between(x: real, m: real, p: real, d: real)
    requires m <= x < p && p == m + d
    ensures 0.0 <= x - m < d
  {
  }

  lemma MulLe(a: real, b: real, d: real)
    requires a <= b && d > 0.0
    ensures a * d <= b * d
  {
    assert (b - a) * d >= 0.0;
  }

  lemma MulLt(a: real, b: real, d: real)
    requires a < b && d > 0.0
    ensures a * d < b * d
  {
    assert (b - a) * d > 0.0;
  }

  /** A positive factor can be cancelled from both sides of an equation. */
  lemma MulCancel(a: real, b: real, d: real)
    requires d > 0.0 && a * d == b * d
    ensures a == b
  {
    if a < b {
      MulLt(a, b, d);
    } else if b < a {
      MulLt(b, a, d);
    }
  }

  /** Subtracting one period from a dividend above the period does not
      change the remainder. */
  lemma {:induction false} FModShift(x: real, d: real)
    requires d > 0.0 && x >= d
    ensures FMod(x - d, d) == FMod(x, d)
  {
    var q := x / d;
    assert q * d == x;
    assert (q - 1.0) * d == x - d;
    MulCancel((x - d) / d, q - 1.0, d);
    assert (q - 1.0).Floor == q.Floor - 1;
  }

  /** A dividend strictly between one and two periods loses exactly one. */
  lemma {:induction false} FModOnePeriod(x: real, d: real)
    requires d > 0.0 && d < x < 2.0 * d
    ensures FMod(x, d) == x - d
  {
    var q := x / d;
    assert 1.0 < q by {
      MulLt(1.0, q, d);
    }
    assert q < 2.0 by {
      if q >= 2.0 {
        MulLe(2.0, q, d);
      }
    }
    assert q.Floor == 1;
  }

  // --------------------------------------------------------------- lookup

  /** The result of a lookup: two keyframe indices and the blend fraction
      between them. */
  datatype Bracket = Bracket(idx0: int, idx1: int, t: real)

  /** What an empty sequence yields. */
  const NoKeyframes := Bracket(-1, -1, 0.0)

  /** Index of the first time that is at least `q` (|ts| when none is). */
  function FirstAtLeast(ts: seq<real>, q: real): (j: nat)
    ensures j <= |ts|
    ensures forall i :: 0 <= i < j ==> ts[i] < q
    ensures j < |ts| ==> q <= ts[j]
  {
    if |ts| == 0 then 0
    else if q <= ts[0] then 0
    else 1 + FirstAtLeast(ts[1..], q)
  }

  /** The bracketing lookup without loop wrap, stated declaratively: no
      keyframe gives NoKeyframes; a time at or before the first keyframe
      clamps to it, one at or after the last clamps to the last; otherwise
      the pair is (j-1, j) for the first keyframe j not earlier than the
      query, and the fraction is the query's position between their times. */
  function Locate(ts: seq<real>, q: real): (b: Bracket)
    requires Sorted(ts)
    ensures |ts| == 0 ==> b == NoKeyframes
    ensures |ts| > 0 ==> 0 <= b.idx0 <= b.idx1 <= b.idx0 + 1 && b.idx1 < |ts|
    ensures |ts| > 0 ==> 0.0 <= b.t <= 1.0
    ensures b.idx0 == b.idx1 ==> b.t == 0.0
  {
    if |ts| == 0 then NoKeyframes
    else if q <= ts[0] then Bracket(0, 0, 0.0)
    else if q >= ts[|ts| - 1] then Bracket(|ts| - 1, |ts| - 1, 0.0)
    else
      var j := FirstAtLeast(ts, q);
      FractionInUnit(q - ts[j - 1], ts[j] - ts[j - 1]);
      Bracket(j - 1, j, (q - ts[j - 1]) / (ts[j] - ts[j - 1]))
  }

  lemma FractionInUnit(num: real, den: real)
    requires 0.0 < num <= den
    ensures 0.0 < num / den <= 1.0
  {
    var r := num / den;
    assert r * den == num;
    assert (1.0 - r) * den == den - num;
    assert 0.0 < r;
  }

  /** The bracketing lookup of a keyframe track. When the track loops and
      the query lies beyond its duration, the query is first wrapped with
      fmod. With a duration of 0 that fmod yields NaN; every comparison
      with NaN is false, so the clamps and the scan all fail and the
      lookup ends in its fallback (0, 0, 0). */
  function TrackLookup(ts: seq<real>, loop: bool, q: real): (b: Bracket)
    requires Sorted(ts)
    ensures |ts| == 0 <==> b == NoKeyframes
    ensures |ts| > 0 ==> 0 <= b.idx0 <= b.idx1 <= b.idx0 + 1 && b.idx1 < |ts|
    ensures |ts| > 0 ==> 0.0 <= b.t <= 1.0
    ensures b.idx0 == b.idx1 ==> b.t == 0.0
  {
    if |ts| == 0 then NoKeyframes
    else if loop && q > Duration(ts) then
      if Duration(ts) == 0.0 then Bracket(0, 0, 0.0)
      else Locate(ts, FMod(q, Duration(ts)))
    else Locate(ts, q)
  }

  /** The scan over adjacent pairs, as the source writes it: an empty
      sequence, the two clamps, then the first i with
      ts[i] <= q <= ts[i+1]. The division needs a non-zero interval; the
      proof shows that on a sorted sequence the interval found is strictly
      positive, even with repeated times, and that the fallback after the
      loop is never reached. */
  method FindBracket(ts: seq<real>, q: real) returns (idx0: int, idx1: int, t: real)
    requires Sorted(ts)
    ensures Bracket(idx0, idx1, t) == Locate(ts, q)
  {
    if |ts| == 0 {
      return -1, -1, 0.0;
    }
    if q <= ts[0] {
      return 0, 0, 0.0;
    }
    if q >= ts[|ts| - 1] {
      return |ts| - 1, |ts| - 1, 0.0;
    }
    var i := 0;
    while i < |ts| - 1
      invariant 0 <= i <= |ts| - 1
      invariant ts[i] < q
      invariant forall k :: 0 <= k <= i ==> ts[k] < q
    {
      if q >= ts[i] && q <= ts[i + 1] {
        var timeDiff := ts[i + 1] - ts[i];
        assert i + 1 == FirstAtLeast(ts, q);
        return i, i + 1, (q - ts[i]) / timeDiff;
      }
      i := i + 1;
    }
    // i == |ts| - 1 and ts[i] < q contradicts q < ts[|ts| - 1]
    assert false;
    idx0, idx1, t := 0, 0, 0.0;
  }

  /** On a sorted sequence, every query strictly inside the time range has
      an adjacent pair that brackets it with a strictly positive interval,
      so the scan always returns from inside its loop. */
  lemma {:induction false} ScanFindsPair(ts: seq<real>, q: real)
    requires Sorted(ts) && |ts| > 0 && ts[0] < q < ts[|ts| - 1]
    ensures exists i :: 0 <= i < |ts| - 1 && ts[i] <= q <= ts[i + 1] && ts[i] < ts[i + 1]
  {
    var j := FirstAtLeast(ts, q);
    assert 0 < j < |ts|;
    assert ts[j - 1] <= q <= ts[j] && ts[j - 1] < ts[j];
  }

  /** Interior queries: the pair is (j-1, j) for the first keyframe j at or
      after the query, the query lies in the half-open interval
      (ts[j-1], ts[j]], the fraction is in (0, 1], and interpolating the two
      times with that fraction gives back the query. */
  lemma {:induction false} LocateInterior(ts: seq<real>, q: real)
    requires Sorted(ts) && |ts| > 0 && ts[0] < q < ts[|ts| - 1]
    ensures var b := Locate(ts, q);
      && b.idx1 == FirstAtLeast(ts, q) && b.idx0 == b.idx1 - 1
      && ts[b.idx0] < q <= ts[b.idx1]
      && ts[b.idx1] - ts[b.idx0] > 0.0
      && 0.0 < b.t <= 1.0
      && ts[b.idx0] + (ts[b.idx1] - ts[b.idx0]) * b.t == q
  {
    var j := FirstAtLeast(ts, q);
    var d := ts[j] - ts[j - 1];
    assert d > 0.0;
    FractionInUnit(q - ts[j - 1], d);
    assert (q - ts[j - 1]) / d * d == q - ts[j - 1];
  }

  /** Clamping at both ends, for a non-empty track queried without wrap. */
  lemma LocateClamps(ts: seq<real>, q: real)
    requires Sorted(ts) && |ts| > 0
    ensures q <= ts[0] ==> Locate(ts, q) == Bracket(0, 0, 0.0)
    ensures q >= ts[|ts| - 1] && q > ts[0] ==> Locate(ts, q) == Bracket(|ts| - 1, |ts| - 1, 0.0)
  {
  }

  /** A track with one keyframe resolves to that keyframe for every query
      time, looping or not. */
  lemma SingleKeyframe(ts: seq<real>, loop: bool, q: real)
    requires |ts| == 1
    ensures TrackLookup(ts, loop, q) == Bracket(0, 0, 0.0)
  {
  }

  /** A looping track with positive duration D looks a query beyond D up at
      fmod(query, D), which lies in [0, D). */
  lemma LoopWrap(ts: seq<real>, q: real)
    requires Sorted(ts) && |ts| > 0 && Duration(ts) > 0.0 && q > Duration(ts)
    ensures 0.0 <= FMod(q, Duration(ts)) < Duration(ts)
    ensures TrackLookup(ts, true, q) == Locate(ts, FMod(q, Duration(ts)))
  {
  }

  /** The loop wrap is periodic: beyond the duration D, a query and the same
      query one period earlier resolve to the same keyframes, except at 2D
      exactly, where the earlier query D is not wrapped (it clamps to the
      last keyframe) while 2D wraps to 0. */
  lemma {:induction false} LoopPeriodic(ts: seq<real>, q: real)
    requires Sorted(ts) && |ts| > 0 && Duration(ts) > 0.0
    requires q > Duration(ts) && q != 2.0 * Duration(ts)
    ensures TrackLookup(ts, true, q) == TrackLookup(ts, true, q - Duration(ts))
  {
    var d := Duration(ts);
    if q - d > d {
      FModShift(q, d);
    } else {
      FModOnePeriod(q, d);
    }
  }

  /** The exception in LoopPeriodic is real: a looping track with times
      0, 5, 10 resolves 20 to the first keyframe but 10 to the last. */
  lemma LoopPeriodicFailsAtTwoPeriods()
    ensures var ts := [0.0, 5.0, 10.0];
      Sorted(ts) && TrackLookup(ts, true, 20.0) != TrackLookup(ts, true, 20.0 - Duration(ts))
  {
    var ts := [0.0, 5.0, 10.0];
    assert Trunc(20.0 / 10.0) == 2;
    assert FMod(20.0, 10.0) == 0.0;
  }

  /** Querying at the time of a keyframe whose neighbours have different
      times resolves to that keyframe: it is the start of a bracket with
      fraction 0 or the end of one with fraction 1. */
  lemma {:induction false} KeyframeTimeBracket(ts: seq<real>, i: int)
    requires Sorted(ts) && 0 <= i < |ts|
    requires i == 0 || ts[i - 1] < ts[i]
    requires i == |ts| - 1 || ts[i] < ts[i + 1]
    ensures var b := Locate(ts, ts[i]);
      (b.idx0 == i && b.t == 0.0) || (b.idx1 == i && b.t == 1.0)
  {
    var q := ts[i];
    if q <= ts[0] {
      assert i == 0;
    } else if q >= ts[|ts| - 1] {
      assert i == |ts| - 1;
    } else {
      var j := FirstAtLeast(ts, q);
      assert j == i;
      SelfRatio(q - ts[j - 1]);
    }
  }

  lemma SelfRatio(d: real)
    requires d > 0.0
    ensures d / d == 1.0
  {
  }

  /** A query not beyond the duration is never wrapped. */
  lemma NoWrapWithinDuration(ts: seq<real>, loop: bool, q: real)
    requires Sorted(ts) && q <= Duration(ts)
    ensures TrackLookup(ts, loop, q) == Locate(ts, q)
  {
  }

  /** A camera path runs the same lookup as a track whose loop flag is off. */
  lemma CameraLookupIsTrackLookupWithoutLoop(ts: seq<real>, q: real)
    requires Sorted(ts)
    ensures Locate(ts, q) == TrackLookup(ts, false, q)
  {
  }

  // ------------------------------------------------------------ insertion

  /** The position at which std::sort may place a new time in an already
      sorted sequence: after every time not later than it. */
  method UpperBound(ts: seq<real>, x: real) returns (i: nat)
    requires Sorted(ts)
    ensures i <= |ts|
    ensures forall k :: 0 <= k < i ==> ts[k] <= x
    ensures forall k :: i <= k < |ts| ==> x < ts[k]
  {
    i := 0;
    while i < |ts| && ts[i] <= x
      invariant i <= |ts|
      invariant forall k :: 0 <= k < i ==> ts[k] <= x
    {
      i := i + 1;
    }
  }

  /** Inserting at the upper bound keeps the sequence sorted. */
  lemma InsertKeepsSorted(ts: seq<real>, i: nat, x: real)
    requires Sorted(ts) && i <= |ts|
    requires forall k :: 0 <= k < i ==> ts[k] <= x
    requires forall k :: i <= k < |ts| ==> x < ts[k]
    ensures Sorted(ts[..i] + [x] + ts[i..])
  {
    var r := ts[..i] + [x] + ts[i..];
    forall a, b | 0 <= a < b < |r| ensures r[a] <= r[b] {
      if a < i && b > i {
        assert r[b] == ts[b - 1];
      }
    }
  }
}
