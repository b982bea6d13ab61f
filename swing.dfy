/**
  Swing-extrema detection (main.py, `find_swing_lows_highs`).

  An index `i` of a series is a swing low for a window `w` when `w <= i < |s| - w`
  and `s[i]` lies strictly below each of the `w` values before it and each of the
  `w` values after it; a swing high is the mirror, strictly above. Equal
  neighbours disqualify a candidate, so a flat stretch yields no swing point.

  The repository's loop tests "strictly below" and then calls `series.low()` and
  `series.high()`, which a pandas Series does not have: as written it raises at
  the first strict local minimum (see `FindSwingLowsHighsAsWritten`). The model
  of record, `Swings` and `FindSwingLowsHighs`, implements the evident intent:
  lows are strict local minima and highs strict local maxima, which is what the
  bearish divergence test downstream needs.
*/
module Swing {
  import opened Wrappers

  /** Which kind of extremum is sought. */
  datatype Extremum = Low | High

  /** A swing point: its position in the trimmed series and the value there. */
  datatype SwingPoint = SwingPoint(index: nat, value: real)

  /** `a` lies strictly beyond `b` in the direction of `e` (below for lows, above for highs). */
  predicate Beyond(a: real, b: real, e: Extremum)
  {
    if e == Low then a < b else a > b
  }

  /** `i` is a swing point of kind `e` of `s` for window `w`: `s[i]` is beyond every other value within distance `w`. */
  predicate IsSwing(s: seq<real>, w: nat, i: int, e: Extremum)
  {
    && w <= i < |s| - w
    && forall m :: i - w <= m <= i + w && m != i ==> Beyond(s[i], s[m], e)
  }

  /** Every point of `r` is a swing point `(i, s[i])` of kind `e`, and the indices strictly increase. */
  predicate SortedSwings(s: seq<real>, w: nat, e: Extremum, r: seq<SwingPoint>)
  {
    && (forall k :: 0 <= k < |r| ==> IsSwing(s, w, r[k].index, e) && r[k].value == s[r[k].index])
    && (forall k, l :: 0 <= k < l < |r| ==> r[k].index < r[l].index)
  }

  /** `i` is the index of some point of `r`. */
  predicate Listed(r: seq<SwingPoint>, i: int)
  {
    exists k :: 0 <= k < |r| && r[k].index == i
  }

  /** The swing points of kind `e` among the candidate indices `w .. n-1`, in ascending order. */
  function SwingsBelow(s: seq<real>, w: nat, e: Extremum, n: nat): seq<SwingPoint>
    decreases n
  {
    if n <= w then []
    else SwingsBelow(s, w, e, n - 1) + (if IsSwing(s, w, n - 1, e) then [SwingPoint(n - 1, s[n - 1])] else [])
  }

  /** The scan up to `n` lists only swing points `(i, s[i])` with `i < n`, in strictly ascending index order. */
  lemma {:induction false} SwingsBelowSound(s: seq<real>, w: nat, e: Extremum, n: nat)
    ensures SortedSwings(s, w, e, SwingsBelow(s, w, e, n))
    ensures forall k :: 0 <= k < |SwingsBelow(s, w, e, n)| ==> SwingsBelow(s, w, e, n)[k].index < n
    decreases n
  {
    if n > w {
      var prev := SwingsBelow(s, w, e, n - 1);
      SwingsBelowSound(s, w, e, n - 1);
      var r := SwingsBelow(s, w, e, n);
      if IsSwing(s, w, n - 1, e) {
        assert r == prev + [SwingPoint(n - 1, s[n - 1])];
        assert forall k :: 0 <= k < |prev| ==> r[k] == prev[k];
      } else {
        assert r == prev;
      }
    }
  }

  /** The scan up to `n` lists every swing point below `n`. */
  lemma {:induction false} SwingsBelowComplete(s: seq<real>, w: nat, e: Extremum, n: nat, i: nat)
    requires i < n && IsSwing(s, w, i, e)
    ensures Listed(SwingsBelow(s, w, e, n), i)
    decreases n
  {
    var r := SwingsBelow(s, w, e, n);
    var prev := SwingsBelow(s, w, e, n - 1);
    if i == n - 1 {
      assert r == prev + [SwingPoint(n - 1, s[n - 1])];
      assert r[|prev|].index == i;
    } else {
      SwingsBelowComplete(s, w, e, n - 1, i);
      var k :| 0 <= k < |prev| && prev[k].index == i;
      assert r[k] == prev[k];
    }
  }

  /** The end of the candidate range `range(window, len(series) - window)`. */
  function CandidateEnd(s: seq<real>, w: nat): nat
  {
    if |s| >= w then |s| - w else 0
  }

  /** All swing points of kind `e` of `s`, in ascending index order: exactly the indices that are swings. */
  function Swings(s: seq<real>, w: nat, e: Extremum): (r: seq<SwingPoint>)
    ensures SortedSwings(s, w, e, r)
    ensures forall i :: IsSwing(s, w, i, e) <==> Listed(r, i)
  {
    var n := CandidateEnd(s, w);
    SwingsBelowSound(s, w, e, n);
    forall i | IsSwing(s, w, i, e)
      ensures Listed(SwingsBelow(s, w, e, n), i)
    {
      SwingsBelowComplete(s, w, e, n, i);
    }
    SwingsBelow(s, w, e, n)
  }

  /**
    One candidate of the loop: whether `s[i]` beats all `w` neighbours on both
    sides, as a low and as a high. Each `all(...)` of the source is one pass over
    `j = 1 .. w`; the passes are fused here.
  */
  method CheckCandidate(s: seq<real>, w: nat, i: nat) returns (isLow: bool, isHigh: bool)
    requires w <= i < |s| - w
    ensures isLow == IsSwing(s, w, i, Low)
    ensures isHigh == IsSwing(s, w, i, High)
  {
    isLow, isHigh := true, true;
    var j := 1;
    while j <= w
      invariant 1 <= j <= w + 1
      invariant isLow == forall m :: i - j < m < i + j && m != i ==> s[i] < s[m]
      invariant isHigh == forall m :: i - j < m < i + j && m != i ==> s[i] > s[m]
    {
      isLow := isLow && s[i] < s[i - j] && s[i] < s[i + j];
      isHigh := isHigh && s[i] > s[i - j] && s[i] > s[i + j];
      j := j + 1;
    }
  }

  /**
    The detector: scans the candidates `window .. len - window - 1` in order and
    appends each swing low and each swing high it meets.
  */
  method FindSwingLowsHighs(series: seq<real>, window: nat) returns (lows: seq<SwingPoint>, highs: seq<SwingPoint>)
    ensures lows == Swings(series, window, Low)
    ensures highs == Swings(series, window, High)
  {
    lows, highs := [], [];
    var stop := CandidateEnd(series, window);
    var i := window;
    while i < stop
      invariant window <= i && (i <= stop || i == window)
      invariant lows == SwingsBelow(series, window, Low, i)
      invariant highs == SwingsBelow(series, window, High, i)
    {
      var isLow, isHigh := CheckCandidate(series, window, i);
      if isLow {
        lows := lows + [SwingPoint(i, series[i])];
      }
      if isHigh {
        highs := highs + [SwingPoint(i, series[i])];
      }
      i := i + 1;
    }
    if stop < window {
      assert SwingsBelow(series, window, Low, i) == [] == SwingsBelow(series, window, Low, stop);
      assert SwingsBelow(series, window, High, i) == [] == SwingsBelow(series, window, High, stop);
    }
  }

  /** With `w >= 1`, a swing low lies strictly below its two adjacent values, and a swing high strictly above. */
  lemma AdjacentNeighbours(s: seq<real>, w: nat, i: int, e: Extremum)
    requires w >= 1 && IsSwing(s, w, i, e)
    ensures Beyond(s[i], s[i - 1], e) && Beyond(s[i], s[i + 1], e)
  {
    assert i - w <= i - 1 && i + 1 <= i + w;
  }

  /** A strictly increasing series has no swing low and no swing high when `w >= 1`. */
  lemma {:induction false} IncreasingHasNoSwings(s: seq<real>, w: nat)
    requires w >= 1
    requires forall i :: 0 < i < |s| ==> s[i - 1] < s[i]
    ensures Swings(s, w, Low) == [] && Swings(s, w, High) == []
  {
    var lows, highs := Swings(s, w, Low), Swings(s, w, High);
    if |lows| > 0 {
      var i := lows[0].index;
      AdjacentNeighbours(s, w, i, Low);
      assert false;
    }
    if |highs| > 0 {
      var i := highs[0].index;
      AdjacentNeighbours(s, w, i, High);
      assert false;
    }
  }

  /** A strictly decreasing series has no swing low and no swing high when `w >= 1`. */
  lemma {:induction false} DecreasingHasNoSwings(s: seq<real>, w: nat)
    requires w >= 1
    requires forall i :: 0 < i < |s| ==> s[i - 1] > s[i]
    ensures Swings(s, w, Low) == [] && Swings(s, w, High) == []
  {
    var lows, highs := Swings(s, w, Low), Swings(s, w, High);
    if |lows| > 0 {
      var i := lows[0].index;
      AdjacentNeighbours(s, w, i, Low);
      assert false;
    }
    if |highs| > 0 {
      var i := highs[0].index;
      AdjacentNeighbours(s, w, i, High);
      assert false;
    }
  }

  /** `s` falls strictly up to index `k` and rises strictly after it. */
  predicate VShaped(s: seq<real>, k: nat)
  {
    && k < |s|
    && (forall i :: 0 < i <= k ==> s[i - 1] > s[i])
    && (forall i :: k < i < |s| ==> s[i - 1] < s[i])
  }

  /** Everything in a V lies strictly above its bottom `k`. */
  lemma {:induction false} BottomIsLeast(s: seq<real>, k: nat, m: nat)
    requires VShaped(s, k) && m < |s| && m != k
    ensures s[k] < s[m]
    decreases if m < k then k - m else m - k
  {
    if m < k {
      if m + 1 < k {
        BottomIsLeast(s, k, m + 1);
      }
      assert s[m] > s[m + 1];
    } else {
      if m - 1 > k {
        BottomIsLeast(s, k, m - 1);
      }
      assert s[m - 1] < s[m];
    }
  }

  /** A V-shaped series whose bottom `k` has `w` neighbours on each side has exactly one swing low, at `k`, and no swing high. */
  lemma {:induction false} VShapeHasOneLow(s: seq<real>, w: nat, k: nat)
    requires w >= 1 && w <= k < |s| - w
    requires VShaped(s, k)
    ensures Swings(s, w, Low) == [SwingPoint(k, s[k])]
    ensures Swings(s, w, High) == []
  {
    var lows, highs := Swings(s, w, Low), Swings(s, w, High);
    // k is a swing low, so it is listed.
    forall m | k - w <= m <= k + w && m != k
      ensures Beyond(s[k], s[m], Low)
    {
      BottomIsLeast(s, k, m);
    }
    assert IsSwing(s, w, k, Low);
    assert Listed(lows, k);
    var n :| 0 <= n < |lows| && lows[n].index == k;
    // Every listed low is k; indices strictly increase, so there is only one.
    forall p | 0 <= p < |lows|
      ensures lows[p].index == k
    {
      var i := lows[p].index;
      AdjacentNeighbours(s, w, i, Low);
    }
    if |lows| > 1 {
      assert false;
    }
    assert lows == [SwingPoint(k, s[k])];
    // No index is a swing high.
    if |highs| > 0 {
      var i := highs[0].index;
      AdjacentNeighbours(s, w, i, High);
      assert false;
    }
  }

  /** The fault the repository's loop raises: `Series` has no attribute `low`. */
  datatype Fault = SeriesHasNoLowMethod

  /**
    The loop exactly as the repository writes it (main.py:88-94): the only test
    is "strictly below every neighbour", and the first candidate that passes it
    reaches the call to `series.low()`, which raises before anything is appended.
  */
  function ScanAsWritten(s: seq<real>, w: nat, i: nat, stop: nat): (r: Result<(seq<SwingPoint>, seq<SwingPoint>), Fault>)
    requires w <= i
    requires stop <= CandidateEnd(s, w)
    ensures r.Success? ==> r.value == ([], [])
    decreases stop - i
  {
    if i >= stop then Success(([], []))
    else if IsSwing(s, w, i, Low) then Failure(SeriesHasNoLowMethod)
    else ScanAsWritten(s, w, i + 1, stop)
  }

  function FindSwingLowsHighsAsWritten(s: seq<real>, w: nat): (r: Result<(seq<SwingPoint>, seq<SwingPoint>), Fault>)
    ensures r.Success? ==> r.value == ([], [])
  {
    ScanAsWritten(s, w, w, CandidateEnd(s, w))
  }

  /** As written, the scan from `i` raises exactly when some candidate from `i` on is a strict local minimum. */
  lemma {:induction false} ScanAsWrittenFails(s: seq<real>, w: nat, i: nat, stop: nat)
    requires w <= i
    requires stop <= CandidateEnd(s, w)
    ensures ScanAsWritten(s, w, i, stop).Failure? <==> exists m :: i <= m < stop && IsSwing(s, w, m, Low)
    decreases stop - i
  {
    if i < stop && !IsSwing(s, w, i, Low) {
      ScanAsWrittenFails(s, w, i + 1, stop);
      if exists m :: i <= m < stop && IsSwing(s, w, m, Low) {
        var m :| i <= m < stop && IsSwing(s, w, m, Low);
        assert m != i;
      }
    }
  }

  /** As written, the detector raises exactly when the series has a strict local minimum; otherwise it reports no swing point at all. */
  lemma {:induction false} AsWrittenRaisesIffSwingLow(s: seq<real>, w: nat)
    ensures FindSwingLowsHighsAsWritten(s, w).Failure? <==> Swings(s, w, Low) != []
  {
    ScanAsWrittenFails(s, w, w, CandidateEnd(s, w));
    var lows := Swings(s, w, Low);
    if lows != [] {
      assert IsSwing(s, w, lows[0].index, Low);
    }
  }

  /** The series 5, 4, 3, 2, 1, 0, 1, 2, 3, 4, 5. */
  const VExample: seq<real> := [5.0, 4.0, 3.0, 2.0, 1.0, 0.0, 1.0, 2.0, 3.0, 4.0, 5.0]

  lemma VExampleIsV()
    ensures VShaped(VExample, 5)
  {
  }

  /** On a V with the default window of 5, the corrected detector finds the bottom while the loop as written raises. */
  lemma AsWrittenRaisesOnV()
    ensures Swings(VExample, 5, Low) == [SwingPoint(5, 0.0)]
    ensures FindSwingLowsHighsAsWritten(VExample, 5) == Failure(SeriesHasNoLowMethod)
  {
    VExampleIsV();
    VShapeHasOneLow(VExample, 5, 5);
    AsWrittenRaisesIffSwingLow(VExample, 5);
  }
}
