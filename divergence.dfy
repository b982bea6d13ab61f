/**
  The divergence classifier (main.py:107-132).

  The last two price swing points P1 (older) and P2 (newer) are each paired with
  the MACD-histogram swing point nearest to them in index. A divergence of kind
  Low (bullish) is a lower price low against a higher histogram low; of kind High
  (bearish), a higher price high against a lower histogram high.
*/
module Divergence {
  import opened Swing

  /** Absolute distance between two indices. */
  function Dist(a: int, b: int): nat
  {
    if a >= b then a - b else b - a
  }

  /**
    Position, among the first `n` points, of the one whose index is nearest to
    `target`: Python's `min(range(n), key=...)`, which scans left to right and
    replaces its candidate only on a strictly smaller key, so that the earliest
    position wins a tie.
  */
  function NearestAmong(ps: seq<SwingPoint>, target: int, n: nat): (m: nat)
    requires 0 < n <= |ps|
    ensures m < n
    ensures forall k :: 0 <= k < n ==> Dist(ps[m].index, target) <= Dist(ps[k].index, target)
    ensures forall k :: 0 <= k < m ==> Dist(ps[k].index, target) > Dist(ps[m].index, target)
    decreases n
  {
    if n == 1 then 0
    else
      var best := NearestAmong(ps, target, n - 1);
      if Dist(ps[n - 1].index, target) < Dist(ps[best].index, target) then n - 1 else best
  }

  /** The position of the swing point of `ps` nearest in index to `target`, earliest on ties. */
  function Nearest(ps: seq<SwingPoint>, target: int): (m: nat)
    requires |ps| > 0
    ensures m < |ps|
    ensures forall k :: 0 <= k < |ps| ==> Dist(ps[m].index, target) <= Dist(ps[k].index, target)
    ensures forall k :: 0 <= k < m ==> Dist(ps[k].index, target) > Dist(ps[m].index, target)
  {
    NearestAmong(ps, target, |ps|)
  }

  /** The nearest-point rule admits one answer only: any position that is nearest and earliest among the nearest is `Nearest`. */
  lemma NearestIsDetermined(ps: seq<SwingPoint>, target: int, m: nat)
    requires m < |ps|
    requires forall k :: 0 <= k < |ps| ==> Dist(ps[m].index, target) <= Dist(ps[k].index, target)
    requires forall k :: 0 <= k < m ==> Dist(ps[k].index, target) > Dist(ps[m].index, target)
    ensures m == Nearest(ps, target)
  {
  }

  /** Every swing point of `ps` indexes into `hist`. */
  predicate IndexesInto(ps: seq<SwingPoint>, hist: seq<real>)
  {
    forall k :: 0 <= k < |ps| ==> ps[k].index < |hist|
  }

  /**
    Divergence of kind `e`: there are two price swing points and two histogram
    swing points, the newer price point lies beyond the older one (a lower low,
    or a higher high), and the histogram at the point aligned with the older one
    lies beyond the histogram at the point aligned with the newer one (momentum
    does not confirm the new extreme).
  */
  predicate Diverges(price: seq<SwingPoint>, macd: seq<SwingPoint>, hist: seq<real>, e: Extremum)
    requires IndexesInto(macd, hist)
  {
    && |price| >= 2 && |macd| >= 2
    && var p1, p2 := price[|price| - 2], price[|price| - 1];
       var m1, m2 := Nearest(macd, p1.index), Nearest(macd, p2.index);
       && Beyond(p2.value, p1.value, e)
       && Beyond(hist[macd[m1].index], hist[macd[m2].index], e)
  }

  /**
    The bullish and bearish tests side by side, as the source writes them: a
    lower price low with a higher histogram value at the aligned low, and a
    higher price high with a lower histogram value at the aligned high.
  */
  lemma DivergesUnfolds(price: seq<SwingPoint>, macd: seq<SwingPoint>, hist: seq<real>)
    requires IndexesInto(macd, hist) && |price| >= 2 && |macd| >= 2
    ensures Diverges(price, macd, hist, Low) <==>
      && price[|price| - 1].value < price[|price| - 2].value
      && hist[macd[Nearest(macd, price[|price| - 1].index)].index] > hist[macd[Nearest(macd, price[|price| - 2].index)].index]
    ensures Diverges(price, macd, hist, High) <==>
      && price[|price| - 1].value > price[|price| - 2].value
      && hist[macd[Nearest(macd, price[|price| - 1].index)].index] < hist[macd[Nearest(macd, price[|price| - 2].index)].index]
  {
  }

  /** When the histogram swing points come from the histogram itself, the value looked up at an aligned point is that point's own value. */
  lemma AlignedValueIsSwingValue(hist: seq<real>, w: nat, e: Extremum, m: nat)
    requires m < |Swings(hist, w, e)|
    ensures Swings(hist, w, e)[m].index < |hist|
    ensures hist[Swings(hist, w, e)[m].index] == Swings(hist, w, e)[m].value
  {
  }

  /** Price lows 100 then 95 (a lower low) against histogram lows -2.0 then -0.5 (a higher low) is a bullish divergence and not a bearish one. */
  lemma BullishExample()
    ensures
      var price := [SwingPoint(10, 100.0), SwingPoint(30, 95.0)];
      var macd := [SwingPoint(11, -2.0), SwingPoint(29, -0.5)];
      var hist := seq(40, i => if i == 11 then -2.0 else if i == 29 then -0.5 else 0.0);
      IndexesInto(macd, hist) && Diverges(price, macd, hist, Low) && !Diverges(price, macd, hist, High)
  {
    var price := [SwingPoint(10, 100.0), SwingPoint(30, 95.0)];
    var macd := [SwingPoint(11, -2.0), SwingPoint(29, -0.5)];
    var hist := seq(40, i => if i == 11 then -2.0 else if i == 29 then -0.5 else 0.0);
    assert Nearest(macd, 10) == 0 by { NearestIsDetermined(macd, 10, 0); }
    assert Nearest(macd, 30) == 1 by { NearestIsDetermined(macd, 30, 1); }
  }
}
