/** The one-pass performance figures: the drawdown against the running peak, and the longest streak. */
module Performance {

  // ----- drawdown -----

  /** The equity before any trade and after each. */
  function Curve(initial: real, pnls: seq<real>): (c: seq<real>)
    ensures |c| == |pnls| + 1
    decreases |pnls|
  {
    if pnls == [] then [initial]
    else
      var before := Curve(initial, pnls[..|pnls| - 1]);
      before + [before[|before| - 1] + pnls[|pnls| - 1]]
  }

  /** The fall from point i of the curve to point j, as a share of point i. */
  function Fall(curve: seq<real>, i: nat, j: nat): real
    requires i < |curve| && j < |curve| && curve[i] > 0.0
  {
    (curve[i] - curve[j]) / curve[i]
  }

  ghost predicate Positive(curve: seq<real>) {
    forall i :: 0 <= i < |curve| ==> curve[i] > 0.0
  }

  /** `d` is the deepest fall from any point of the curve to any later one. */
  ghost predicate IsDeepestFall(curve: seq<real>, d: real)
    requires Positive(curve)
  {
    && (forall i, j :: 0 <= i <= j < |curve| ==> Fall(curve, i, j) <= d)
    && (exists i, j :: 0 <= i <= j < |curve| && Fall(curve, i, j) == d)
  }

  /** `d` is the deepest fall to point `j` from any point up to it. */
  ghost predicate IsDeepestFallTo(curve: seq<real>, j: nat, d: real)
    requires Positive(curve) && j < |curve|
  {
    && (forall i :: 0 <= i <= j ==> Fall(curve, i, j) <= d)
    && (exists i :: 0 <= i <= j && Fall(curve, i, j) == d)
  }

  lemma MulOrder(a: real, b: real, p: real)
    requires p > 0.0
    ensures a < b ==> a * p < b * p
    ensures a <= b ==> a * p <= b * p
  {
    assert (b - a) * p == b * p - a * p;
    if a < b {
      assert (b - a) * p > 0.0;
    }
  }

  lemma ShareOf(p: real, end: real)
    requires p > 0.0
    ensures (p - end) / p == 1.0 - end / p
  {
    var q, x := (p - end) / p, end / p;
    assert q * p == p - end && x * p == end;
    assert (1.0 - x) * p == p - x * p;
    MulOrder(q, 1.0 - x, p);
    MulOrder(1.0 - x, q, p);
  }

  /** A lower start falls by a smaller share, as long as the end is above zero. */
  lemma HigherPeakFallsDeeper(low: real, high: real, end: real)
    requires 0.0 < low <= high && 0.0 < end
    ensures (low - end) / low <= (high - end) / high
  {
    var x, y := end / low, end / high;
    assert x * low == end && y * high == end;
    ShareOf(low, end);
    ShareOf(high, end);
    MulOrder(x, y, low);
    assert y > 0.0;
    MulOrder(low, high, y);
    assert y * low == low * y && y * high == high * y;
  }

  /** `peak` is the highest point of the curve up to point `k`. */
  ghost predicate IsPeak(curve: seq<real>, k: nat, peak: real)
    requires k < |curve|
  {
    (exists i :: 0 <= i <= k && curve[i] == peak) && forall i :: 0 <= i <= k ==> curve[i] <= peak
  }

  /** The fall from the peak is the deepest fall to this point. */
  lemma PeakFallsDeepest(curve: seq<real>, k: nat, peak: real)
    requires Positive(curve) && k < |curve| && IsPeak(curve, k, peak)
    ensures peak > 0.0 && IsDeepestFallTo(curve, k, (peak - curve[k]) / peak)
  {
    var top :| 0 <= top <= k && curve[top] == peak;
    forall i | 0 <= i <= k ensures Fall(curve, i, k) <= (peak - curve[k]) / peak {
      HigherPeakFallsDeeper(curve[i], peak, curve[k]);
    }
    assert Fall(curve, top, k) == (peak - curve[k]) / peak;
  }

  lemma PeakStep(curve: seq<real>, k: nat, peak: real)
    requires k + 1 < |curve| && IsPeak(curve, k, peak)
    ensures IsPeak(curve, k + 1, if curve[k + 1] > peak then curve[k + 1] else peak)
  {
  }

  /** `d` is the fall to point `k` from the highest point up to it, zero when that is zero. */
  ghost predicate FallsFromPeak(curve: seq<real>, k: nat, d: real)
    requires k < |curve|
  {
    exists peak :: IsPeak(curve, k, peak) && d == if peak != 0.0 then (peak - curve[k]) / peak else 0.0
  }

  ghost predicate IsGreatest(values: seq<real>, d: real) {
    d in values && forall i :: 0 <= i < |values| ==> values[i] <= d
  }

  lemma StartOfCurve(curve: seq<real>)
    requires curve != []
    ensures IsPeak(curve, 0, curve[0]) && FallsFromPeak(curve, 0, 0.0)
  {
    assert IsPeak(curve, 0, curve[0]);
  }

  /** With positive equity throughout, the fall from the peak is the deepest one to its point, and the
      greatest of them the deepest between any two points. */
  lemma DeepestFalls(curve: seq<real>, drawdowns: seq<real>, deepest: real)
    requires Positive(curve) && |drawdowns| == |curve| && IsGreatest(drawdowns, deepest)
    requires forall k :: 0 <= k < |drawdowns| ==> FallsFromPeak(curve, k, drawdowns[k])
    ensures forall k :: 0 <= k < |drawdowns| ==> IsDeepestFallTo(curve, k, drawdowns[k])
    ensures IsDeepestFall(curve, deepest)
  {
    hide Fall;
    forall k | 0 <= k < |drawdowns| ensures IsDeepestFallTo(curve, k, drawdowns[k]) {
      assert FallsFromPeak(curve, k, drawdowns[k]);
      var peak :| IsPeak(curve, k, peak) && drawdowns[k] == if peak != 0.0 then (peak - curve[k]) / peak else 0.0;
      PeakFallsDeepest(curve, k, peak);
    }
    var j :| 0 <= j < |drawdowns| && drawdowns[j] == deepest;
    assert IsDeepestFallTo(curve, j, deepest);
    forall i, k | 0 <= i <= k < |curve| ensures Fall(curve, i, k) <= deepest {
      assert IsDeepestFallTo(curve, k, drawdowns[k]);
    }
  }

  /** Once equity is below zero, the fall from a lower point is the larger share, so that the greatest
      drawdown is not the deepest fall. */
  lemma BelowZeroPeakIsNotDeepest()
    ensures var curve := Curve(1.0, [1.0, -3.0]);
      && curve == [1.0, 2.0, -1.0] && IsPeak(curve, 2, 2.0)
      && Fall(curve, 0, 2) > (2.0 - curve[2]) / 2.0
  {
    assert [1.0, -3.0][..1] == [1.0] && [1.0][..0] == [];
    var curve := Curve(1.0, [1.0, -3.0]);
    assert curve[1] == 2.0 && Fall(curve, 0, 2) == 2.0;
  }

  /** The drawdown loop of `calculate_performance`, one pass against the running peak: the drawdowns are the
      falls from the highest point so far, and the result is the greatest of them. With positive equity
      throughout it is the deepest fall between any two points. */
  method MaximumDrawdown(initial: real, pnls: seq<real>) returns (deepest: real, drawdowns: seq<real>)
    ensures |drawdowns| == |pnls| + 1
    ensures forall k :: 0 <= k < |drawdowns| ==> FallsFromPeak(Curve(initial, pnls), k, drawdowns[k])
    ensures IsGreatest(drawdowns, deepest)
    ensures Positive(Curve(initial, pnls)) ==>
      && IsDeepestFall(Curve(initial, pnls), deepest)
      && forall k :: 0 <= k < |drawdowns| ==> IsDeepestFallTo(Curve(initial, pnls), k, drawdowns[k])
  {
    hide Positive, Fall, IsPeak, IsDeepestFall, IsDeepestFallTo;
    ghost var curve := Curve(initial, pnls);
    var equity, peak := initial, initial;
    deepest, drawdowns := 0.0, [0.0];
    CurvePrefix(initial, pnls, 0);
    StartOfCurve(curve);
    for k := 0 to |pnls|
      invariant equity == curve[k] && IsPeak(curve, k, peak)
      invariant |drawdowns| == k + 1 && IsGreatest(drawdowns, deepest)
      invariant forall j :: 0 <= j < |drawdowns| ==> FallsFromPeak(curve, j, drawdowns[j])
    {
      CurvePrefix(initial, pnls, k);
      PeakStep(curve, k, peak);
      equity := equity + pnls[k];
      if equity > peak {
        peak := equity;
      }
      var drawdown := if peak != 0.0 then (peak - equity) / peak else 0.0;
      assert FallsFromPeak(curve, k + 1, drawdown);
      if drawdown > deepest {
        deepest := drawdown;
      }
      drawdowns := drawdowns + [drawdown];
    }
    if Positive(curve) {
      DeepestFalls(curve, drawdowns, deepest);
    }
  }

  /** The curve grows one point per trade. */
  lemma {:induction false} CurvePrefix(initial: real, pnls: seq<real>, k: nat)
    requires k <= |pnls|
    ensures Curve(initial, pnls)[0] == initial
    ensures k < |pnls| ==> Curve(initial, pnls)[k + 1] == Curve(initial, pnls)[k] + pnls[k]
    decreases |pnls|
  {
    if pnls != [] {
      var rest := pnls[..|pnls| - 1];
      CurvePrefix(initial, rest, if k < |rest| then k else 0);
    }
  }

  // ----- streaks -----

  /** values[i..j] are all true. */
  ghost predicate AllTrue(values: seq<bool>, i: nat, j: nat)
    requires i <= j <= |values|
  {
    forall k :: i <= k < j ==> values[k]
  }

  /** `n` is the length of the longest run of trues. */
  ghost predicate IsLongestRun(values: seq<bool>, n: nat) {
    && (exists i, j :: 0 <= i <= j <= |values| && AllTrue(values, i, j) && j - i == n)
    && (forall i, j :: 0 <= i <= j <= |values| && AllTrue(values, i, j) ==> j - i <= n)
  }

  /** `_max_streak`. */
  method MaxStreak(values: seq<bool>) returns (best: nat)
    ensures IsLongestRun(values, best)
  {
    var current: nat := 0;
    best := 0;
    ghost var from: nat := 0;
    assert AllTrue(values, 0, 0);
    for k := 0 to |values|
      invariant current <= k && AllTrue(values, k - current, k)
      invariant current < k ==> !values[k - current - 1]
      invariant from + best <= k && AllTrue(values, from, from + best)
      invariant forall i, j :: 0 <= i <= j <= k && AllTrue(values, i, j) ==> j - i <= best
      invariant current <= best
    {
      current := if values[k] then current + 1 else 0;
      if current > best {
        best := current;
        from := k + 1 - current;
      }
      ghost var now := k + 1;
      forall i | 0 <= i <= now && AllTrue(values, i, now) ensures now - i <= current {
        RunStartsLate(values, now - current, now, i);
      }
    }
  }

  /** A run of trues cannot reach back over a false. */
  lemma RunStartsLate(values: seq<bool>, start: nat, end: nat, i: nat)
    requires start <= end <= |values| && i <= end && AllTrue(values, i, end)
    requires start > 0 ==> !values[start - 1]
    ensures start <= i
  {
  }
}
