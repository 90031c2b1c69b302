/**
 * Power-duration curve (vmpy/algorithms.py). The stream is masked, its
 * cumulative sum ("energy") is formed, and for every lag `t` the largest
 * energy difference over `t` samples, divided by `t`, is appended to the
 * curve. pandas `diff(t)` is undefined for the first `t` positions, so the
 * differences start at position `t` and windows that begin at the very
 * first sample never take part.
 */
module Algorithms {
  import opened Basics
  import opened Utils
  import opened Preprocess

  // ---------------------------------------------------------------------
  // Energy and windows
  // ---------------------------------------------------------------------

  /** `Series.cumsum()`: a running total of the samples. */
  function CumSum(y: seq<real>): (e: seq<real>)
    ensures |e| == |y|
  {
    if y == [] then []
    else
      var front := CumSum(y[..|y| - 1]);
      var total := if front == [] then 0.0 else front[|front| - 1];
      front + [total + y[|y| - 1]]
  }

  /** Element `i` of the running total is the sum of samples `0..i`. */
  lemma {:induction false} CumSumAt(y: seq<real>, i: nat)
    requires i < |y|
    ensures CumSum(y)[i] == Sum(y[..i + 1])
    decreases |y|
  {
    var p := y[..|y| - 1];
    if i < |y| - 1 {
      CumSumAt(p, i);
      assert p[..i + 1] == y[..i + 1];
    } else if i > 0 {
      CumSumAt(p, i - 1);
      assert p[..i] == p;
      assert y[..i + 1] == y;
    } else {
      assert y[..1] == y;
      assert p == [];
    }
  }

  /** The sum over `i..j` is the difference of the prefix sums up to `j` and to `i`. */
  lemma {:induction false} SumDifference(y: seq<real>, i: nat, j: nat)
    requires i <= j <= |y|
    ensures Sum(y[..j]) - Sum(y[..i]) == Sum(y[i..j])
  {
    assert y[..j] == y[..i] + y[i..j];
    SumAppend(y[..i], y[i..j]);
  }

  /** `energy.diff(t)` with its undefined leading positions dropped: element `k` is `E[k+t] - E[k]`. */
  function LagDiffs(e: seq<real>, t: nat): (d: seq<real>)
    requires 1 <= t < |e|
    ensures |d| == |e| - t
  {
    seq(|e| - t, k requires 0 <= k < |e| - t => e[k + t] - e[k])
  }

  /** Means of all windows of `t` samples that start at position `from` or later. */
  function WindowMeans(y: seq<real>, t: nat, from: nat): (m: seq<real>)
    requires 1 <= t && from + t <= |y|
    ensures |m| == |y| - t - from + 1
  {
    seq(|y| - t - from + 1, k requires 0 <= k < |y| - t - from + 1 => Mean(y[from + k..from + k + t]))
  }

  /** Dividing by a positive number commutes with taking the maximum. */
  lemma {:induction false} MaxScaled(s: seq<real>, t: real)
    requires |s| > 0 && t > 0.0
    ensures Max(Divided(s, t)) == Max(s) / t
  {
    var scaled := Divided(s, t);
    var m := Max(s);
    MaxIsLargestSample(s);
    var j :| 0 <= j < |s| && s[j] == m;
    assert scaled[j] == m / t;
    forall i | 0 <= i < |s| ensures scaled[i] <= m / t {
      DivideMonotone(s[i], m, t);
    }
    MaxUnique(scaled, m / t);
  }

  lemma {:induction false} DivideMonotone(a: real, b: real, t: real)
    requires a <= b && t > 0.0
    ensures a / t <= b / t
  {
  }

  // ---------------------------------------------------------------------
  // The curve as the code computes it
  // ---------------------------------------------------------------------

  /**
   * The curve the code builds: for each lag `t` in `1..n-1`, the best mean
   * over windows of `t` samples that start at position 1 or later.
   */
  function CurveValues(y: seq<real>): (c: seq<real>)
    ensures |c| == if |y| <= 1 then 0 else |y| - 1
  {
    if |y| <= 1 then []
    else seq(|y| - 1, k requires 0 <= k < |y| - 1 => Max(WindowMeans(y, k + 1, 1)))
  }

  /** One energy difference over lag `t`, divided by `t`, is the mean of the `t` samples after position `k`. */
  lemma {:induction false} LagDiffIsLateMean(y: seq<real>, t: nat, k: nat)
    requires 1 <= t && k + t < |y|
    ensures LagDiffs(CumSum(y), t)[k] / t as real == WindowMeans(y, t, 1)[k]
  {
    var w := y[k + 1..k + t + 1];
    assert CumSum(y)[k + t] - CumSum(y)[k] == Sum(w) by {
      CumSumAt(y, k + t);
      CumSumAt(y, k);
      SumDifference(y, k + 1, k + t + 1);
    }
    assert LagDiffs(CumSum(y), t)[k] == Sum(w);
    assert |w| == t;
    assert WindowMeans(y, t, 1)[k] == Mean(w);
  }

  /**
   * The largest energy difference over lag `t`, divided by `t`, is the best
   * mean power over `t` consecutive samples, among windows starting at 1 or later.
   */
  lemma {:induction false} LagMaxIsBestLateMean(y: seq<real>, t: nat)
    requires 1 <= t < |y|
    ensures Max(LagDiffs(CumSum(y), t)) / t as real == Max(WindowMeans(y, t, 1))
    ensures Max(LagDiffs(CumSum(y), t)) / t as real == CurveValues(y)[t - 1]
  {
    var d := LagDiffs(CumSum(y), t);
    ScaledLagDiffs(y, t);
    MaxScaled(d, t as real);
    CurveValuesAt(y, t);
  }

  /** Point `t - 1` of the curve is the best late window mean over `t` samples. */
  lemma {:induction false} CurveValuesAt(y: seq<real>, t: nat)
    requires 1 <= t < |y|
    ensures CurveValues(y)[t - 1] == Max(WindowMeans(y, t, 1))
  {
  }

  /** Every energy difference over lag `t`, divided by `t`, is the matching late window mean. */
  lemma {:induction false} ScaledLagDiffs(y: seq<real>, t: nat)
    requires 1 <= t < |y|
    ensures Divided(LagDiffs(CumSum(y), t), t as real) == WindowMeans(y, t, 1)
  {
    var scaled := Divided(LagDiffs(CumSum(y), t), t as real);
    forall k | 0 <= k < |scaled| ensures scaled[k] == WindowMeans(y, t, 1)[k] {
      LagDiffIsLateMean(y, t, k);
    }
  }

  /**
   * `power_duration_curve`. The mask is applied through `mask_filter` (so an
   * ndarray argument is filled in place), the energy is accumulated, and the
   * loop appends one value per lag. The result has the argument's container type.
   */
  method PowerDurationCurve(arg: ArrayLike, mask: Option<seq<bool>>, value: real) returns (r: ArrayLike)
    requires mask.Some? ==> |mask.value| == |Values(arg)|
    modifies Footprint(arg)
    ensures TagOf(r) == TagOf(arg)
    ensures Values(r) == CurveValues(ApplyMask(old(Values(arg)), mask, value))
    ensures arg.NdArray? ==> arg.buf[..] == ApplyMask(old(Values(arg)), mask, value)
    ensures r.NdArray? ==> fresh(r.buf)
  {
    var filled := MaskFilter(arg, mask, value);
    var curve := EnergyCurve(Values(filled));
    var out := new real[|curve|](i requires 0 <= i < |curve| => curve[i]);
    r := CastToOriginalType(out, TagOf(arg));
  }

  /** The loop of `power_duration_curve`: one best energy difference per lag, divided by the lag. */
  method EnergyCurve(s: seq<real>) returns (curve: seq<real>)
    ensures curve == CurveValues(s)
  {
    var energy := CumSum(s);
    curve := [];
    var t := 1;
    while t < |energy|
      invariant 1 <= t <= if |s| <= 1 then 1 else |s|
      invariant |curve| == t - 1
      invariant forall j :: 0 <= j < |curve| ==> curve[j] == CurveValues(s)[j]
    {
      LagMaxIsBestLateMean(s, t);
      curve := curve + [Max(LagDiffs(energy, t)) / t as real];
      t := t + 1;
    }
  }

  /** Windows of one sample average to the sample itself. */
  lemma {:induction false} SingleSampleWindows(y: seq<real>, from: nat)
    requires from < |y|
    ensures WindowMeans(y, 1, from) == y[from..]
  {
    var m := WindowMeans(y, 1, from);
    forall k | 0 <= k < |m| ensures m[k] == y[from..][k] {
      assert y[from + k..from + k + 1] == [y[from + k]];
      MeanSingleton(y[from + k]);
    }
  }

  /** The first point of the curve is the largest sample after the first one. */
  lemma {:induction false} CurveFirstPoint(y: seq<real>)
    requires |y| >= 2
    ensures CurveValues(y)[0] == Max(y[1..])
  {
    SingleSampleWindows(y, 1);
  }

  /** An all-zero stream has an all-zero curve. */
  lemma {:induction false} CurveOfZeros(n: nat)
    ensures CurveValues(Constant(n, 0.0)) == Constant(if n <= 1 then 0 else n - 1, 0.0)
  {
    if n > 1 {
      CurveOfLateZeros(Constant(n, 0.0));
    }
  }

  /** Every late window of a stream that is zero after its first sample averages to zero, so the best one does too. */
  lemma {:induction false} BestLateMeanOfLateZeros(y: seq<real>, t: nat)
    requires 1 <= t < |y|
    requires forall i :: 1 <= i < |y| ==> y[i] == 0.0
    ensures Max(WindowMeans(y, t, 1)) == 0.0
  {
    var m := WindowMeans(y, t, 1);
    forall j | 0 <= j < |m| ensures m[j] == 0.0 {
      var w := y[1 + j..1 + j + t];
      forall i | 0 <= i < |w| ensures w[i] == 0.0 {
        assert w[i] == y[1 + j + i];
      }
      MeanConstant(w, 0.0);
    }
    assert m[0] == 0.0;
    MaxUnique(m, 0.0);
  }

  lemma {:induction false} CurveOfThreeZeros()
    ensures CurveValues([0.0, 0.0, 0.0]) == [0.0, 0.0]
  {
    assert [0.0, 0.0, 0.0] == Constant(3, 0.0);
    CurveOfZeros(3);
  }

  // ---------------------------------------------------------------------
  // The mean-max curve over every window
  // ---------------------------------------------------------------------

  /**
   * The power-duration (mean-max) curve: for each duration `t` in `1..n`, the
   * best mean over all windows of `t` samples, the first one included.
   */
  function MeanMaxCurve(y: seq<real>): (c: seq<real>)
    ensures |c| == |y|
  {
    seq(|y|, k requires 0 <= k < |y| => Max(WindowMeans(y, k + 1, 0)))
  }

  /** Energy with a leading zero: the running total of the samples seen so far. */
  function PaddedEnergy(y: seq<real>): (p: seq<real>)
    ensures |p| == |y| + 1
  {
    [0.0] + CumSum(y)
  }

  /** Element `i` of the padded energy is the sum of the first `i` samples. */
  lemma {:induction false} PaddedEnergyAt(y: seq<real>, i: nat)
    requires i <= |y|
    ensures PaddedEnergy(y)[i] == Sum(y[..i])
  {
    if i == 0 {
      assert y[..0] == [];
    } else {
      CumSumAt(y, i - 1);
    }
  }

  lemma {:induction false} PaddedLagDiffIsMean(y: seq<real>, t: nat, k: nat)
    requires 1 <= t && k + t <= |y|
    ensures LagDiffs(PaddedEnergy(y), t)[k] / t as real == WindowMeans(y, t, 0)[k]
  {
    var w := y[k..k + t];
    assert PaddedEnergy(y)[k + t] - PaddedEnergy(y)[k] == Sum(w) by {
      PaddedEnergyAt(y, k + t);
      PaddedEnergyAt(y, k);
      SumDifference(y, k, k + t);
    }
    assert LagDiffs(PaddedEnergy(y), t)[k] == Sum(w);
    assert |w| == t;
    assert WindowMeans(y, t, 0)[k] == Mean(w);
  }

  lemma {:induction false} PaddedLagMaxIsBestMean(y: seq<real>, t: nat)
    requires 1 <= t <= |y|
    ensures Max(LagDiffs(PaddedEnergy(y), t)) / t as real == Max(WindowMeans(y, t, 0))
    ensures Max(LagDiffs(PaddedEnergy(y), t)) / t as real == MeanMaxCurve(y)[t - 1]
  {
    var d := LagDiffs(PaddedEnergy(y), t);
    ScaledPaddedLagDiffs(y, t);
    MaxScaled(d, t as real);
    assert MeanMaxCurve(y)[t - 1] == Max(WindowMeans(y, t, 0));
  }

  /** Every padded energy difference over lag `t`, divided by `t`, is the matching window mean. */
  lemma {:induction false} ScaledPaddedLagDiffs(y: seq<real>, t: nat)
    requires 1 <= t <= |y|
    ensures Divided(LagDiffs(PaddedEnergy(y), t), t as real) == WindowMeans(y, t, 0)
  {
    var scaled := Divided(LagDiffs(PaddedEnergy(y), t), t as real);
    forall k | 0 <= k < |scaled| ensures scaled[k] == WindowMeans(y, t, 0)[k] {
      PaddedLagDiffIsMean(y, t, k);
    }
  }

  /**
   * The same loop over the energy padded with a leading zero, so that every
   * window, including those starting at the first sample, is considered.
   */
  method MeanMaxPowerCurve(arg: ArrayLike, mask: Option<seq<bool>>, value: real) returns (r: ArrayLike)
    requires mask.Some? ==> |mask.value| == |Values(arg)|
    modifies Footprint(arg)
    ensures TagOf(r) == TagOf(arg)
    ensures Values(r) == MeanMaxCurve(ApplyMask(old(Values(arg)), mask, value))
    ensures arg.NdArray? ==> arg.buf[..] == ApplyMask(old(Values(arg)), mask, value)
    ensures r.NdArray? ==> fresh(r.buf)
  {
    var filled := MaskFilter(arg, mask, value);
    var curve := PaddedEnergyCurve(Values(filled));
    var out := new real[|curve|](i requires 0 <= i < |curve| => curve[i]);
    r := CastToOriginalType(out, TagOf(arg));
  }

  /** The same loop over the padded energy: one value per duration `1..n`. */
  method PaddedEnergyCurve(s: seq<real>) returns (curve: seq<real>)
    ensures curve == MeanMaxCurve(s)
  {
    var energy := PaddedEnergy(s);
    curve := [];
    var t := 1;
    while t < |energy|
      invariant 1 <= t <= |s| + 1
      invariant |curve| == t - 1
      invariant forall j :: 0 <= j < |curve| ==> curve[j] == MeanMaxCurve(s)[j]
    {
      PaddedLagMaxIsBestMean(s, t);
      curve := curve + [Max(LagDiffs(energy, t)) / t as real];
      t := t + 1;
    }
  }

  /** Every point of the mean-max curve bounds every window mean of its duration. */
  lemma {:induction false} MeanMaxCurveBoundsWindows(y: seq<real>, t: nat, j: nat)
    requires 1 <= t && j + t <= |y|
    ensures Mean(y[j..j + t]) <= MeanMaxCurve(y)[t - 1]
  {
    MaxIsLargestSample(WindowMeans(y, t, 0));
    assert WindowMeans(y, t, 0)[j] == Mean(y[j..j + t]);
  }

  /** Some window of `t` samples attains the point of the mean-max curve for `t`. */
  lemma {:induction false} WindowAttainsMeanMax(y: seq<real>, t: nat) returns (j: nat)
    requires 1 <= t <= |y|
    ensures j + t <= |y|
    ensures Mean(y[j..j + t]) == MeanMaxCurve(y)[t - 1]
  {
    j := WindowMeansAttainMax(y, t, 0);
    assert MeanMaxCurve(y)[t - 1] == Max(WindowMeans(y, t, 0));
    assert y[0 + j..0 + j + t] == y[j..j + t];
  }

  /** The code's curve never exceeds the mean-max curve. */
  lemma {:induction false} CurveBelowMeanMax(y: seq<real>, t: nat)
    requires 1 <= t < |y|
    ensures CurveValues(y)[t - 1] <= MeanMaxCurve(y)[t - 1]
  {
    var j := LateWindowAttainsCurve(y, t);
    var start := 1 + j;
    MeanMaxCurveBoundsWindows(y, t, start);
    assert y[1 + j..1 + j + t] == y[start..start + t];
  }

  /** Some window starting at position 1 or later attains the point of the code's curve for `t`. */
  lemma {:induction false} LateWindowAttainsCurve(y: seq<real>, t: nat) returns (j: nat)
    requires 1 <= t < |y|
    ensures 1 + j + t <= |y|
    ensures Mean(y[1 + j..1 + j + t]) == CurveValues(y)[t - 1]
  {
    j := WindowMeansAttainMax(y, t, 1);
    CurveValuesAt(y, t);
  }

  /** The best of the window means is the mean of one of the windows. */
  lemma {:induction false} WindowMeansAttainMax(y: seq<real>, t: nat, from: nat) returns (j: nat)
    requires 1 <= t && from + t <= |y|
    ensures from + j + t <= |y|
    ensures Mean(y[from + j..from + j + t]) == Max(WindowMeans(y, t, from))
  {
    var means := WindowMeans(y, t, from);
    MaxIsLargestSample(means);
    j :| 0 <= j < |means| && means[j] == Max(means);
  }

  /** The first point of the mean-max curve is the largest sample. */
  lemma {:induction false} MeanMaxFirstPoint(y: seq<real>)
    requires |y| >= 1
    ensures MeanMaxCurve(y)[0] == Max(y)
  {
    SingleSampleWindows(y, 0);
    assert y[0..] == y;
  }

  /** A stream that is zero after its first sample has an all-zero curve, whatever its first sample. */
  lemma {:induction false} CurveOfLateZeros(y: seq<real>)
    requires |y| >= 2
    requires forall i :: 1 <= i < |y| ==> y[i] == 0.0
    ensures CurveValues(y) == Constant(|y| - 1, 0.0)
  {
    forall k | 0 <= k < |y| - 1 ensures CurveValues(y)[k] == 0.0 {
      CurveValuesAt(y, k + 1);
      BestLateMeanOfLateZeros(y, k + 1);
    }
  }

  lemma {:induction false} MeanMaxOfLeadingSample(x: real)
    requires x > 0.0
    ensures MeanMaxCurve([x, 0.0, 0.0])[0] == x
  {
    var y := [x, 0.0, 0.0];
    MeanMaxFirstPoint(y);
    MaxUnique(y, x);
  }

  /**
   * A stream `[x, 0, 0]` with `x > 0`: the code reports 0 for one second
   * although the first second holds `x`.
   */
  lemma {:induction false} CurveMissesFirstWindow(x: real)
    requires x > 0.0
    ensures CurveValues([x, 0.0, 0.0])[0] == 0.0 < x == MeanMaxCurve([x, 0.0, 0.0])[0]
  {
    CurveOfLateZeros([x, 0.0, 0.0]);
    MeanMaxOfLeadingSample(x);
  }
}
