/**
 * Stream preprocessing (vmpy/preprocess.py): replacing masked samples,
 * trailing rolling means (uniform or exponentially weighted) and the Hampel
 * outlier filter. Rolling windows are trailing and shrink at the start of the
 * stream (pandas `min_periods=1`), so every output has the input's length.
 */
module Preprocess {
  import opened Basics
  import opened Utils
  import opened Order

  // ---------------------------------------------------------------------
  // Mask fill
  // ---------------------------------------------------------------------

  /** `y[~mask] = value`: samples whose flag is false are overwritten. */
  function MaskFill(s: seq<real>, mask: seq<bool>, value: real): (r: seq<real>)
    requires |mask| == |s|
    ensures |r| == |s|
    ensures forall i :: 0 <= i < |s| && !mask[i] ==> r[i] == value
    ensures forall i :: 0 <= i < |s| && mask[i] ==> r[i] == s[i]
  {
    if s == [] then []
    else
      var last := if mask[|s| - 1] then s[|s| - 1] else value;
      MaskFill(s[..|s| - 1], mask[..|s| - 1], value) + [last]
  }

  /** `mask=None` leaves the stream as it is. */
  function ApplyMask(s: seq<real>, mask: Option<seq<bool>>, value: real): (r: seq<real>)
    requires mask.Some? ==> |mask.value| == |s|
    ensures |r| == |s|
  {
    if mask.None? then s else MaskFill(s, mask.value, value)
  }

  lemma MaskFillIdempotent(s: seq<real>, mask: seq<bool>, value: real)
    requires |mask| == |s|
    ensures MaskFill(MaskFill(s, mask, value), mask, value) == MaskFill(s, mask, value)
  {
  }

  lemma MaskFillAllTrue(s: seq<real>, mask: seq<bool>, value: real)
    requires |mask| == |s|
    requires forall i :: 0 <= i < |mask| ==> mask[i]
    ensures MaskFill(s, mask, value) == s
  {
  }

  /**
   * `mask_filter`. With no mask the argument itself is returned. Otherwise a
   * list is copied and the copy is filled, so the caller's list is untouched;
   * an ndarray is filled in place and returned.
   */
  method MaskFilter(arg: ArrayLike, mask: Option<seq<bool>>, value: real) returns (r: ArrayLike)
    requires mask.Some? ==> |mask.value| == |Values(arg)|
    modifies Footprint(arg)
    ensures TagOf(r) == TagOf(arg)
    ensures Values(r) == ApplyMask(old(Values(arg)), mask, value)
    ensures arg.NdArray? ==> r == arg
    ensures mask.None? ==> r == arg && unchanged(Footprint(arg))
  {
    if mask.None? {
      return arg;
    }
    var y, tag := ToNdarray(arg);
    ghost var before := y[..];
    var m := mask.value;
    forall i | 0 <= i < y.Length && !m[i] {
      y[i] := value;
    }
    assert y[..] == MaskFill(before, m, value);
    r := CastToOriginalType(y, tag);
  }

  // ---------------------------------------------------------------------
  // Trailing rolling windows
  // ---------------------------------------------------------------------

  /** First index of the window of `w` samples that ends at sample `i`. */
  function WindowStart(i: nat, w: nat): nat
  {
    if i + 1 >= w then i + 1 - w else 0
  }

  function TrailingWindow(s: seq<real>, i: nat, w: nat): (win: seq<real>)
    requires i < |s|
    requires w >= 1
    ensures 0 < |win| <= w
  {
    s[WindowStart(i, w)..i + 1]
  }

  /**
   * `Series.rolling(w, min_periods=1).agg()`: the aggregate of the trailing
   * window ending at each sample, built one sample at a time.
   */
  function Rolling(s: seq<real>, w: nat, agg: seq<real> --> real): (r: seq<real>)
    requires w >= 1
    requires forall t :: 0 < |t| ==> agg.requires(t)
    ensures |r| == |s|
    ensures forall i :: 0 <= i < |s| ==> r[i] == agg(TrailingWindow(s, i, w))
  {
    if s == [] then []
    else
      var front := Rolling(s[..|s| - 1], w, agg);
      assert forall i :: 0 <= i < |s| - 1 ==> TrailingWindow(s[..|s| - 1], i, w) == TrailingWindow(s, i, w);
      front + [agg(TrailingWindow(s, |s| - 1, w))]
  }

  /** Uniform rolling mean. */
  function UniformMean(s: seq<real>, w: nat): (r: seq<real>)
    requires w >= 1
    ensures |r| == |s|
    ensures forall i :: 0 <= i < |s| ==> r[i] == Mean(TrailingWindow(s, i, w))
  {
    Rolling(s, w, Mean)
  }

  function RollingMedian(s: seq<real>, w: nat): (r: seq<real>)
    requires w >= 1
    ensures |r| == |s|
    ensures forall i :: 0 <= i < |s| ==> r[i] == Median(TrailingWindow(s, i, w))
  {
    Rolling(s, w, Median)
  }

  lemma UniformMeanWindowOne(s: seq<real>)
    ensures UniformMean(s, 1) == s
  {
    forall i | 0 <= i < |s| ensures UniformMean(s, 1)[i] == s[i] {
      assert TrailingWindow(s, i, 1) == [s[i]];
      MeanSingleton(s[i]);
    }
  }

  lemma UniformMeanConstant(s: seq<real>, w: nat, c: real)
    requires w >= 1
    requires forall i :: 0 <= i < |s| ==> s[i] == c
    ensures UniformMean(s, w) == Constant(|s|, c)
  {
    forall i | 0 <= i < |s| ensures UniformMean(s, w)[i] == c {
      MeanConstant(TrailingWindow(s, i, w), c);
    }
  }

  // ---------------------------------------------------------------------
  // Exponentially weighted mean (pandas `ewm(span, min_periods=1).mean()`,
  // adjusted form: weights 1, d, d^2, ... from the newest sample back)
  // ---------------------------------------------------------------------

  /** `1 - alpha` with `alpha = 2 / (span + 1)`. */
  function Decay(span: nat): (d: real)
    requires span >= 1
    ensures 0.0 <= d < 1.0
  {
    1.0 - 2.0 / (span as real + 1.0)
  }

  /** Weighted sum of the samples, newest weighted 1. */
  function EwmNumerator(s: seq<real>, d: real): real
  {
    if s == [] then 0.0 else s[|s| - 1] + d * EwmNumerator(s[..|s| - 1], d)
  }

  /** Sum of the weights of `n` samples. */
  function EwmDenominator(n: nat, d: real): (r: real)
    requires 0.0 <= d
    ensures n >= 1 ==> r >= 1.0
    ensures r >= 0.0
  {
    if n == 0 then 0.0 else 1.0 + d * EwmDenominator(n - 1, d)
  }

  function Ewm(s: seq<real>, span: nat): (r: seq<real>)
    requires span >= 1
    ensures |r| == |s|
  {
    var d := Decay(span);
    seq(|s|, i requires 0 <= i < |s| => EwmNumerator(s[..i + 1], d) / EwmDenominator(i + 1, d))
  }

  lemma EwmFirst(s: seq<real>, span: nat)
    requires span >= 1
    requires |s| > 0
    ensures Ewm(s, span)[0] == s[0]
  {
    var d := Decay(span);
    assert s[..1][..0] == [];
    assert EwmNumerator(s[..1], d) == s[0] + d * 0.0;
    assert EwmDenominator(1, d) == 1.0 + d * 0.0;
  }

  /** One step of the weighted-sum recursion keeps a lower bound. */
  lemma LowerBoundStep(x: real, d: real, num: real, den: real, lo: real)
    requires 0.0 <= d && lo <= x
    requires lo * den <= num
    ensures lo * (1.0 + d * den) <= x + d * num
  {
    assert d * (lo * den) <= d * num;
  }

  /** The weighted sum is at least the weight total times a lower bound of the samples. */
  lemma {:induction false} EwmNumeratorAbove(s: seq<real>, d: real, lo: real)
    requires 0.0 <= d
    requires forall i :: 0 <= i < |s| ==> lo <= s[i]
    ensures lo * EwmDenominator(|s|, d) <= EwmNumerator(s, d)
  {
    if s != [] {
      var p := s[..|s| - 1];
      assert forall i :: 0 <= i < |p| ==> p[i] == s[i];
      EwmNumeratorAbove(p, d, lo);
      LowerBoundStep(s[|s| - 1], d, EwmNumerator(p, d), EwmDenominator(|p|, d), lo);
    }
  }

  /** The weighted sum is at most the weight total times an upper bound of the samples. */
  lemma {:induction false} EwmNumeratorBelow(s: seq<real>, d: real, hi: real)
    requires 0.0 <= d
    requires forall i :: 0 <= i < |s| ==> s[i] <= hi
    ensures EwmNumerator(s, d) <= hi * EwmDenominator(|s|, d)
  {
    var neg := Negated(s);
    assert forall i :: 0 <= i < |neg| ==> -hi <= neg[i];
    EwmNumeratorAbove(neg, d, -hi);
    EwmNumeratorNegated(s, d);
  }

  function Negated(s: seq<real>): (r: seq<real>)
    ensures |r| == |s|
  {
    seq(|s|, i requires 0 <= i < |s| => -s[i])
  }

  lemma {:induction false} EwmNumeratorNegated(s: seq<real>, d: real)
    ensures EwmNumerator(Negated(s), d) == -EwmNumerator(s, d)
  {
    if s != [] {
      var p := s[..|s| - 1];
      EwmNumeratorNegated(p, d);
      assert Negated(s)[..|s| - 1] == Negated(p);
    }
  }

  /** Every smoothed sample lies within the range of the raw samples. */
  lemma EwmBounded(s: seq<real>, span: nat, lo: real, hi: real)
    requires span >= 1
    requires forall i :: 0 <= i < |s| ==> lo <= s[i] <= hi
    ensures forall i :: 0 <= i < |s| ==> lo <= Ewm(s, span)[i] <= hi
  {
    forall i | 0 <= i < |s| ensures lo <= Ewm(s, span)[i] <= hi {
      var p := s[..i + 1];
      assert forall k :: 0 <= k < |p| ==> lo <= p[k] <= hi;
      WeightedMeanBounded(p, Decay(span), lo, hi);
    }
  }

  /** The weighted sum over the weight total lies within the bounds of the samples. */
  lemma {:induction false} WeightedMeanBounded(p: seq<real>, d: real, lo: real, hi: real)
    requires 0.0 <= d && |p| > 0
    requires forall k :: 0 <= k < |p| ==> lo <= p[k] <= hi
    ensures lo <= EwmNumerator(p, d) / EwmDenominator(|p|, d) <= hi
  {
    WeightedMeanAbove(p, d, lo);
    WeightedMeanBelow(p, d, hi);
  }

  lemma {:induction false} WeightedMeanAbove(p: seq<real>, d: real, lo: real)
    requires 0.0 <= d && |p| > 0
    requires forall k :: 0 <= k < |p| ==> lo <= p[k]
    ensures lo <= EwmNumerator(p, d) / EwmDenominator(|p|, d)
  {
    EwmNumeratorAbove(p, d, lo);
    DivideAbove(EwmNumerator(p, d), EwmDenominator(|p|, d), lo);
  }

  lemma {:induction false} WeightedMeanBelow(p: seq<real>, d: real, hi: real)
    requires 0.0 <= d && |p| > 0
    requires forall k :: 0 <= k < |p| ==> p[k] <= hi
    ensures EwmNumerator(p, d) / EwmDenominator(|p|, d) <= hi
  {
    EwmNumeratorBelow(p, d, hi);
    DivideBelow(EwmNumerator(p, d), EwmDenominator(|p|, d), hi);
  }

  lemma DivideAbove(num: real, den: real, lo: real)
    requires den > 0.0 && lo * den <= num
    ensures lo <= num / den
  {
  }

  lemma DivideBelow(num: real, den: real, hi: real)
    requires den > 0.0 && num <= hi * den
    ensures num / den <= hi
  {
  }

  lemma EwmConstant(s: seq<real>, span: nat, c: real)
    requires span >= 1
    requires forall i :: 0 <= i < |s| ==> s[i] == c
    ensures Ewm(s, span) == Constant(|s|, c)
  {
    EwmBounded(s, span, c, c);
  }

  // ---------------------------------------------------------------------
  // rolling_mean
  // ---------------------------------------------------------------------

  /**
   * Values of `rolling_mean(stream, window, mask, value=..., type=kind)`:
   * the mask is applied first; `type == "ewma"` selects the exponentially
   * weighted mean with span `window`, any other string the uniform mean.
   */
  function RollingMeanValues(s: seq<real>, window: nat, mask: Option<seq<bool>>, value: real, kind: string): (r: seq<real>)
    requires window >= 1
    requires mask.Some? ==> |mask.value| == |s|
    ensures |r| == |s|
  {
    var y := ApplyMask(s, mask, value);
    if kind == "ewma" then Ewm(y, window) else UniformMean(y, window)
  }

  /** A window of one sample returns the masked stream itself. */
  lemma RollingMeanWindowOne(s: seq<real>, mask: Option<seq<bool>>, value: real, kind: string)
    requires kind != "ewma"
    requires mask.Some? ==> |mask.value| == |s|
    ensures RollingMeanValues(s, 1, mask, value, kind) == ApplyMask(s, mask, value)
  {
    UniformMeanWindowOne(ApplyMask(s, mask, value));
  }

  /** With a window of two, each sample after the first is averaged with its predecessor. */
  lemma UniformMeanWindowTwo(s: seq<real>)
    requires |s| > 0
    ensures UniformMean(s, 2)[0] == s[0]
    ensures forall i :: 1 <= i < |s| ==> UniformMean(s, 2)[i] == (s[i - 1] + s[i]) / 2.0
  {
    assert TrailingWindow(s, 0, 2) == [s[0]];
    MeanSingleton(s[0]);
    forall i | 1 <= i < |s| ensures UniformMean(s, 2)[i] == (s[i - 1] + s[i]) / 2.0 {
      var win := TrailingWindow(s, i, 2);
      assert win == [s[i - 1], s[i]];
      assert win[..1] == [s[i - 1]];
      assert Sum(win) == s[i - 1] + s[i];
    }
  }

  lemma RollingMeanExample()
    ensures RollingMeanValues([1.0, 2.0, 3.0, 4.0, 5.0], 2, None, 0.0, "uniform")
         == [1.0, 1.5, 2.5, 3.5, 4.5]
  {
    var s := [1.0, 2.0, 3.0, 4.0, 5.0];
    assert |"uniform"| != |"ewma"|;
    var r := RollingMeanValues(s, 2, None, 0.0, "uniform");
    assert r == UniformMean(s, 2);
    UniformMeanWindowTwo(s);
    assert r[1] == (s[0] + s[1]) / 2.0 && r[2] == (s[1] + s[2]) / 2.0;
    assert r[3] == (s[2] + s[3]) / 2.0 && r[4] == (s[3] + s[4]) / 2.0;
  }

  lemma RollingMeanMaskedExample()
    ensures RollingMeanValues([1.0, 2.0, 3.0, 4.0, 5.0], 2, Some([true, true, false, true, true]), 0.0, "uniform")
         == [1.0, 1.5, 1.0, 2.0, 4.5]
  {
    var y := MaskFill([1.0, 2.0, 3.0, 4.0, 5.0], [true, true, false, true, true], 0.0);
    assert y == [1.0, 2.0, 0.0, 4.0, 5.0];
    assert |"uniform"| != |"ewma"|;
    var r := RollingMeanValues([1.0, 2.0, 3.0, 4.0, 5.0], 2, Some([true, true, false, true, true]), 0.0, "uniform");
    assert r == UniformMean(y, 2);
    UniformMeanWindowTwo(y);
    assert r[1] == (y[0] + y[1]) / 2.0 && r[2] == (y[1] + y[2]) / 2.0;
    assert r[3] == (y[2] + y[3]) / 2.0 && r[4] == (y[3] + y[4]) / 2.0;
  }

  /** Thirty ones smoothed exponentially with span 2 stay thirty ones. */
  lemma RollingMeanEwmOnesExample()
    ensures RollingMeanValues(Constant(30, 1.0), 2, None, 0.0, "ewma") == Constant(30, 1.0)
  {
    EwmConstant(Constant(30, 1.0), 2, 1.0);
  }

  /**
   * `rolling_mean` on a container. The result is a new list or a new buffer;
   * when a mask is given and the stream is an ndarray, the mask is written
   * into the caller's array on the way (through `mask_filter`).
   */
  method RollingMean(stream: ArrayLike, window: nat, mask: Option<seq<bool>>, value: real, kind: string)
    returns (r: ArrayLike)
    requires window >= 1
    requires mask.Some? ==> |mask.value| == |Values(stream)|
    modifies Footprint(stream)
    ensures TagOf(r) == TagOf(stream)
    ensures Values(r) == RollingMeanValues(old(Values(stream)), window, mask, value, kind)
    ensures r.NdArray? ==> fresh(r.buf)
    ensures stream.NdArray? ==> stream.buf[..] == ApplyMask(old(Values(stream)), mask, value)
  {
    ghost var input := Values(stream);
    var y, tag := ToNdarray(stream);
    if mask.Some? {
      var filtered := MaskFilter(NdArray(y), mask, value);
    }
    var smoothed := if kind == "ewma" then Ewm(y[..], window) else UniformMean(y[..], window);
    var out := new real[|smoothed|](i requires 0 <= i < |smoothed| => smoothed[i]);
    assert out[..] == smoothed;
    r := CastToOriginalType(out, tag);
  }

  // ---------------------------------------------------------------------
  // Hampel filter
  // ---------------------------------------------------------------------

  /** Rescales the median absolute deviation to a standard deviation. */
  const MadScale: real := 1.4826

  /** Python truthiness of the optional replacement: `None` and `0` are false. */
  predicate Truthy(value: Option<real>)
  {
    value.Some? && value.value != 0.0
  }

  function Abs(x: real): real
  {
    if x < 0.0 then -x else x
  }

  function AbsDeviation(s: seq<real>, center: seq<real>): (r: seq<real>)
    requires |center| == |s|
    ensures |r| == |s|
  {
    seq(|s|, i requires 0 <= i < |s| => Abs(s[i] - center[i]))
  }

  /** Rolling median of the absolute deviations from the rolling median. */
  function RollingMad(s: seq<real>, w: nat): (r: seq<real>)
    requires w >= 1
    ensures |r| == |s|
  {
    RollingMedian(AbsDeviation(s, RollingMedian(s, w)), w)
  }

  predicate IsOutlier(s: seq<real>, w: nat, threshold: real, i: nat)
    requires w >= 1
    requires i < |s|
  {
    AbsDeviation(s, RollingMedian(s, w))[i] > MadScale * threshold * RollingMad(s, w)[i]
  }

  function Replacement(s: seq<real>, w: nat, value: Option<real>, i: nat): real
    requires w >= 1
    requires i < |s|
  {
    if Truthy(value) then value.value else RollingMedian(s, w)[i]
  }

  /** Values of `hampel_filter(arg, window, threshold, value)`. */
  function HampelValues(s: seq<real>, w: nat, threshold: real, value: Option<real>): (r: seq<real>)
    requires w >= 1
    ensures |r| == |s|
    ensures forall i :: 0 <= i < |s| && IsOutlier(s, w, threshold, i) ==> r[i] == Replacement(s, w, value, i)
    ensures forall i :: 0 <= i < |s| && !IsOutlier(s, w, threshold, i) ==> r[i] == s[i]
  {
    seq(|s|, i requires 0 <= i < |s| =>
      if IsOutlier(s, w, threshold, i) then Replacement(s, w, value, i) else s[i])
  }

  /**
   * `hampel_filter`. Outliers are overwritten in the working buffer, which
   * for an ndarray argument is the caller's own array.
   */
  method HampelFilter(arg: ArrayLike, window: nat, threshold: real, value: Option<real>) returns (r: ArrayLike)
    requires window >= 1
    modifies Footprint(arg)
    ensures TagOf(r) == TagOf(arg)
    ensures Values(r) == HampelValues(old(Values(arg)), window, threshold, value)
    ensures arg.NdArray? ==> r == arg
  {
    var y, tag := ToNdarray(arg);
    var s := y[..];
    var outlier := seq(|s|, i requires 0 <= i < |s| => IsOutlier(s, window, threshold, i));
    forall i | 0 <= i < y.Length && outlier[i] {
      y[i] := Replacement(s, window, value, i);
    }
    ghost var h := HampelValues(s, window, threshold, value);
    assert forall i :: 0 <= i < |s| ==> y[i] == h[i];
    assert y[..] == h;
    r := CastToOriginalType(y, tag);
  }

  /** The rolling median of a constant stream with one changed last sample is constant. */
  lemma {:induction false} RollingMedianOfSpike(n: nat, w: nat, c: real, d: real)
    requires n >= 3 && w >= 3
    ensures RollingMedian(Constant(n - 1, c) + [d], w) == Constant(n, c)
  {
    var s := Constant(n - 1, c) + [d];
    forall i | 0 <= i < n ensures RollingMedian(s, w)[i] == c {
      RollingMedianOfSpikeAt(n, w, c, d, i);
    }
  }

  lemma {:induction false} RollingMedianOfSpikeAt(n: nat, w: nat, c: real, d: real, i: nat)
    requires n >= 3 && w >= 3 && i < n
    ensures RollingMedian(Constant(n - 1, c) + [d], w)[i] == c
  {
    if i < n - 1 {
      SpikeFreeWindow(n, w, c, d, i);
    } else {
      SpikeWindow(n, w, c, d);
    }
  }

  /** A window that ends before the changed sample holds only the constant. */
  lemma {:induction false} SpikeFreeWindow(n: nat, w: nat, c: real, d: real, i: nat)
    requires w >= 1 && i < n - 1
    ensures Median(TrailingWindow(Constant(n - 1, c) + [d], i, w)) == c
  {
    var s := Constant(n - 1, c) + [d];
    var win := TrailingWindow(s, i, w);
    forall j | 0 <= j < |win| ensures win[j] == c {
      assert win[j] == s[WindowStart(i, w) + j];
    }
    MedianOfConstant(win, c);
  }

  /** The window that ends at the changed sample holds at least two copies of the constant before it. */
  lemma {:induction false} SpikeWindow(n: nat, w: nat, c: real, d: real)
    requires n >= 3 && w >= 3
    ensures Median(TrailingWindow(Constant(n - 1, c) + [d], n - 1, w)) == c
  {
    var s := Constant(n - 1, c) + [d];
    var win := TrailingWindow(s, n - 1, w);
    var k := |win| - 1;
    assert k >= 2;
    assert win == Constant(k, c) + [d] by {
      forall j | 0 <= j < k ensures win[j] == c {
        assert win[j] == s[WindowStart(n - 1, w) + j];
      }
      assert win[k] == d;
    }
    MedianIgnoresOneSpike(k, c, d);
  }

  /** The deviations of such a stream from its rolling median vanish except at the spike. */
  lemma {:induction false} SpikeDeviation(n: nat, w: nat, c: real, d: real)
    requires n >= 3 && w >= 3
    ensures AbsDeviation(Constant(n - 1, c) + [d], RollingMedian(Constant(n - 1, c) + [d], w))
         == Constant(n - 1, 0.0) + [Abs(d - c)]
  {
    RollingMedianOfSpike(n, w, c, d);
    DeviationFromConstant(n, c, d);
  }

  /** Deviations of a constant stream with a changed last sample from the constant itself. */
  lemma {:induction false} DeviationFromConstant(n: nat, c: real, d: real)
    requires n >= 1
    ensures AbsDeviation(Constant(n - 1, c) + [d], Constant(n, c)) == Constant(n - 1, 0.0) + [Abs(d - c)]
  {
    var s := Constant(n - 1, c) + [d];
    var dev := AbsDeviation(s, Constant(n, c));
    var expected := Constant(n - 1, 0.0) + [Abs(d - c)];
    forall i | 0 <= i < n ensures dev[i] == expected[i] {
      if i < n - 1 {
        assert s[i] == c;
      } else {
        assert s[i] == d;
      }
    }
  }

  /** ... so their rolling median, the MAD, is zero everywhere. */
  lemma {:induction false} SpikeMadZero(n: nat, w: nat, c: real, d: real)
    requires n >= 3 && w >= 3
    ensures RollingMad(Constant(n - 1, c) + [d], w) == Constant(n, 0.0)
  {
    SpikeDeviation(n, w, c, d);
    RollingMedianOfSpike(n, w, 0.0, Abs(d - c));
  }

  /** Only the changed last sample is an outlier, whatever the threshold. */
  lemma {:induction false} SpikeOutliers(n: nat, w: nat, c: real, d: real, threshold: real, i: nat)
    requires n >= 3 && w >= 3
    requires i < n
    ensures IsOutlier(Constant(n - 1, c) + [d], w, threshold, i) <==> i == n - 1 && d != c
  {
    SpikeDeviation(n, w, c, d);
    SpikeMadZero(n, w, c, d);
  }

  /**
   * A constant stream whose last sample differs is repaired: the last sample
   * becomes the replacement value when one is given (and non-zero), and the
   * rolling median, i.e. the constant, otherwise. Any threshold behaves so,
   * because the median absolute deviation of such a stream is zero.
   */
  lemma {:induction false} HampelRemovesTrailingSpike(n: nat, w: nat, c: real, d: real, threshold: real, value: Option<real>)
    requires n >= 3 && w >= 3
    ensures HampelValues(Constant(n - 1, c) + [d], w, threshold, value)
         == Constant(n - 1, c) + [if d != c && Truthy(value) then value.value else c]
  {
    var s := Constant(n - 1, c) + [d];
    var r := HampelValues(s, w, threshold, value);
    var expected := Constant(n - 1, c) + [if d != c && Truthy(value) then value.value else c];
    forall i | 0 <= i < n ensures r[i] == expected[i] {
      HampelSpikeAt(n, w, c, d, threshold, value, i);
    }
  }

  lemma {:induction false} HampelSpikeAt(n: nat, w: nat, c: real, d: real, threshold: real, value: Option<real>, i: nat)
    requires n >= 3 && w >= 3 && i < n
    ensures HampelValues(Constant(n - 1, c) + [d], w, threshold, value)[i]
         == (Constant(n - 1, c) + [if d != c && Truthy(value) then value.value else c])[i]
  {
    var s := Constant(n - 1, c) + [d];
    SpikeOutliers(n, w, c, d, threshold, i);
    if IsOutlier(s, w, threshold, i) {
      RollingMedianOfSpikeAt(n, w, c, d, i);
      assert Replacement(s, w, value, i) == if Truthy(value) then value.value else c;
    } else if i < n - 1 {
      assert s[i] == c;
    } else {
      assert s[i] == d;
    }
  }

  /** Sixty ones whose last sample is 2, default window 31 and threshold 1: all ones. */
  lemma HampelDefaultExample()
    ensures HampelValues(Constant(59, 1.0) + [2.0], 31, 1.0, None) == Constant(60, 1.0)
  {
    HampelRemovesTrailingSpike(60, 31, 1.0, 2.0, 1.0, None);
    assert Constant(59, 1.0) + [1.0] == Constant(60, 1.0);
  }

  /** The same stream with `value=10`: the outlier becomes 10. */
  lemma HampelReplacementExample()
    ensures HampelValues(Constant(59, 1.0) + [2.0], 31, 1.0, Some(10.0)) == Constant(59, 1.0) + [10.0]
  {
    HampelRemovesTrailingSpike(60, 31, 1.0, 2.0, 1.0, Some(10.0));
  }
}
