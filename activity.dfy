/**
 * The legacy activity layer (strava/activity.py): the selection of moving
 * samples with unit conversions, and the metrics an `ActivityMetrics` object
 * computes once, field after field, from an activity and an athlete. The
 * fetched values (streams, FTP, moving time) arrive as parameters.
 */
module StravaActivity {
  import opened Basics
  import Preprocess
  import Metrics

  /**
   * `streams_dict_np`: the numeric streams by type, `None` for a stream that
   * was not delivered, and the boolean `moving` stream.
   */
  datatype Streams = Streams(numeric: map<string, Option<seq<real>>>, moving: seq<bool>)

  /** Every delivered numeric stream has one sample per `moving` flag. */
  predicate Aligned(st: Streams)
  {
    forall k :: k in st.numeric && st.numeric[k].Some? ==> |st.numeric[k].value| == |st.moving|
  }

  // Moving samples
  // ---------------------------------------------------------------------

  /** `moving_slice`: the indices where `moving` is true, in increasing order. */
  function MovingSlice(moving: seq<bool>): (idx: seq<nat>)
    ensures |idx| == CountTrue(moving)
    ensures forall k :: 0 <= k < |idx| ==> idx[k] < |moving| && moving[idx[k]]
    ensures forall k, l :: 0 <= k < l < |idx| ==> idx[k] < idx[l]
    ensures forall i :: 0 <= i < |moving| && moving[i] ==> i in idx
  {
    if moving == [] then []
    else
      var n := |moving| - 1;
      var front := MovingSlice(moving[..n]);
      if moving[n] then front + [n] else front
  }

  /** Fancy indexing `s[idx]`. */
  function Pick(s: seq<real>, idx: seq<nat>): seq<real>
    requires forall k :: 0 <= k < |idx| ==> idx[k] < |s|
  {
    seq(|idx|, k requires 0 <= k < |idx| => s[idx[k]])
  }

  /** The samples taken while moving, `s[moving_slice]`. */
  function MovingSamples(s: seq<real>, moving: seq<bool>): seq<real>
    requires |s| == |moving|
  {
    Pick(s, MovingSlice(moving))
  }

  /** Reference definition: keep a sample exactly when its flag is set, in order. */
  function Filter(s: seq<real>, moving: seq<bool>): (r: seq<real>)
    requires |s| == |moving|
    ensures |r| == CountTrue(moving)
  {
    if s == [] then []
    else
      var n := |s| - 1;
      Filter(s[..n], moving[..n]) + (if moving[n] then [s[n]] else [])
  }

  lemma PickSnoc(s: seq<real>, idx: seq<nat>, n: nat)
    requires n < |s|
    requires forall k :: 0 <= k < |idx| ==> idx[k] < n
    ensures Pick(s, idx) == Pick(s[..n], idx)
    ensures Pick(s, idx + [n]) == Pick(s[..n], idx) + [s[n]]
  {
  }

  /** Selecting by the moving indices keeps exactly the moving samples, in their original order. */
  lemma {:induction false} MovingSamplesIsFilter(s: seq<real>, moving: seq<bool>)
    requires |s| == |moving|
    ensures MovingSamples(s, moving) == Filter(s, moving)
  {
    if s != [] {
      var n := |s| - 1;
      MovingSamplesIsFilter(s[..n], moving[..n]);
      var front := MovingSlice(moving[..n]);
      PickSnoc(s, front, n);
    }
  }

  /** With every flag set nothing is dropped. */
  lemma {:induction false} FilterAllMoving(s: seq<real>, moving: seq<bool>)
    requires |s| == |moving|
    requires forall i :: 0 <= i < |moving| ==> moving[i]
    ensures Filter(s, moving) == s
  {
    if s != [] {
      var n := |s| - 1;
      FilterAllMoving(s[..n], moving[..n]);
    }
  }

  /** With no flag set everything is dropped. */
  lemma {:induction false} FilterNoneMoving(s: seq<real>, moving: seq<bool>)
    requires |s| == |moving|
    requires forall i :: 0 <= i < |moving| ==> !moving[i]
    ensures Filter(s, moving) == []
  {
    if s != [] {
      var n := |s| - 1;
      FilterNoneMoving(s[..n], moving[..n]);
    }
  }

  /** `watts`: the moving power samples, or the lookup error when no power stream was delivered. */
  function Watts(st: Streams): (r: Result<seq<real>>)
    requires "watts" in st.numeric
    requires Aligned(st)
    ensures r.Err? <==> st.numeric["watts"].None?
    ensures r.Err? ==> r.error == MissingStream("watts")
    ensures r.Ok? ==> r.value == Filter(st.numeric["watts"].value, st.moving)
  {
    match st.numeric["watts"]
    case None => Err(MissingStream("watts"))
    case Some(w) =>
      MovingSamplesIsFilter(w, st.moving);
      Ok(MovingSamples(w, st.moving))
  }

  /** `distance`: the moving distance samples converted from metres to kilometres. */
  function Distance(st: Streams): (r: seq<real>)
    requires "distance" in st.numeric && st.numeric["distance"].Some?
    requires Aligned(st)
    ensures |r| == CountTrue(st.moving)
    ensures forall k :: 0 <= k < |r| ==> r[k] * 1000.0 == Filter(st.numeric["distance"].value, st.moving)[k]
  {
    var d := st.numeric["distance"].value;
    MovingSamplesIsFilter(d, st.moving);
    Metrics.Scale(MovingSamples(d, st.moving), 0.001)
  }

  /** `speed`: the moving speed samples converted from metres per second to kilometres per hour. */
  function Speed(st: Streams): (r: seq<real>)
    requires "velocity_smooth" in st.numeric && st.numeric["velocity_smooth"].Some?
    requires Aligned(st)
    ensures |r| == CountTrue(st.moving)
    ensures forall k :: 0 <= k < |r| ==> r[k] / 3.6 == Filter(st.numeric["velocity_smooth"].value, st.moving)[k]
  {
    var v := st.numeric["velocity_smooth"].value;
    MovingSamplesIsFilter(v, st.moving);
    Metrics.Scale(Metrics.Scale(MovingSamples(v, st.moving), 3600.0), 0.001)
  }

  // Smoothed power
  // ---------------------------------------------------------------------

  /** The samples `s[j]` with `lo <= j < hi` that exist. */
  function Clip(s: seq<real>, lo: int, hi: int): seq<real>
  {
    var a := if lo < 0 then 0 else if lo > |s| then |s| else lo;
    var b := if hi < a then a else if hi > |s| then |s| else hi;
    s[a..b]
  }

  /**
   * `np.convolve(s, np.ones(m), mode='same')`: output of length `max(|s|, m)`;
   * output `i` adds the samples `i + off - m + 1 .. i + off` that exist, with
   * `off = n - 1 - n / 2` for `n = min(|s|, m)`.
   */
  function BoxSame(s: seq<real>, m: nat): (r: seq<real>)
    requires |s| > 0 && m > 0
    ensures |r| == if |s| >= m then |s| else m
  {
    var n := if |s| < m then |s| else m;
    var off := n - 1 - n / 2;
    seq(if |s| >= m then |s| else m, i => Sum(Clip(s, i + off - m + 1, i + off + 1)))
  }

  const ConvLen: nat := 30

  /** The box-filtered power of `calc_nPower`, divided by the filter length. */
  function BoxSmoothed(watts: seq<real>): (r: seq<real>)
    requires |watts| > 0
    ensures |r| == if |watts| >= ConvLen then |watts| else ConvLen
  {
    var conv := BoxSame(watts, ConvLen);
    seq(|conv|, i requires 0 <= i < |conv| => conv[i] / ConvLen as real)
  }

  /** Away from both ends the smoothed power is the mean of the thirty samples centred on `i`. */
  lemma BoxSmoothedCentred(watts: seq<real>, i: nat)
    requires |watts| >= ConvLen
    requires 15 <= i && i + 15 <= |watts|
    ensures BoxSmoothed(watts)[i] == Mean(watts[i - 15..i + 15])
  {
    assert Clip(watts, i - 15, i + 15) == watts[i - 15..i + 15];
  }

  /** Near the start the filter counts missing samples as zeros: a constant stream is halved at its first sample. */
  lemma BoxSmoothedPadsWithZeros(watts: seq<real>, c: real)
    requires |watts| >= ConvLen
    requires forall i :: 0 <= i < |watts| ==> watts[i] == c
    ensures BoxSmoothed(watts)[0] == c / 2.0
  {
    var w := Clip(watts, -15, 15);
    assert w == watts[0..15];
    SumConstant(w, c);
  }

  /** Fourth power of `calc_nPower`. */
  function NPowerFourth(watts: seq<real>): real
    requires |watts| > 0
  {
    QuarticMean(BoxSmoothed(watts))
  }

  const EwmaSpan: nat := 25

  /** Fourth power of `calc_xPower`: the quartic mean of the EW mean of span 25. */
  function XPowerFourth(watts: seq<real>): real
    requires |watts| > 0
  {
    QuarticMean(Preprocess.Ewm(watts, EwmaSpan))
  }

  /** xPower here is what the library's `rolling_mean` computes with `type='ewma'` and window 25. */
  lemma XPowerIsEwmRollingMean(watts: seq<real>, value: real)
    requires |watts| > 0
    ensures XPowerFourth(watts) == QuarticMean(Preprocess.RollingMeanValues(watts, 25, None, value, "ewma"))
  {
  }

  /** The library's `'emwa'` spelling gives a different xPower: on `[0, 1]` the second smoothed sample is 0.5, not 0.52. */
  lemma XPowerTypoChangesSmoothing()
    ensures Metrics.NpSmoothed([0.0, 1.0], None, 0.0, "xPower")[1] == 0.5
    ensures Preprocess.Ewm([0.0, 1.0], EwmaSpan)[1] == 13.0 / 25.0
  {
    var s := [0.0, 1.0];
    assert Preprocess.TrailingWindow(s, 1, 25) == s;
    assert Sum(s) == 1.0 by {
      assert s[..1] == [0.0];
      assert [0.0][..0] == [];
    }
    var d := Preprocess.Decay(EwmaSpan);
    assert d == 12.0 / 13.0;
    assert s[..2] == s;
    assert s[..1] == [0.0];
    assert [0.0][..0] == [];
    assert Preprocess.EwmNumerator(s, d) == 1.0;
    assert Preprocess.EwmDenominator(2, d) == 25.0 / 13.0;
  }

  // The arithmetic of ActivityMetrics
  // ---------------------------------------------------------------------

  /** `calc_nWorkCP`: the work of an hour at CP, in joules. */
  function NWorkCP(cp: real): real
  {
    cp * 3600.0
  }

  /** `calc_relIntensity` and `calc_IF`: a power relative to a threshold. */
  function Ratio(power: real, threshold: real): real
    requires threshold != 0.0
  {
    power / threshold
  }

  /** `calc_nWorkSession`: xPower held for the whole moving time. */
  function NWorkSession(xPower: real, duration: real): real
  {
    xPower * duration
  }

  /** `calc_rawBikeScore`. */
  function RawBikeScore(relIntensity: real, nWorkSession: real): real
  {
    relIntensity * nWorkSession
  }

  /** `calc_bikeScore`. */
  function BikeScore(rawBikeScore: real, nWorkCP: real): real
    requires nWorkCP != 0.0
  {
    rawBikeScore / nWorkCP * 100.0
  }

  /** `calc_TSS`. */
  function Tss(duration: real, nPower: real, intensityFactor: real, ftp: real): real
    requires ftp != 0.0
  {
    (duration * nPower * intensityFactor) / (ftp * 3600.0) * 100.0
  }

  /** The ratio of the two scores' arithmetic: `(d n (n / f)) / (3600 f)` is `d / 3600 * (n / f)^2`. */
  lemma ScoreArithmetic(duration: real, power: real, threshold: real)
    requires threshold != 0.0
    ensures (duration * power * (power / threshold)) / (threshold * 3600.0) * 100.0
         == (duration / 3600.0) * Metrics.Square(power / threshold) * 100.0
  {
    var q := power / threshold;
    assert power == q * threshold;
    assert duration * power * q == (duration * q * q) * threshold;
    assert (duration * q * q) * threshold / (threshold * 3600.0) == duration * q * q / 3600.0;
  }

  /** TSS, computed through IF, is the library's stress score of nPower against FTP. */
  lemma TssIsStressScore(duration: real, nPower: real, ftp: real)
    requires ftp != 0.0
    ensures Tss(duration, nPower, Ratio(nPower, ftp), ftp) == Metrics.StressScore(nPower, ftp, duration)
  {
    ScoreArithmetic(duration, nPower, ftp);
  }

  /** BikeScore, computed through the relative intensity and the session work, is the stress score of xPower against CP. */
  lemma BikeScoreIsStressScore(duration: real, xPower: real, cp: real)
    requires cp != 0.0
    ensures BikeScore(RawBikeScore(Ratio(xPower, cp), NWorkSession(xPower, duration)), NWorkCP(cp))
         == Metrics.StressScore(xPower, cp, duration)
  {
    ScoreArithmetic(duration, xPower, cp);
    assert Ratio(xPower, cp) * (xPower * duration) == duration * xPower * (xPower / cp);
    assert NWorkCP(cp) == cp * 3600.0;
  }

  /** An hour ridden exactly at FTP scores 100. */
  lemma TssOfThresholdHour(ftp: real)
    requires ftp != 0.0
    ensures Tss(3600.0, ftp, Ratio(ftp, ftp), ftp) == 100.0
  {
    TssIsStressScore(3600.0, ftp, ftp);
    Metrics.StressScoreOfThresholdHour(ftp, 3600.0);
  }

  const ZoneLimits: seq<real> := [0.56, 0.76, 0.91, 1.06, 1.21, 1.51]

  /** `calc_PowerZones`: six edges, the zone limits scaled by FTP. */
  function PowerZones(ftp: real): (z: seq<real>)
    ensures |z| == 6
  {
    Metrics.Scale(ZoneLimits, ftp)
  }

  /** For a positive FTP the edges strictly increase. */
  lemma PowerZonesIncreasing(ftp: real)
    requires ftp > 0.0
    ensures forall k, l :: 0 <= k < l < 6 ==> PowerZones(ftp)[k] < PowerZones(ftp)[l]
  {
    var z := PowerZones(ftp);
    forall k | 0 <= k < 5 ensures z[k] < z[k + 1] {
      assert ZoneLimits[k] < ZoneLimits[k + 1];
    }
  }

  /** Edge `k` sits in zone `k + 2` of the library's FTP table, just above that zone's lower edge. */
  lemma PowerZonesAgainstLibraryTable(ftp: real, k: nat)
    requires ftp > 0.0
    requires k < 6
    ensures Metrics.Bin(PowerZones(ftp)[k], Metrics.Scale(Metrics.PowerZonesThreshold, ftp)) == Some(k + 2)
  {
    var edges := Metrics.Scale(Metrics.PowerZonesThreshold, ftp);
    assert Metrics.NonDecreasing(edges) by {
      forall i, j | 0 <= i <= j < |edges| ensures edges[i] <= edges[j] {
        assert Metrics.PowerZonesThreshold[i] <= Metrics.PowerZonesThreshold[j];
      }
    }
    Metrics.BinIff(PowerZones(ftp)[k], edges, k + 2);
  }

  // The ActivityMetrics object
  // ---------------------------------------------------------------------

  /**
   * `ActivityMetrics`: the constructor fills the fields one after the other,
   * each metric reading fields set before it. The fourth roots of
   * `calc_xPower` and `calc_nPower` are passed in as `xRoot` and `nRoot`.
   */
  class ActivityMetrics {
    var ftp: real
    var cp: real
    var duration: real
    var nWorkCP: real
    var avPower: real
    var xPower: real
    var nPower: real
    var relIntensity: real
    var intensityFactor: real
    var nWorkSession: real
    var rawBikeScore: real
    var bikeScore: real
    var tss: real
    var powerZones: seq<real>

    constructor (athleteFtp: real, movingTime: real, watts: seq<real>, xRoot: real, nRoot: real)
      requires athleteFtp != 0.0
      requires |watts| > 0
      requires 0.0 <= xRoot && Pow4(xRoot) == XPowerFourth(watts)
      requires 0.0 <= nRoot && Pow4(nRoot) == NPowerFourth(watts)
      ensures ftp == athleteFtp && cp == ftp && duration == movingTime
      ensures avPower == Mean(watts)
      ensures Pow4(xPower) == XPowerFourth(watts) && Pow4(nPower) == NPowerFourth(watts)
      ensures 0.0 <= xPower && 0.0 <= nPower
      ensures nWorkCP == NWorkCP(ftp) && nWorkSession == NWorkSession(xPower, duration)
      ensures rawBikeScore == RawBikeScore(relIntensity, nWorkSession)
      ensures relIntensity == Metrics.RelativeIntensity(xPower, cp)
      ensures intensityFactor == Metrics.RelativeIntensity(nPower, ftp)
      ensures bikeScore == Metrics.StressScore(xPower, cp, duration)
      ensures tss == Metrics.StressScore(nPower, ftp, duration)
      ensures powerZones == PowerZones(ftp)
    {
      var work := NWorkCP(athleteFtp);
      var rel := Ratio(xRoot, athleteFtp);
      var factor := Ratio(nRoot, athleteFtp);
      var session := NWorkSession(xRoot, movingTime);
      var raw := RawBikeScore(rel, session);
      BikeScoreIsStressScore(movingTime, xRoot, athleteFtp);
      TssIsStressScore(movingTime, nRoot, athleteFtp);
      ftp := athleteFtp;
      cp := athleteFtp;
      duration := movingTime;
      nWorkCP := work;
      avPower := Mean(watts);
      xPower := xRoot;
      nPower := nRoot;
      relIntensity := rel;
      intensityFactor := factor;
      nWorkSession := session;
      rawBikeScore := raw;
      bikeScore := BikeScore(raw, work);
      tss := Tss(movingTime, nRoot, factor, athleteFtp);
      powerZones := PowerZones(athleteFtp);
    }
  }
}
