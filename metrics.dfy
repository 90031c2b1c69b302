/**
 * Cycling metrics (vmpy/metrics.py): training zones, time in zones, best
 * interval, normalized power, relative intensity, stress score and
 * watts per kilogram, plus the library's second entry point to the
 * power-duration curve.
 */
module Metrics {
  import opened Basics
  import opened Utils
  import opened Preprocess
  import Algorithms

  // ---------------------------------------------------------------------
  // Zone tables
  // ---------------------------------------------------------------------

  /** FTP based seven zones, left edge just below zero. */
  const PowerZonesThreshold: seq<real> := [-0.001, 0.55, 0.75, 0.9, 1.05, 1.2, 1.5, 10.0]

  /** LTHR based five zones, left edge just below zero. */
  const HeartRateZones: seq<real> := [-0.001, 0.68, 0.83, 0.94, 1.05, 10.0]

  /**
   * The keyword arguments of `compute_zones`: custom edges, an FTP, an LTHR
   * and custom labels; `None` stands for an argument that was not given.
   */
  datatype ZoneConfig = ZoneConfig(
    zones: Option<seq<real>>,
    ftp: Option<real>,
    lthr: Option<real>,
    labels: Option<seq<int>>)

  /** Python truthiness of an optional number: absent and zero are false. */
  predicate TruthyNumber(x: Option<real>)
  {
    x.Some? && x.value != 0.0
  }

  /** Python truthiness of an optional list: absent and empty are false. */
  predicate TruthyList(x: Option<seq<real>>)
  {
    x.Some? && x.value != []
  }

  /** `np.asarray(table) * factor`. */
  function Scale(table: seq<real>, factor: real): (r: seq<real>)
    ensures |r| == |table|
  {
    seq(|table|, k requires 0 <= k < |table| => table[k] * factor)
  }

  /** Zone edges: custom zones first, then FTP, then LTHR; none of them is an error. */
  function ZoneEdges(c: ZoneConfig): (r: Result<seq<real>>)
    ensures r.Ok? ==> |r.value| >= 1
  {
    if TruthyList(c.zones) then Ok(c.zones.value)
    else if TruthyNumber(c.ftp) then Ok(Scale(PowerZonesThreshold, c.ftp.value))
    else if TruthyNumber(c.lthr) then Ok(Scale(HeartRateZones, c.lthr.value))
    else Err(ZoneConfigMissing)
  }

  /** `list(range(1, n + 1))`. */
  function DefaultLabels(n: nat): (r: seq<int>)
    ensures |r| == n
  {
    seq(n, i requires 0 <= i < n => i + 1)
  }

  ghost predicate NonDecreasing(e: seq<real>)
  {
    forall i, j :: 0 <= i < j < |e| ==> e[i] <= e[j]
  }

  ghost predicate StrictlyIncreasing(e: seq<real>)
  {
    forall i, j :: 0 <= i < j < |e| ==> e[i] < e[j]
  }

  /** `pd.cut` accepts edges that never decrease and repeat only when there are exactly two. */
  predicate CutAccepts(e: seq<real>)
  {
    (forall i :: 0 < i < |e| ==> e[i - 1] <= e[i]) &&
    ((forall i :: 0 < i < |e| ==> e[i - 1] < e[i]) || |e| == 2)
  }

  lemma {:induction false} CutAcceptsNonDecreasing(e: seq<real>)
    requires CutAccepts(e)
    ensures NonDecreasing(e)
  {
    forall i, j | 0 <= i < j < |e| ensures e[i] <= e[j] {
      StepsAdd(e, i, j);
    }
  }

  lemma {:induction false} StepsAdd(e: seq<real>, i: nat, j: nat)
    requires forall k :: 0 < k < |e| ==> e[k - 1] <= e[k]
    requires i <= j < |e|
    ensures e[i] <= e[j]
    decreases j - i
  {
    if i < j {
      StepsAdd(e, i + 1, j);
    }
  }

  datatype ZoneSetup = ZoneSetup(edges: seq<real>, labels: seq<int>)

  /** Edge selection, default labels, the label-count assertion and `pd.cut`'s edge check, in that order. */
  function Setup(c: ZoneConfig): (r: Result<ZoneSetup>)
    ensures r.Ok? ==> |r.value.edges| == |r.value.labels| + 1 && CutAccepts(r.value.edges)
  {
    var edges :- ZoneEdges(c);
    var labels := if c.labels.Some? then c.labels.value else DefaultLabels(|edges| - 1);
    if |edges| != |labels| + 1 then Err(LabelCountMismatch)
    else if !CutAccepts(edges) then Err(BadBinEdges)
    else Ok(ZoneSetup(edges, labels))
  }

  // ---------------------------------------------------------------------
  // Binning
  // ---------------------------------------------------------------------

  /** `edges.searchsorted(v, side='left')`: the number of edges strictly below `v`. */
  function SearchLeft(v: real, edges: seq<real>): (k: nat)
    ensures k <= |edges|
    ensures forall j :: 0 <= j < k ==> edges[j] < v
    ensures k < |edges| ==> v <= edges[k]
  {
    if edges == [] then 0
    else if v <= edges[0] then 0
    else 1 + SearchLeft(v, edges[1..])
  }

  /** The right-closed bin of `v`: `k` for `edges[k-1] < v <= edges[k]`, none outside the edges. */
  function Bin(v: real, edges: seq<real>): (b: Option<nat>)
    ensures b.Some? ==> 1 <= b.value < |edges|
  {
    var k := SearchLeft(v, edges);
    if k == 0 || k == |edges| then None else Some(k)
  }

  /** A value lies in bin `k` exactly when it is above edge `k-1` and at most edge `k`. */
  lemma {:induction false} BinIff(v: real, edges: seq<real>, k: nat)
    requires NonDecreasing(edges)
    requires 1 <= k < |edges|
    ensures Bin(v, edges) == Some(k) <==> edges[k - 1] < v <= edges[k]
  {
  }

  /** A value lies in no bin exactly when it is at most the first edge or above the last. */
  lemma {:induction false} BinNone(v: real, edges: seq<real>)
    requires NonDecreasing(edges)
    ensures Bin(v, edges).None? <==> |edges| < 2 || v <= edges[0] || v > edges[|edges| - 1]
  {
  }

  function Label(b: Option<nat>, labels: seq<int>): Option<int>
    requires b.Some? ==> 1 <= b.value <= |labels|
  {
    if b.None? then None else Some(labels[b.value - 1])
  }

  function ZonesOf(s: seq<real>, z: ZoneSetup): (r: seq<Option<int>>)
    requires |z.edges| == |z.labels| + 1
    ensures |r| == |s|
  {
    seq(|s|, i requires 0 <= i < |s| => Label(Bin(s[i], z.edges), z.labels))
  }

  /** `compute_zones`: the label of every sample's zone, `None` (NaN) outside the edges. */
  function ComputeZones(s: seq<real>, c: ZoneConfig): (r: Result<seq<Option<int>>>)
    ensures r.Ok? ==> |r.value| == |s|
  {
    var z :- Setup(c);
    Ok(ZonesOf(s, z))
  }

  /** Missing configuration is reported exactly when no zones, FTP or LTHR is truthy. */
  lemma {:induction false} ComputeZonesMissingConfig(s: seq<real>, c: ZoneConfig)
    ensures ComputeZones(s, c) == Err(ZoneConfigMissing)
        <==> !TruthyList(c.zones) && !TruthyNumber(c.ftp) && !TruthyNumber(c.lthr)
  {
  }

  /** Custom labels that do not number one fewer than the edges fail the assertion. */
  lemma {:induction false} ComputeZonesLabelMismatch(s: seq<real>, c: ZoneConfig)
    requires ZoneEdges(c).Ok? && c.labels.Some?
    requires |c.labels.value| + 1 != |ZoneEdges(c).value|
    ensures ComputeZones(s, c) == Err(LabelCountMismatch)
  {
  }

  /** Each sample gets the label of the right-closed bin it lies in, and none outside the edges. */
  lemma {:induction false} ComputeZonesLabels(s: seq<real>, c: ZoneConfig, i: nat)
    requires Setup(c).Ok? && i < |s|
    ensures var z := Setup(c).value;
      forall k :: 1 <= k < |z.edges| && z.edges[k - 1] < s[i] <= z.edges[k] ==>
        ComputeZones(s, c).value[i] == Some(z.labels[k - 1])
    ensures var z := Setup(c).value;
      var outside := |z.edges| < 2 || s[i] <= z.edges[0] || s[i] > z.edges[|z.edges| - 1];
      ComputeZones(s, c).value[i] == None <==> outside
  {
    var z := Setup(c).value;
    CutAcceptsNonDecreasing(z.edges);
    forall k | 1 <= k < |z.edges| && z.edges[k - 1] < s[i] <= z.edges[k]
      ensures ComputeZones(s, c).value[i] == Some(z.labels[k - 1])
    {
      BinIff(s[i], z.edges, k);
    }
    BinNone(s[i], z.edges);
  }

  /** Scaling by a positive factor keeps every step of a table strictly increasing. */
  lemma {:induction false} ScaleKeepsSteps(table: seq<real>, factor: real)
    requires factor > 0.0
    requires forall i :: 0 < i < |table| ==> table[i - 1] < table[i]
    ensures forall i :: 0 < i < |table| ==> Scale(table, factor)[i - 1] < Scale(table, factor)[i]
  {
    forall i | 0 < i < |table| ensures table[i - 1] * factor < table[i] * factor {
      MultiplyStrict(table[i - 1], table[i], factor);
    }
  }

  lemma MultiplyStrict(a: real, b: real, factor: real)
    requires a < b && factor > 0.0
    ensures a * factor < b * factor
  {
    assert (b - a) * factor > 0.0;
  }

  /** An FTP alone selects the seven power zones scaled by the FTP, labelled 1 to 7. */
  lemma {:induction false} FtpSetup(ftp: real)
    requires ftp > 0.0
    ensures Setup(ZoneConfig(None, Some(ftp), None, None))
         == Ok(ZoneSetup(Scale(PowerZonesThreshold, ftp), [1, 2, 3, 4, 5, 6, 7]))
  {
    var c := ZoneConfig(None, Some(ftp), None, None);
    var e := Scale(PowerZonesThreshold, ftp);
    assert ZoneEdges(c) == Ok(e);
    assert forall i :: 0 < i < |PowerZonesThreshold| ==> PowerZonesThreshold[i - 1] < PowerZonesThreshold[i];
    ScaleKeepsSteps(PowerZonesThreshold, ftp);
    assert CutAccepts(e);
    assert DefaultLabels(7) == [1, 2, 3, 4, 5, 6, 7];
  }

  /** An LTHR alone selects the five heart-rate zones scaled by the LTHR, labelled 1 to 5. */
  lemma {:induction false} LthrSetup(lthr: real)
    requires lthr > 0.0
    ensures Setup(ZoneConfig(None, None, Some(lthr), None))
         == Ok(ZoneSetup(Scale(HeartRateZones, lthr), [1, 2, 3, 4, 5]))
  {
    var c := ZoneConfig(None, None, Some(lthr), None);
    var e := Scale(HeartRateZones, lthr);
    assert ZoneEdges(c) == Ok(e);
    assert forall i :: 0 < i < |HeartRateZones| ==> HeartRateZones[i - 1] < HeartRateZones[i];
    ScaleKeepsSteps(HeartRateZones, lthr);
    assert CutAccepts(e);
    assert DefaultLabels(5) == [1, 2, 3, 4, 5];
  }

  /** A negative FTP reverses the edges, which `pd.cut` refuses. */
  lemma {:induction false} NegativeFtpRejected(s: seq<real>, ftp: real)
    requires ftp < 0.0
    ensures ComputeZones(s, ZoneConfig(None, Some(ftp), None, None)) == Err(BadBinEdges)
  {
    var e := Scale(PowerZonesThreshold, ftp);
    assert e[0] > e[1];
  }

  /**
   * Whatever the FTP, zero power lies in zone 1, power equal to 1.05 FTP (the
   * top of the threshold zone) in zone 4, power just above it in zone 5, and
   * power above ten times FTP in no zone.
   */
  lemma {:induction false} FtpZonesExample(ftp: real)
    requires ftp > 0.0
    ensures ComputeZones([0.0, 1.05 * ftp, 1.06 * ftp, 12.0 * ftp], ZoneConfig(None, Some(ftp), None, None))
         == Ok([Some(1), Some(4), Some(5), None])
  {
    var s := [0.0, 1.05 * ftp, 1.06 * ftp, 12.0 * ftp];
    var e := Scale(PowerZonesThreshold, ftp);
    var z := ZoneSetup(e, [1, 2, 3, 4, 5, 6, 7]);
    FtpComputeZones(s, ftp);
    FtpExampleBins(ftp);
    LabelsOfFour(s, z);
  }

  lemma {:induction false} FtpExampleBins(ftp: real)
    requires ftp > 0.0
    ensures Bin(0.0, Scale(PowerZonesThreshold, ftp)) == Some(1)
    ensures Bin(1.05 * ftp, Scale(PowerZonesThreshold, ftp)) == Some(4)
    ensures Bin(1.06 * ftp, Scale(PowerZonesThreshold, ftp)) == Some(5)
    ensures Bin(12.0 * ftp, Scale(PowerZonesThreshold, ftp)) == None
  {
    FtpBin(ftp, 0.0, 1);
    FtpBin(ftp, 1.05 * ftp, 4);
    FtpBin(ftp, 1.06 * ftp, 5);
    FtpEdgesOrdered(ftp);
    BinNone(12.0 * ftp, Scale(PowerZonesThreshold, ftp));
  }

  /** Reads the labels of four samples off their bins. */
  lemma {:induction false} LabelsOfFour(s: seq<real>, z: ZoneSetup)
    requires |s| == 4 && z.labels == [1, 2, 3, 4, 5, 6, 7] && |z.edges| == 8
    requires Bin(s[0], z.edges) == Some(1) && Bin(s[1], z.edges) == Some(4)
    requires Bin(s[2], z.edges) == Some(5) && Bin(s[3], z.edges) == None
    ensures ZonesOf(s, z) == [Some(1), Some(4), Some(5), None]
  {
  }

  /** With an FTP alone, the zones are those of the scaled seven-zone table. */
  lemma {:induction false} FtpComputeZones(s: seq<real>, ftp: real)
    requires ftp > 0.0
    ensures ComputeZones(s, ZoneConfig(None, Some(ftp), None, None))
         == Ok(ZonesOf(s, ZoneSetup(Scale(PowerZonesThreshold, ftp), [1, 2, 3, 4, 5, 6, 7])))
  {
    FtpSetup(ftp);
  }

  lemma {:induction false} FtpEdgesOrdered(ftp: real)
    requires ftp > 0.0
    ensures NonDecreasing(Scale(PowerZonesThreshold, ftp))
  {
    var e := Scale(PowerZonesThreshold, ftp);
    assert forall i :: 0 < i < |PowerZonesThreshold| ==> PowerZonesThreshold[i - 1] < PowerZonesThreshold[i];
    ScaleKeepsSteps(PowerZonesThreshold, ftp);
    assert CutAccepts(e);
    CutAcceptsNonDecreasing(e);
  }

  /** A power between two scaled edges of the seven-zone table lies in the zone they bound. */
  lemma {:induction false} FtpBin(ftp: real, v: real, k: nat)
    requires ftp > 0.0 && 1 <= k < |PowerZonesThreshold|
    requires PowerZonesThreshold[k - 1] * ftp < v <= PowerZonesThreshold[k] * ftp
    ensures Bin(v, Scale(PowerZonesThreshold, ftp)) == Some(k)
  {
    FtpEdgesOrdered(ftp);
    BinIff(v, Scale(PowerZonesThreshold, ftp), k);
  }

  // ---------------------------------------------------------------------
  // Time in zones
  // ---------------------------------------------------------------------

  /** Number of samples carrying the label `name`. */
  function CountLabel(z: seq<Option<int>>, name: int): nat
  {
    if z == [] then 0
    else CountLabel(z[..|z| - 1], name) + (if z[|z| - 1] == Some(name) then 1 else 0)
  }

  /** Number of samples inside the outer edges (not NaN). */
  function CountAssigned(z: seq<Option<int>>): nat
  {
    if z == [] then 0 else CountAssigned(z[..|z| - 1]) + (if z[|z| - 1].Some? then 1 else 0)
  }

  function SumNat(s: seq<nat>): nat
  {
    if s == [] then 0 else SumNat(s[..|s| - 1]) + s[|s| - 1]
  }

  ghost predicate Distinct(labels: seq<int>)
  {
    forall i, j :: 0 <= i < j < |labels| ==> labels[i] != labels[j]
  }

  function Counts(z: seq<Option<int>>, labels: seq<int>): (r: seq<nat>)
    ensures |r| == |labels|
  {
    seq(|labels|, k requires 0 <= k < |labels| => CountLabel(z, labels[k]))
  }

  /**
   * `time_in_zones`: `groupby(...).count()` over the categorical zones, one
   * count per label in label order, zero for a zone that never occurs.
   */
  function TimeInZones(s: seq<real>, c: ZoneConfig): (r: Result<seq<nat>>)
    ensures r.Ok? <==> ComputeZones(s, c).Ok?
    ensures r.Ok? ==> r.value == Counts(ComputeZones(s, c).value, Setup(c).value.labels)
  {
    var z :- Setup(c);
    Ok(Counts(ZonesOf(s, z), z.labels))
  }

  lemma {:induction false} SumNatZeros(s: seq<nat>)
    requires forall k :: 0 <= k < |s| ==> s[k] == 0
    ensures SumNat(s) == 0
  {
    if s != [] {
      SumNatZeros(s[..|s| - 1]);
    }
  }

  /** Raising one entry by one raises the sum by one. */
  lemma {:induction false} SumNatBump(a: seq<nat>, b: seq<nat>, j: nat)
    requires |a| == |b| && j < |a|
    requires forall k :: 0 <= k < |a| ==> b[k] == a[k] + (if k == j then 1 else 0)
    ensures SumNat(b) == SumNat(a) + 1
  {
    var n := |a| - 1;
    if j == n {
      assert a[..n] == b[..n];
    } else {
      SumNatBump(a[..n], b[..n], j);
    }
  }

  /** With distinct labels every labelled sample is counted in exactly one zone. */
  lemma {:induction false} CountsSumToAssigned(z: seq<Option<int>>, labels: seq<int>)
    requires Distinct(labels)
    requires forall i :: 0 <= i < |z| && z[i].Some? ==> z[i].value in labels
    ensures SumNat(Counts(z, labels)) == CountAssigned(z)
  {
    if z == [] {
      SumNatZeros(Counts(z, labels));
    } else {
      var p := z[..|z| - 1];
      var x := z[|z| - 1];
      CountsSumToAssigned(p, labels);
      if x.None? {
        assert Counts(z, labels) == Counts(p, labels);
      } else {
        var j :| 0 <= j < |labels| && labels[j] == x.value;
        SumNatBump(Counts(p, labels), Counts(z, labels), j);
      }
    }
  }

  /** Samples strictly above the first edge and at most the last. */
  function CountInside(s: seq<real>, edges: seq<real>): nat
  {
    if s == [] then 0
    else
      var v := s[|s| - 1];
      CountInside(s[..|s| - 1], edges)
        + (if |edges| >= 2 && edges[0] < v <= edges[|edges| - 1] then 1 else 0)
  }

  lemma {:induction false} AssignedAreInside(s: seq<real>, z: ZoneSetup)
    requires |z.edges| == |z.labels| + 1 && NonDecreasing(z.edges)
    ensures CountAssigned(ZonesOf(s, z)) == CountInside(s, z.edges)
  {
    if s != [] {
      var p := s[..|s| - 1];
      AssignedAreInside(p, z);
      assert ZonesOf(s, z)[..|s| - 1] == ZonesOf(p, z);
      BinNone(s[|s| - 1], z.edges);
    }
  }

  lemma {:induction false} LabelsOfZones(s: seq<real>, z: ZoneSetup)
    requires |z.edges| == |z.labels| + 1
    ensures forall i :: 0 <= i < |s| && ZonesOf(s, z)[i].Some? ==> ZonesOf(s, z)[i].value in z.labels
  {
  }

  /**
   * With distinct labels the zone counts add up to the number of samples
   * inside the outer edges.
   */
  lemma {:induction false} TimeInZonesTotal(s: seq<real>, c: ZoneConfig)
    requires TimeInZones(s, c).Ok?
    requires c.labels.Some? ==> Distinct(c.labels.value)
    ensures SumNat(TimeInZones(s, c).value) == CountInside(s, Setup(c).value.edges)
  {
    var z := Setup(c).value;
    CutAcceptsNonDecreasing(z.edges);
    LabelsOfZones(s, z);
    CountsSumToAssigned(ZonesOf(s, z), z.labels);
    AssignedAreInside(s, z);
  }

  // ---------------------------------------------------------------------
  // Best interval
  // ---------------------------------------------------------------------

  /** `np.max(rolling_mean(arg, window, mask, value, type=kind))`. */
  function BestIntervalOf(s: seq<real>, window: nat, mask: Option<seq<bool>>, value: real, kind: string): real
    requires |s| > 0 && window >= 1
    requires mask.Some? ==> |mask.value| == |s|
  {
    Max(RollingMeanValues(s, window, mask, value, kind))
  }

  /** `best_interval` on a container (an ndarray argument is masked in place on the way). */
  method BestInterval(arg: ArrayLike, window: nat, mask: Option<seq<bool>>, value: real, kind: string)
    returns (rv: real)
    requires |Values(arg)| > 0 && window >= 1
    requires mask.Some? ==> |mask.value| == |Values(arg)|
    modifies Footprint(arg)
    ensures rv == BestIntervalOf(old(Values(arg)), window, mask, value, kind)
    ensures arg.NdArray? ==> arg.buf[..] == ApplyMask(old(Values(arg)), mask, value)
  {
    var y := RollingMean(arg, window, mask, value, kind);
    rv := Max(Values(y));
  }

  /** The best interval is reached by some rolling mean and bounds all of them. */
  lemma {:induction false} BestIntervalIsLargestMean(s: seq<real>, window: nat, mask: Option<seq<bool>>, value: real, kind: string)
    requires |s| > 0 && window >= 1
    requires mask.Some? ==> |mask.value| == |s|
    ensures BestIntervalOf(s, window, mask, value, kind) in RollingMeanValues(s, window, mask, value, kind)
    ensures forall i :: 0 <= i < |s| ==>
      RollingMeanValues(s, window, mask, value, kind)[i] <= BestIntervalOf(s, window, mask, value, kind)
  {
    MaxIsLargestSample(RollingMeanValues(s, window, mask, value, kind));
  }

  /** A constant stream's best interval is that constant, for either kind of mean. */
  lemma {:induction false} BestIntervalConstant(s: seq<real>, window: nat, kind: string, c: real)
    requires |s| > 0 && window >= 1
    requires forall i :: 0 <= i < |s| ==> s[i] == c
    ensures BestIntervalOf(s, window, None, 0.0, kind) == c
  {
    if kind == "ewma" {
      EwmConstant(s, window, c);
    } else {
      UniformMeanConstant(s, window, c);
    }
    assert Constant(|s|, c)[0] == c;
    MaxUnique(Constant(|s|, c), c);
  }

  /** Five ones with a five-second window: 1. */
  lemma {:induction false} BestIntervalOnesExample()
    ensures BestIntervalOf([1.0, 1.0, 1.0, 1.0, 1.0], 5, None, 0.0, "uniform") == 1.0
  {
    BestIntervalConstant([1.0, 1.0, 1.0, 1.0, 1.0], 5, "uniform", 1.0);
  }

  /**
   * The best mean over full windows of `window` samples: the mean-max curve
   * at that duration, counting only windows that lie inside the stream.
   */
  function BestFullInterval(s: seq<real>, window: nat, mask: Option<seq<bool>>, value: real): real
    requires 1 <= window <= |s|
    requires mask.Some? ==> |mask.value| == |s|
  {
    Algorithms.MeanMaxCurve(ApplyMask(s, mask, value))[window - 1]
  }

  /** No full window of the masked stream has a mean above the corrected best interval. */
  lemma {:induction false} BestFullIntervalBoundsWindows(s: seq<real>, window: nat, mask: Option<seq<bool>>, value: real, j: nat)
    requires 1 <= window <= |s|
    requires mask.Some? ==> |mask.value| == |s|
    requires j + window <= |s|
    ensures Mean(ApplyMask(s, mask, value)[j..j + window]) <= BestFullInterval(s, window, mask, value)
  {
    Algorithms.MeanMaxCurveBoundsWindows(ApplyMask(s, mask, value), window, j);
  }

  /** The corrected best interval is the mean of an actual full window, whose start is returned. */
  lemma {:induction false} BestFullIntervalAttained(s: seq<real>, window: nat, mask: Option<seq<bool>>, value: real)
    returns (j: nat)
    requires 1 <= window <= |s|
    requires mask.Some? ==> |mask.value| == |s|
    ensures j + window <= |s|
    ensures Mean(ApplyMask(s, mask, value)[j..j + window]) == BestFullInterval(s, window, mask, value)
  {
    j := Algorithms.WindowAttainsMeanMax(ApplyMask(s, mask, value), window);
  }

  /** The mean of each full window is the uniform rolling mean at the window's last sample. */
  lemma {:induction false} FullWindowIsRollingMean(y: seq<real>, window: nat, j: nat)
    requires 1 <= window && j + window <= |y|
    ensures Algorithms.WindowMeans(y, window, 0)[j] == UniformMean(y, window)[j + window - 1]
  {
    assert TrailingWindow(y, j + window - 1, window) == y[j..j + window];
  }

  /** Every full window's mean is a uniform rolling mean, so the full-window best never exceeds `best_interval`. */
  lemma {:induction false} BestFullIntervalBelowBestInterval(s: seq<real>, window: nat, mask: Option<seq<bool>>, value: real)
    requires 1 <= window <= |s|
    requires mask.Some? ==> |mask.value| == |s|
    ensures BestFullInterval(s, window, mask, value) <= BestIntervalOf(s, window, mask, value, "uniform")
  {
    var y := ApplyMask(s, mask, value);
    var full := Algorithms.WindowMeans(y, window, 0);
    assert BestFullInterval(s, window, mask, value) == Max(full);
    MaxIsLargestSample(full);
    var j :| 0 <= j < |full| && full[j] == Max(full);
    FullWindowIsRollingMean(y, window, j);
    assert |"uniform"| != |"ewma"|;
    assert RollingMeanValues(s, window, mask, value, "uniform") == UniformMean(y, window);
    BestIntervalIsLargestMean(s, window, mask, value, "uniform");
  }

  /**
   * `[x, 0]` with a two-second window: `best_interval` reports `x`, the mean
   * of the one-sample window at the start, while the only full two-second
   * window averages `x / 2`.
   */
  lemma {:induction false} BestIntervalCountsPartialWindow(x: real)
    requires x > 0.0
    ensures BestIntervalOf([x, 0.0], 2, None, 0.0, "uniform") == x
    ensures BestFullInterval([x, 0.0], 2, None, 0.0) == x / 2.0
  {
    PartialWindowOfTwo(x);
    FullWindowOfTwo(x);
  }

  lemma {:induction false} PartialWindowOfTwo(x: real)
    requires x > 0.0
    ensures BestIntervalOf([x, 0.0], 2, None, 0.0, "uniform") == x
  {
    var s := [x, 0.0];
    assert |"uniform"| != |"ewma"|;
    UniformMeanWindowTwo(s);
    var r := UniformMean(s, 2);
    assert r == [x, x / 2.0];
    MaxUnique(r, x);
  }

  lemma {:induction false} FullWindowOfTwo(x: real)
    ensures BestFullInterval([x, 0.0], 2, None, 0.0) == x / 2.0
  {
    var s := [x, 0.0];
    var full := Algorithms.WindowMeans(s, 2, 0);
    assert BestFullInterval(s, 2, None, 0.0) == Max(full);
    assert s[0..2] == s;
    assert Sum([x]) == x by {
      assert [x][..0] == [];
    }
    assert s[..1] == [x];
    assert Sum(s) == Sum(s[..1]) + 0.0;
    assert full == [x / 2.0];
    MaxUnique(full, x / 2.0);
  }

  // ---------------------------------------------------------------------
  // Normalized power
  // ---------------------------------------------------------------------

  /**
   * The smoothed stream `normalized_power` averages: a 30-sample uniform mean,
   * or, for `type='xPower'`, `rolling_mean(window=25, type='emwa')`.
   */
  function NpSmoothed(s: seq<real>, mask: Option<seq<bool>>, value: real, kind: string): (r: seq<real>)
    requires mask.Some? ==> |mask.value| == |s|
    ensures |r| == |s|
  {
    if kind == "xPower" then RollingMeanValues(s, 25, mask, value, "emwa")
    else RollingMeanValues(s, 30, mask, value, "uniform")
  }

  /** Fourth power of `normalized_power`: the mean of the fourth powers of the smoothed stream. */
  function NormalizedPowerFourth(s: seq<real>, mask: Option<seq<bool>>, value: real, kind: string): real
    requires |s| > 0
    requires mask.Some? ==> |mask.value| == |s|
  {
    QuarticMean(NpSmoothed(s, mask, value, kind))
  }

  /** `normalized_power` on a container, returning the fourth power of its result. */
  method NormalizedPower(arg: ArrayLike, mask: Option<seq<bool>>, value: real, kind: string)
    returns (npFourth: real)
    requires |Values(arg)| > 0
    requires mask.Some? ==> |mask.value| == |Values(arg)|
    modifies Footprint(arg)
    ensures npFourth == NormalizedPowerFourth(old(Values(arg)), mask, value, kind)
    ensures arg.NdArray? ==> arg.buf[..] == ApplyMask(old(Values(arg)), mask, value)
  {
    var window := if kind == "xPower" then 25 else 30;
    var kindArg := if kind == "xPower" then "emwa" else "uniform";
    var y := RollingMean(arg, window, mask, value, kindArg);
    npFourth := QuarticMean(Values(y));
  }

  /** Because `'emwa'` is not `'ewma'`, xPower smooths with a uniform 25-sample mean. */
  lemma {:induction false} XPowerSmoothsUniformly(s: seq<real>, mask: Option<seq<bool>>, value: real)
    requires mask.Some? ==> |mask.value| == |s|
    ensures NpSmoothed(s, mask, value, "xPower") == UniformMean(ApplyMask(s, mask, value), 25)
  {
    assert "emwa" != "ewma" by { assert "emwa"[1] != "ewma"[1]; }
  }

  lemma {:induction false} QuarticMeanConstant(s: seq<real>, c: real)
    requires |s| > 0
    requires forall i :: 0 <= i < |s| ==> s[i] == c
    ensures QuarticMean(s) == Pow4(c)
  {
    MeanConstant(Fourth(s), Pow4(c));
  }

  /** A constant stream, unmasked or with every sample kept, has normalized power equal to the constant. */
  lemma {:induction false} NormalizedPowerConstant(s: seq<real>, mask: Option<seq<bool>>, kind: string, c: real)
    requires |s| > 0
    requires forall i :: 0 <= i < |s| ==> s[i] == c
    requires mask.Some? ==> |mask.value| == |s| && forall i :: 0 <= i < |s| ==> mask.value[i]
    ensures NormalizedPowerFourth(s, mask, 0.0, kind) == Pow4(c)
  {
    if mask.Some? {
      MaskFillAllTrue(s, mask.value, 0.0);
    }
    var y := ApplyMask(s, mask, 0.0);
    assert y == s;
    assert |"uniform"| != |"ewma"|;
    assert "emwa" != "ewma" by { assert "emwa"[1] != "ewma"[1]; }
    if kind == "xPower" {
      UniformMeanConstant(s, 25, c);
    } else {
      UniformMeanConstant(s, 30, c);
    }
    QuarticMeanConstant(Constant(|s|, c), c);
  }

  /** Thirty ones, every sample kept: 1, for NP and for xPower. */
  lemma {:induction false} NormalizedPowerOnesExample()
    ensures NormalizedPowerFourth(Constant(30, 1.0), Some(seq(30, _ => true)), 0.0, "NP") == 1.0
    ensures NormalizedPowerFourth(Constant(30, 1.0), Some(seq(30, _ => true)), 0.0, "xPower") == 1.0
  {
    NormalizedPowerConstant(Constant(30, 1.0), Some(seq(30, _ => true)), "NP", 1.0);
    NormalizedPowerConstant(Constant(30, 1.0), Some(seq(30, _ => true)), "xPower", 1.0);
  }

  function Square(x: real): real
  {
    x * x
  }

  function Squares(s: seq<real>): (r: seq<real>)
    ensures |r| == |s|
  {
    seq(|s|, i requires 0 <= i < |s| => Square(s[i]))
  }

  function SquaredDeviations(s: seq<real>, m: real): (r: seq<real>)
    ensures |r| == |s|
  {
    seq(|s|, i requires 0 <= i < |s| => Square(s[i] - m))
  }

  /** `q - 2 m t + n m^2`: the sum of squared deviations from `m` written through the power sums. */
  function Expansion(q: real, t: real, n: real, m: real): real
  {
    q - 2.0 * m * t + n * m * m
  }

  /** One more sample keeps the expansion of the squared deviations. */
  lemma DeviationStep(q: real, t: real, n: real, x: real, m: real)
    ensures Expansion(q, t, n, m) + Square(x - m) == Expansion(q + Square(x), t + x, n + 1.0, m)
  {
    assert Square(x - m) == x * x - 2.0 * m * x + m * m;
    assert (n + 1.0) * m * m == n * m * m + m * m;
    assert 2.0 * m * (t + x) == 2.0 * m * t + 2.0 * m * x;
  }

  lemma {:induction false} SquaresSnoc(s: seq<real>, m: real)
    requires |s| > 0
    ensures Sum(SquaredDeviations(s, m)) == Sum(SquaredDeviations(s[..|s| - 1], m)) + Square(s[|s| - 1] - m)
    ensures Sum(Squares(s)) == Sum(Squares(s[..|s| - 1])) + Square(s[|s| - 1])
  {
    assert SquaredDeviations(s, m)[..|s| - 1] == SquaredDeviations(s[..|s| - 1], m);
    assert Squares(s)[..|s| - 1] == Squares(s[..|s| - 1]);
  }

  /** The squared deviations from `m` sum to the sum of squares, less `2 m` times the sum, plus `n m^2`. */
  lemma {:induction false} SquaredDeviationsSum(s: seq<real>, m: real)
    ensures Sum(SquaredDeviations(s, m)) == Expansion(Sum(Squares(s)), Sum(s), |s| as real, m)
    decreases |s|
  {
    if s != [] {
      var p := s[..|s| - 1];
      var x := s[|s| - 1];
      SquaredDeviationsSum(p, m);
      SquaresSnoc(s, m);
      DeviationStep(Sum(Squares(p)), Sum(p), |p| as real, x, m);
      assert |p| as real + 1.0 == |s| as real;
    }
  }

  lemma {:induction false} SumNonNegative(s: seq<real>)
    requires forall i :: 0 <= i < |s| ==> 0.0 <= s[i]
    ensures 0.0 <= Sum(s)
  {
    if s != [] {
      SumNonNegative(s[..|s| - 1]);
    }
  }

  /** The mean of the squares is at least the square of the mean. */
  lemma {:induction false} MeanSquareBound(s: seq<real>)
    requires |s| > 0
    ensures Square(Mean(s)) <= Mean(Squares(s))
  {
    var m := Mean(s);
    var n := |s| as real;
    var q, t := Sum(Squares(s)), Sum(s);
    SquaredDeviationsSum(s, m);
    SquaredDeviationsNonNegative(s, m);
    VarianceStep(q, t, m, n);
    assert Mean(Squares(s)) == q / n;
  }

  lemma {:induction false} SquaredDeviationsNonNegative(s: seq<real>, m: real)
    ensures 0.0 <= Sum(SquaredDeviations(s, m))
  {
    forall i | 0 <= i < |s| ensures 0.0 <= SquaredDeviations(s, m)[i] {
      SquareNonNegative(s[i] - m);
    }
    SumNonNegative(SquaredDeviations(s, m));
  }

  lemma SquareNonNegative(x: real)
    ensures 0.0 <= Square(x)
  {
    if x < 0.0 {
      assert x * x == (-x) * (-x);
    }
  }

  lemma MeanTimesCount(total: real, n: real)
    requires n > 0.0
    ensures total / n * n == total
  {
  }

  /** From `q - 2 m t + n m^2 >= 0` and `m = t / n` follows `m^2 <= q / n`. */
  lemma VarianceStep(q: real, t: real, m: real, n: real)
    requires n > 0.0
    requires m == t / n
    requires 0.0 <= Expansion(q, t, n, m)
    ensures Square(m) <= q / n
  {
    MeanTimesCount(t, n);
    assert t == m * n;
    assert 2.0 * m * t == 2.0 * n * m * m;
    assert n * (m * m) <= q;
    assert (n * (m * m)) / n == m * m;
  }

  lemma SquareMonotone(a: real, b: real)
    requires 0.0 <= a <= b
    ensures Square(a) <= Square(b)
  {
    assert a * a <= a * b <= b * b;
  }

  /**
   * The quartic mean bounds the mean: the fourth power of the mean of the
   * smoothed stream never exceeds the fourth power of normalized power.
   */
  lemma {:induction false} QuarticMeanAboveMean(s: seq<real>)
    requires |s| > 0
    ensures Pow4(Mean(s)) <= QuarticMean(s)
  {
    var sq := Squares(s);
    MeanSquareBound(s);
    MeanSquareBound(sq);
    forall i | 0 <= i < |s| ensures Squares(sq)[i] == Fourth(s)[i] {
      assert Square(Square(s[i])) == Pow4(s[i]);
    }
    assert Squares(sq) == Fourth(s);
    SquareMonotone(Square(Mean(s)), Mean(sq));
  }

  lemma {:induction false} NormalizedPowerAboveSmoothedMean(s: seq<real>, mask: Option<seq<bool>>, value: real, kind: string)
    requires |s| > 0
    requires mask.Some? ==> |mask.value| == |s|
    ensures Pow4(Mean(NpSmoothed(s, mask, value, kind))) <= NormalizedPowerFourth(s, mask, value, kind)
  {
    QuarticMeanAboveMean(NpSmoothed(s, mask, value, kind));
  }

  /**
   * Normalized power can be below the mean of the raw stream: `[0, 100]` is
   * smoothed to `[0, 50]`, whose quartic mean is `50 / 2^(1/4)`.
   */
  lemma {:induction false} NormalizedPowerBelowRawMean()
    ensures NormalizedPowerFourth([0.0, 100.0], None, 0.0, "NP") == 3125000.0
    ensures Pow4(Mean([0.0, 100.0])) == 6250000.0
  {
    var s := [0.0, 100.0];
    assert |"uniform"| != |"ewma"|;
    var y := UniformMean(s, 30);
    assert TrailingWindow(s, 0, 30) == [0.0];
    assert TrailingWindow(s, 1, 30) == s;
    MeanSingleton(0.0);
    assert s[..1] == [0.0];
    assert Sum(s) == 100.0;
    assert y == [0.0, 50.0];
    var f := Fourth(y);
    assert f == [0.0, 6250000.0];
    assert f[..1] == [0.0];
    assert Sum(f) == 6250000.0;
  }

  // ---------------------------------------------------------------------
  // Intensity, stress and watts per kilogram
  // ---------------------------------------------------------------------

  /** `norm_power / threshold_power` (IF or RI): the factor that scales the threshold to the power. */
  function RelativeIntensity(normPower: real, thresholdPower: real): (r: real)
    requires thresholdPower != 0.0
    ensures r * thresholdPower == normPower
    ensures normPower == thresholdPower ==> r == 1.0
    ensures (normPower >= 0.0 && thresholdPower > 0.0) ==> r >= 0.0
  {
    normPower / thresholdPower
  }

  /** `(duration / 3600) * (norm_power / threshold_power) ** 2 * 100` (TSS or BikeScore). */
  function StressScore(normPower: real, thresholdPower: real, duration: real): (r: real)
    requires thresholdPower != 0.0
    ensures r == duration / 3600.0 * Square(RelativeIntensity(normPower, thresholdPower)) * 100.0
    ensures duration >= 0.0 ==> r >= 0.0
  {
    var f := normPower / thresholdPower;
    assert Square(f) >= 0.0;
    assert duration >= 0.0 ==> duration / 3600.0 * Square(f) >= 0.0;
    (duration / 3600.0) * Square(f) * 100.0
  }

  /** An hour at threshold scores 100 with intensity 1; the score grows in proportion to the duration. */
  lemma {:induction false} StressScoreOfThresholdHour(thresholdPower: real, duration: real)
    requires thresholdPower != 0.0
    ensures RelativeIntensity(thresholdPower, thresholdPower) == 1.0
    ensures StressScore(thresholdPower, thresholdPower, 3600.0) == 100.0
    ensures StressScore(thresholdPower, thresholdPower, duration) == duration / 36.0
  {
    assert thresholdPower / thresholdPower == 1.0;
  }

  lemma {:induction false} StressScoreExample()
    ensures RelativeIntensity(300.0, 300.0) == 1.0
    ensures StressScore(300.0, 300.0, 3600.0) == 100.0
  {
    StressScoreOfThresholdHour(300.0, 3600.0);
  }

  /** Watts per kilogram times the weight gives back the watts. */
  lemma {:induction false} WpkInverse(power: seq<real>, weight: real)
    requires weight != 0.0
    ensures forall i :: 0 <= i < |power| ==> Divided(power, weight)[i] * weight == power[i]
  {
  }

  /** `wpk` on a container: a new stream of the argument's container type. */
  method WattsPerKilo(power: ArrayLike, weight: real) returns (r: ArrayLike)
    requires weight != 0.0
    ensures TagOf(r) == TagOf(power)
    ensures Values(r) == Divided(Values(power), weight)
    ensures r.NdArray? ==> fresh(r.buf)
  {
    var rv := Divided(Values(power), weight);
    var out := new real[|rv|](i requires 0 <= i < |rv| => rv[i]);
    r := CastToOriginalType(out, TagOf(power));
  }

  // ---------------------------------------------------------------------
  // Power-duration curve
  // ---------------------------------------------------------------------

  /** The copy of `power_duration_curve` in this module behaves like the one in the algorithms module. */
  method PowerDurationCurve(arg: ArrayLike, mask: Option<seq<bool>>, value: real) returns (r: ArrayLike)
    requires mask.Some? ==> |mask.value| == |Values(arg)|
    modifies Footprint(arg)
    ensures TagOf(r) == TagOf(arg)
    ensures Values(r) == Algorithms.CurveValues(ApplyMask(old(Values(arg)), mask, value))
    ensures arg.NdArray? ==> arg.buf[..] == ApplyMask(old(Values(arg)), mask, value)
    ensures r.NdArray? ==> fresh(r.buf)
  {
    r := Algorithms.PowerDurationCurve(arg, mask, value);
  }
}
