# vmpy stream metrics in Dafny

This project models the core of vmpy, a small library for cycling data
recorded at 1 Hz. It also models the legacy `strava` activity layer that came
before the library. Samples are mathematical reals, so there is no floating
point. The model covers:

- **Container tagging** (`Utils`): a plain list is copied into a fresh
  buffer, and any other array-like is used in place. The tag turns the result
  back into a list.
- **Preprocessing** (`Preprocess`, with `Order` for the median):
  - mask filling, written into the caller's array when it is an ndarray;
  - the trailing rolling mean, uniform or exponentially weighted, with
    `min_periods=1`;
  - the Hampel outlier filter: a rolling median, the absolute deviations from
    it and their rolling median (the MAD), with the factor 1.4826.
- **Power-duration curve** (`Algorithms`, duplicated in `Metrics`): a
  prefix-sum "energy" and one maximum of lagged energy differences per
  duration.
- **Metrics** (`Metrics`):
  - zone classification by `pd.cut` over FTP, LTHR or custom edges, and
    time in zones;
  - best interval, normalized power (as its fourth power), relative
    intensity, stress score and watts per kilogram.
- **Strava responses** (`StravaApi`): `stream2dict` and `authorization_header`.
- **Legacy activity** (`StravaActivity`):
  - the moving-sample selection and its unit conversions;
  - the `ActivityMetrics` fields (xPower, nPower, IF, BikeScore, TSS, power
    zones), which its constructor fills one after another.

Explicit `raise` and `assert` statements in the source become `Result`
errors, and so does the bin-edge check of `pd.cut`, which raises
`ValueError` for edges that are not increasing. Inputs on which the source
raises elsewhere, or returns nan or inf, become preconditions; they are
listed under "Left out".

Two helpers are imported by the source but not defined in it:
`mask_fill` and `cast_array_to_original_type`. `mask_fill` is modelled as
`mask_filter` (`Preprocess.MaskFilter`). `cast_array_to_original_type` is
modelled as the inverse of the container tag (`Utils.CastToOriginalType`).

Two facts about the code are worth stating up front:

- **Normalized power and the mean.** Normalized power smooths before the
  quartic mean, so it can fall below the raw mean: `[0, 100]` shows it
  (`Metrics.NormalizedPowerBelowRawMean`). It is at least the mean of the
  smoothed stream (`Metrics.NormalizedPowerAboveSmoothedMean`).
- **xPower smoothing.** xPower passes `'emwa'`, so it smooths with a uniform
  mean (Finding 2).

## Model

| member | source | states |
|---|---|---|
| Utils.ToNdarray | vmpy/utils.py:4-16 | the tag is the input's kind; a list becomes a fresh buffer with the same samples in order; any other input is returned as the very same buffer; the length is kept; casting back gives the input |
| Utils.CastToOriginalType | vmpy/utils.py:10-14 | rebuilding by tag gives back the tag's kind with the same values, and touches no other object |
| Preprocess.MaskFill | vmpy/preprocess.py:31 | every sample whose mask is false holds the fill value, every other sample is unchanged, and the length is kept |
| Preprocess.MaskFillIdempotent | vmpy/preprocess.py:31 | filling twice equals filling once |
| Preprocess.MaskFillAllTrue | vmpy/preprocess.py:31 | a mask that keeps every sample changes nothing |
| Preprocess.MaskFilter | vmpy/preprocess.py:9-36 | with no mask the argument is returned untouched; otherwise the result holds the masked values with the argument's kind; an ndarray argument is the result itself, changed in place, and a list argument is left alone |
| Preprocess.TrailingWindow | vmpy/preprocess.py:59 | a trailing window is never empty and never longer than the window size |
| Preprocess.Rolling | vmpy/preprocess.py:59 | a rolling aggregate keeps the length and applies the aggregate to each trailing window |
| Preprocess.UniformMean | vmpy/preprocess.py:109 | output `i` is the mean of samples `max(0, i-w+1)..i`; the length is kept |
| Preprocess.UniformMeanWindowOne | vmpy/preprocess.py:109 | a window of one is the identity |
| Preprocess.UniformMeanConstant | vmpy/preprocess.py:109 | a constant stream stays constant |
| Preprocess.UniformMeanWindowTwo | vmpy/preprocess.py:109 | with window 2, output 0 is the first sample and output `i` averages samples `i-1` and `i` |
| Preprocess.Decay | vmpy/preprocess.py:107 | the EW decay for a span lies in `[0, 1)` |
| Preprocess.Ewm | vmpy/preprocess.py:107 | the EW mean keeps the length |
| Preprocess.EwmFirst | vmpy/preprocess.py:107 | the first EW output equals the first sample |
| Preprocess.EwmBounded | vmpy/preprocess.py:107 | every EW output lies between the lower and upper bounds of the samples |
| Preprocess.EwmConstant | vmpy/preprocess.py:107 | a constant stream stays constant under the EW mean |
| Preprocess.RollingMeanValues | vmpy/preprocess.py:98-110 | the mask is applied first; `'ewma'` selects the EW mean, anything else the uniform mean; the length is kept |
| Preprocess.RollingMeanWindowOne | vmpy/preprocess.py:100-109 | uniform window 1 returns the masked stream |
| Preprocess.RollingMeanExample | vmpy/preprocess.py:104-109 | `[1,2,3,4,5]` with window 2 gives `[1,1.5,2.5,3.5,4.5]` |
| Preprocess.RollingMeanMaskedExample | vmpy/preprocess.py:100-109 | `[1,2,3,4,5]` with mask `[T,T,F,T,T]` and window 2 gives `[1,1.5,1,2,4.5]` |
| Preprocess.RollingMeanEwmOnesExample | vmpy/preprocess.py:106-107 | thirty ones stay ones under the EW mean |
| Preprocess.RollingMean | vmpy/preprocess.py:80-114 | the result has the stream's kind and holds the rolling mean of the masked stream; an ndarray stream is masked in place |
| Preprocess.RollingMedian | vmpy/preprocess.py:59 | output `i` is the median of the trailing window; the length is kept |
| Preprocess.AbsDeviation | vmpy/preprocess.py:61 | the absolute deviations keep the length |
| Preprocess.RollingMad | vmpy/preprocess.py:63 | the MAD stream keeps the length |
| Preprocess.HampelValues | vmpy/preprocess.py:65-70 | a sample changes only when its deviation exceeds `1.4826 * threshold * MAD`; it then becomes the truthy `value`, or else the rolling median; the length is kept |
| Preprocess.HampelFilter | vmpy/preprocess.py:39-77 | the result has the argument's kind and holds the filtered values; an ndarray argument is overwritten in place |
| Preprocess.RollingMedianOfSpike | vmpy/preprocess.py:59 | a constant stream whose last sample differs has a constant rolling median |
| Preprocess.SpikeDeviation | vmpy/preprocess.py:61 | its deviations vanish except at the last sample |
| Preprocess.SpikeMadZero | vmpy/preprocess.py:63 | its MAD is zero everywhere |
| Preprocess.SpikeOutliers | vmpy/preprocess.py:65 | sample `i` is an outlier exactly when it is the last one and differs |
| Preprocess.HampelRemovesTrailingSpike | vmpy/preprocess.py:65-70 | the spike is replaced by the truthy `value` or by the constant, and nothing else changes |
| Preprocess.HampelDefaultExample | vmpy/preprocess.py:39-77 | fifty-nine ones followed by a 2 become sixty ones |
| Preprocess.HampelReplacementExample | vmpy/preprocess.py:67-68 | the same stream with `value=10` ends in 10 |
| Order.Median | vmpy/preprocess.py:59 | the median of a window lies between the lower and the upper middle sample of its sorted order, and is the middle sample when the count is odd |
| Order.Insert | vmpy/preprocess.py:59 | insertion into a sorted sequence keeps it sorted and adds exactly one element |
| Order.Sort | vmpy/preprocess.py:59 | sorting gives a sorted permutation |
| Order.MedianOfMajority | vmpy/preprocess.py:59 | a value held by a strict majority of the window is its median |
| Order.MedianOfConstant | vmpy/preprocess.py:59 | the median of a constant window is the constant |
| Order.MedianIgnoresOneSpike | vmpy/preprocess.py:59 | one differing sample after at least two equal ones does not move the median |
| Algorithms.CumSum | vmpy/algorithms.py:42 | the cumulative sum keeps the length |
| Algorithms.CumSumAt | vmpy/algorithms.py:42 | energy `i` is the sum of samples `0..i` |
| Algorithms.LagDiffIsLateMean | vmpy/algorithms.py:48 | the lag-`t` energy difference at `k + t`, over `t`, is the mean of samples `k+1..k+t` |
| Algorithms.LagMaxIsBestLateMean | vmpy/algorithms.py:48 | the appended value for `t` is the best mean over `t`-sample windows that start at sample 1 or later |
| Algorithms.CurveValues | vmpy/algorithms.py:46-48 | the curve has `n-1` points, and none for `n <= 1` |
| Algorithms.PowerDurationCurve | vmpy/algorithms.py:17-52 | the result has the argument's kind and holds the curve of the masked stream; an ndarray argument is masked in place |
| Algorithms.CurveFirstPoint | vmpy/algorithms.py:42-48 | the first point is the maximum of samples `1..n-1` |
| Algorithms.CurveOfZeros | vmpy/algorithms.py:42-48 | an all-zero stream gives an all-zero curve |
| Algorithms.CurveOfThreeZeros | vmpy/algorithms.py:42-48 | `[0,0,0]` gives `[0,0]` |
| Algorithms.CurveOfLateZeros | vmpy/algorithms.py:42-48 | a stream of two or more samples that is zero after its first sample gives an all-zero curve, whatever the first sample |
| Algorithms.CurveMissesFirstWindow | vmpy/algorithms.py:46-48 | `[x,0,0]` with `x > 0` has first point 0, below the best one-second power `x` |
| Algorithms.MeanMaxCurve | vmpy/algorithms.py:46-48 | the corrected curve has one point per duration `1..n` |
| Algorithms.PaddedLagMaxIsBestMean | vmpy/algorithms.py:42-48 | over an energy with a leading zero, the lag maximum is the best mean over all windows |
| Algorithms.EnergyCurve | vmpy/algorithms.py:41-47 | the loop over lags `1..n-1` yields, for each lag, the best mean over windows starting at sample 1 or later |
| Algorithms.PaddedEnergyCurve | vmpy/algorithms.py:41-47 | the same loop over the energy with a leading zero yields the mean-max curve |
| Algorithms.MeanMaxPowerCurve | vmpy/algorithms.py:17-52 | the corrected loop computes the curve of best means over all windows |
| Algorithms.MeanMaxCurveBoundsWindows | vmpy/algorithms.py:46-48 | no window's mean exceeds the corrected curve at its duration |
| Algorithms.CurveBelowMeanMax | vmpy/algorithms.py:46-48 | the curve as written never exceeds the corrected curve |
| Algorithms.MeanMaxFirstPoint | vmpy/algorithms.py:46-48 | the corrected first point is the largest sample |
| Algorithms.MeanMaxOfLeadingSample | vmpy/algorithms.py:46-48 | for `[x,0,0]` the corrected first point is `x` |
| Metrics.ZoneEdges | vmpy/metrics.py:155-165 | custom zones, then FTP, then LTHR are tried in that order; none of them truthy is the `ValueError` |
| Metrics.DefaultLabels | vmpy/metrics.py:167 | the default labels are `1..n` |
| Metrics.CutAcceptsNonDecreasing | vmpy/metrics.py:170 | edges that `pd.cut` accepts never decrease |
| Metrics.Setup | vmpy/metrics.py:155-170 | a successful setup has one more edge than labels, and edges that `pd.cut` accepts |
| Metrics.SearchLeft | vmpy/metrics.py:170 | the search returns the number of edges strictly below the value |
| Metrics.Bin | vmpy/metrics.py:170 | a bin index lies between 1 and the last edge |
| Metrics.BinIff | vmpy/metrics.py:170 | a value gets bin `k` exactly when `edge[k-1] < v <= edge[k]` |
| Metrics.BinNone | vmpy/metrics.py:170 | a value gets no bin exactly when it is at most the first edge or above the last |
| Metrics.ZonesOf | vmpy/metrics.py:170 | one zone per sample |
| Metrics.ComputeZones | vmpy/metrics.py:131-173 | a successful classification has one zone per sample |
| Metrics.ComputeZonesMissingConfig | vmpy/metrics.py:155-165 | the `ValueError` arises exactly when none of zones, ftp or lthr is truthy |
| Metrics.ComputeZonesLabelMismatch | vmpy/metrics.py:167-168 | a label list of the wrong length fails the assertion |
| Metrics.ComputeZonesLabels | vmpy/metrics.py:170 | sample `i` gets label `k` for `edge[k-1] < v <= edge[k]`, and no label outside the edges |
| Metrics.FtpSetup | vmpy/metrics.py:158-167 | a positive FTP gives the scaled seven-zone table with labels 1..7 |
| Metrics.LthrSetup | vmpy/metrics.py:161-167 | a positive LTHR gives the scaled five-zone table with labels 1..5 |
| Metrics.NegativeFtpRejected | vmpy/metrics.py:158-170 | a negative FTP gives decreasing edges, which `pd.cut` rejects |
| Metrics.FtpZonesExample | vmpy/metrics.py:158-170 | 0 is in zone 1, `1.05 ftp` in zone 4, `1.06 ftp` in zone 5, and `12 ftp` in no zone |
| Metrics.Counts | vmpy/metrics.py:125 | one count per label |
| Metrics.TimeInZones | vmpy/metrics.py:109-128 | it fails exactly when the classification fails, and otherwise counts, per label, the samples in that zone |
| Metrics.CountsSumToAssigned | vmpy/metrics.py:125 | with distinct labels the counts add up to the number of classified samples |
| Metrics.AssignedAreInside | vmpy/metrics.py:170 | the classified samples are exactly those inside the outer edges |
| Metrics.LabelsOfZones | vmpy/metrics.py:170 | every assigned zone is one of the labels |
| Metrics.TimeInZonesTotal | vmpy/metrics.py:123-126 | the time in zones adds up to the number of samples inside the outer edges |
| Metrics.BestInterval | vmpy/metrics.py:82-106 | the result is the maximum of the rolling mean; an ndarray argument is masked in place |
| Metrics.BestIntervalIsLargestMean | vmpy/metrics.py:102-104 | the best interval is one of the rolling means, and no rolling mean exceeds it |
| Metrics.BestIntervalConstant | vmpy/metrics.py:102-104 | a constant stream's best interval is the constant |
| Metrics.BestIntervalOnesExample | vmpy/metrics.py:102-104 | five ones with window 5 give 1 |
| Metrics.BestFullIntervalBoundsWindows | vmpy/metrics.py:102-104 | no full window has a mean above the corrected best interval |
| Metrics.BestFullIntervalAttained | vmpy/metrics.py:102-104 | the corrected best interval is the mean of an actual full window |
| Metrics.FullWindowIsRollingMean | vmpy/metrics.py:102 | each full window's mean is the rolling mean at the window's last sample |
| Metrics.BestFullIntervalBelowBestInterval | vmpy/metrics.py:102-104 | the corrected best interval never exceeds the best interval as written |
| Metrics.BestIntervalCountsPartialWindow | vmpy/metrics.py:102-104 | `[x,0]` with window 2 gives `x`, although the only full window averages `x/2` |
| Metrics.NpSmoothed | vmpy/metrics.py:195-198 | the smoothed stream keeps the length |
| Metrics.NormalizedPower | vmpy/metrics.py:176-205 | the result's fourth power is the mean of the fourth powers of the rolling mean (window 25 for xPower, 30 otherwise) |
| Metrics.XPowerSmoothsUniformly | vmpy/metrics.py:195-196 | xPower smooths with a uniform 25-sample mean |
| Metrics.QuarticMeanConstant | vmpy/metrics.py:203 | the quartic mean of a constant is its fourth power |
| Metrics.NormalizedPowerConstant | vmpy/metrics.py:195-203 | a constant stream, all samples kept, has normalized power equal to the constant |
| Metrics.NormalizedPowerOnesExample | vmpy/metrics.py:195-203 | thirty ones give 1 for NP and for xPower |
| Metrics.SquaredDeviationsSum | vmpy/metrics.py:203 | the squared deviations from `m` sum to `Σx² − 2mΣx + nm²` |
| Metrics.MeanSquareBound | vmpy/metrics.py:203 | the square of the mean never exceeds the mean of the squares |
| Metrics.QuarticMeanAboveMean | vmpy/metrics.py:203 | the fourth power of the mean never exceeds the mean of the fourth powers |
| Metrics.NormalizedPowerAboveSmoothedMean | vmpy/metrics.py:195-203 | normalized power is at least the mean of the smoothed stream |
| Metrics.NormalizedPowerBelowRawMean | vmpy/metrics.py:195-203 | `[0,100]` has fourth power 3125000, below the mean's fourth power 6250000 |
| Metrics.RelativeIntensity | vmpy/metrics.py:208-226 | the intensity times the threshold gives back the power; a power equal to the threshold has intensity 1; a non-negative power against a positive threshold has a non-negative intensity |
| Metrics.StressScoreOfThresholdHour | vmpy/metrics.py:247 | at threshold the intensity is 1, an hour scores 100, and the score is proportional to the duration |
| Metrics.StressScore | vmpy/metrics.py:229-249 | the score is a hundred times the duration in hours times the squared relative intensity, and is never negative for a non-negative duration |
| Metrics.StressScoreExample | vmpy/metrics.py:247 | `(300, 300, 3600)` gives intensity 1 and score 100 |
| Metrics.WpkInverse | vmpy/metrics.py:75 | the watts per kilogram times the weight give back the watts |
| Metrics.WattsPerKilo | vmpy/metrics.py:62-78 | a new stream of the argument's kind (a freshly allocated buffer when it is an array) holding each sample divided by the weight |
| Metrics.PowerDurationCurve | vmpy/metrics.py:23-58 | the duplicate behaves exactly like the algorithms module's curve, including masking in place and returning a freshly allocated buffer |
| StravaApi.Stream2Dict | vmpy/strava.py:96-109 | the loop builds the dictionary of the records in order, and its keys are exactly the records' types |
| StravaApi.StreamMapKeys | vmpy/strava.py:103-107 | the keys are exactly the types in the response; no records give the empty map |
| StravaApi.StreamMapLastWins | vmpy/strava.py:105-107 | a type maps to the data of its last record |
| StravaApi.StreamMapDistinct | vmpy/strava.py:105-107 | records with distinct types map each type to its data unchanged |
| StravaApi.StreamMapExample | vmpy/strava.py:96-109 | the numbers/letters response becomes the two-entry dictionary |
| StravaApi.AuthorizationHeader | vmpy/strava.py:112-121 | a one-entry dictionary whose value is the scheme followed by the token |
| StravaApi.AuthorizationHeaderRoundTrip | vmpy/strava.py:119 | the token read back from the header is the token given |
| StravaApi.AuthorizationHeaderInjective | vmpy/strava.py:119 | different tokens give different headers |
| StravaApi.AuthorizationHeaderExample | vmpy/strava.py:119 | `'abc123'` gives `{'Authorization': 'Bearer abc123'}` |
| StravaActivity.MovingSlice | strava/activity.py:62-66 | the indices are increasing, each has its flag set, every flagged index appears, and there are as many as flags set |
| StravaActivity.Filter | strava/activity.py:72 | keeping the flagged samples leaves as many samples as flags set |
| StravaActivity.MovingSamplesIsFilter | strava/activity.py:64-72 | selecting by the moving indices keeps exactly the moving samples, in order |
| StravaActivity.FilterAllMoving | strava/activity.py:72 | when every sample is moving, nothing is dropped |
| StravaActivity.FilterNoneMoving | strava/activity.py:72 | when no sample is moving, everything is dropped |
| StravaActivity.Watts | strava/activity.py:68-77 | the `LookupError` arises exactly when no power stream was delivered; otherwise the result is the moving power samples |
| StravaActivity.Distance | strava/activity.py:94-97 | one sample per moving flag, each a thousandth of the moving distance in metres |
| StravaActivity.Speed | strava/activity.py:119-122 | one sample per moving flag, each 3.6 times the moving speed in metres per second |
| StravaActivity.BoxSame | strava/activity.py:286 | the `'same'` convolution has length `max(n, 30)` |
| StravaActivity.BoxSmoothed | strava/activity.py:286 | the smoothed power has length `max(n, 30)` |
| StravaActivity.BoxSmoothedCentred | strava/activity.py:283-286 | away from both ends, the smoothed power is the mean of the thirty samples around `i` |
| StravaActivity.BoxSmoothedPadsWithZeros | strava/activity.py:283-286 | a constant stream is halved at its first sample, because missing samples count as zeros |
| StravaActivity.XPowerIsEwmRollingMean | strava/activity.py:275-280 | the legacy xPower is the quartic mean of the library's `'ewma'` rolling mean with window 25 |
| StravaActivity.XPowerTypoChangesSmoothing | strava/activity.py:278 | on `[0,1]` the library's xPower smoothing gives 0.5 at the second sample, where an EW mean of span 25 gives 0.52 |
| StravaActivity.TssIsStressScore | strava/activity.py:298-312 | TSS computed through IF is the library's stress score of nPower against FTP |
| StravaActivity.BikeScoreIsStressScore | strava/activity.py:258-308 | BikeScore computed through the relative intensity and the session work is the stress score of xPower against CP |
| StravaActivity.TssOfThresholdHour | strava/activity.py:298-312 | an hour at FTP scores 100 |
| StravaActivity.PowerZones | strava/activity.py:320-322 | six edges |
| StravaActivity.PowerZonesIncreasing | strava/activity.py:320-322 | for a positive FTP the six edges strictly increase |
| StravaActivity.PowerZonesAgainstLibraryTable | strava/activity.py:321 | legacy edge `k` falls in zone `k+2` of the library's FTP table |
| StravaActivity.ActivityMetrics.constructor | strava/activity.py:228-244 | the fields are filled in the source's order: CP is FTP; xPower and nPower are the non-negative fourth roots of their quartic means; the CP work is CP times an hour, the session work xPower times the duration, the raw BikeScore the relative intensity times the session work; IF and the relative intensity are the library's relative intensity; BikeScore and TSS equal the library's stress score; the zones scale the limits |

## Left out

- Network, configuration and JSON handling are not modelled: `retrieve_athlete`, `retrieve_activity` and `retrieve_streams` (vmpy/strava.py:16-93), and the `Activity` constructor and getters that fetch data (strava/activity.py:28-56, 246-265). The fetched streams, FTP and moving time are parameters of the model.
- Plotting is not modelled: `plot_strava_analysis_simple` and the `CompareActivities` methods. `synchronize_activities_by_power_shifting` is left out too, because it depends on float interpolation.
- The other `Activity` properties are not modelled: `power10`, `power3`, `power_ewma25`, `altitude`, `heartrate`, `cadence`, `time` and `latlng`. Each is the same moving selection as `watts`, with or without a rolling mean.
- Floating point is not modelled: NaN values, `np.nan_to_num`, rounding, and the truncation when a fractional fill is written into an integer array. Samples are reals.
- The pandas Series index is not modelled; only element order and the list/other tag are.
- Preconditions stand for inputs on which the source raises outside an explicit `raise`, or returns nan or inf. They are:
  - a mask whose length differs from the stream (numpy raises `IndexError`);
  - a window below 1 (pandas raises `ValueError`);
  - a zero weight, threshold or FTP (the division gives inf or nan, or raises `ZeroDivisionError` on plain Python numbers);
  - an empty stream given to `np.max` (raises `ValueError`) or to `np.mean` (returns nan with a warning);
  - a missing dictionary key (raises `KeyError`);
  - streams of different lengths. A Strava response holds streams of one length. If a stream is shorter than the moving flags, numpy raises `IndexError`. A stream longer than the flags would be indexed without error, and the model does not cover it.
- Metrics.NormalizedPower: states the fourth power of normalized power, not the result itself. A fourth root of a real is not computable here.
- StravaActivity.ActivityMetrics.constructor: receives the fourth roots of xPower and nPower as parameters. A precondition ties each root to its quartic mean.
- Metrics.TimeInZonesTotal: requires distinct custom labels. pandas at the time accepted repeated labels in `pd.cut`, which merges their counts.
- Metrics.TimeInZones: follows the ndarray path, where `compute_zones` returns a categorical series and `groupby(...).count()` gives a count for every label, zero for labels without samples. For a list argument `compute_zones` returns a plain list (vmpy/metrics.py:172), the grouping is not categorical, and labels without samples are absent from the result; the model still lists them with a zero count.
- StravaActivity.Watts: the presence test is a plain comparison of the stream with `None`, as the numpy of the time evaluated it. Later numpy compares elementwise and raises instead.
- StravaApi.Stream2Dict: the records are typed. A record without a `type` or `data` key, which would raise `KeyError`, cannot be built.
- StravaActivity.Distance: the absent-stream case is a precondition. An absent stream is `None`, and indexing it raises Python's `TypeError` rather than an explicit error.
- StravaActivity.Speed: the absent-stream case is a precondition, for the same reason as for `distance`: indexing `None` raises `TypeError`.
- Metrics.ComputeZones: labels are integers. The source accepts labels of any type, strings included; the model narrows them to `int`.

## Findings

| source | as written | input that shows it | evidently intended | confidence | as-written member | corrected member |
|---|---|---|---|---|---|---|
| vmpy/algorithms.py:46-48 | `energy.diff(t).max()` never sees a window that starts at sample 0, because the first lagged difference is `E[t] - E[0]` and `E[0]` already includes sample 0 | `[x, 0, 0]` with `x > 0`: the one-second point is 0, not `x` | point `t` is the best mean over every `t`-sample window | high, not executed | Algorithms.CurveMissesFirstWindow | Algorithms.MeanMaxPowerCurve |
| vmpy/metrics.py:196 | `type='emwa'` does not match the `'ewma'` test of vmpy/preprocess.py:106, so xPower smooths with a uniform 25-sample mean | `[0, 1]`: second smoothed sample 0.5, where an EW mean of span 25 gives 0.52 | an EW mean of span 25, as strava/activity.py:275-280 computes it | high, not executed | StravaActivity.XPowerTypoChangesSmoothing | StravaActivity.XPowerIsEwmRollingMean |
| vmpy/metrics.py:102-104 | the rolling mean with `min_periods=1` also averages the shorter windows at the start, so the best "interval" can be shorter than `window` | `[x, 0]` with window 2 and `x > 0`: best interval `x`, though the only 2-second interval averages `x/2` | the best mean over full windows of `window` samples | medium, not executed | Metrics.BestIntervalCountsPartialWindow | Metrics.BestFullIntervalAttained |
