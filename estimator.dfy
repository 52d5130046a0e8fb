/** `get_max_growth_rate`: drop the non-finite log-OD points, fit a
    smoothing spline to what is left, evaluate its derivative at the kept
    times and report the steepest point. */
module Estimator {
  import opened Common
  import opened Mask
  import opened Peak

  /** Degree of the smoothing spline (`k=5`). */
  const SplineDegree: nat := 5

  /** The smoothing-spline fit and its derivative, given the kept times, the
      kept log-OD values, the degree and the smoothing factor; None when the
      fit raises. */
  type SplineFit = (seq<real>, seq<real>, nat, real) -> Option<real -> real>

  /** The triple the estimator returns. */
  datatype Estimate = Estimate(maxLogSlope: real, maxTime: real, maxIndex: nat)

  /** `np.isfinite` applied elementwise: the keep mask. */
  function FiniteMask(logOD: seq<LogValue>): (keep: seq<bool>)
    ensures |keep| == |logOD|
    ensures forall i :: 0 <= i < |logOD| ==> (keep[i] <==> logOD[i].Finite?)
  {
    seq(|logOD|, i requires 0 <= i < |logOD| => logOD[i].Finite?)
  }

  /** The time axis restricted to the kept points. */
  function KeptTimes(logOD: seq<LogValue>, times: seq<real>): (ts: seq<real>)
    requires |times| == |logOD|
    ensures |ts| == CountTrue(FiniteMask(logOD))
    ensures forall j :: 0 <= j < |ts| ==> ts[j] == times[KeptIndices(FiniteMask(logOD))[j]]
  {
    FilterAt(times, FiniteMask(logOD));
    Filter(times, FiniteMask(logOD))
  }

  /** The kept log-OD values, as numbers; each is the value at the kept
      position it came from. */
  function KeptLogOD(logOD: seq<LogValue>): (ys: seq<real>)
    ensures |ys| == CountTrue(FiniteMask(logOD))
    ensures forall j :: 0 <= j < |ys| ==> logOD[KeptIndices(FiniteMask(logOD))[j]] == Finite(ys[j])
  {
    var kept := Filter(logOD, FiniteMask(logOD));
    FilterAt(logOD, FiniteMask(logOD));
    seq(|kept|, j requires 0 <= j < |kept| => kept[j].value)
  }

  /** The kept times and the kept values stay aligned: both have one entry
      per finite point, and the j-th of each comes from the j-th finite
      point. */
  lemma KeptSeriesAligned(logOD: seq<LogValue>, times: seq<real>)
    requires |times| == |logOD|
    ensures var keep := FiniteMask(logOD);
            var ix := KeptIndices(keep);
            && |KeptTimes(logOD, times)| == |KeptLogOD(logOD)| == CountTrue(keep)
            && forall j :: 0 <= j < |ix| ==>
                 KeptTimes(logOD, times)[j] == times[ix[j]] && logOD[ix[j]] == Finite(KeptLogOD(logOD)[j])
  {
  }

  /** Filtering an already filtered series again changes nothing: every kept
      entry is finite. */
  lemma KeepFilterIdempotent(logOD: seq<LogValue>)
    ensures var kept := Filter(logOD, FiniteMask(logOD));
            Filter(kept, FiniteMask(kept)) == kept
  {
    var kept := Filter(logOD, FiniteMask(logOD));
    FilterAt(logOD, FiniteMask(logOD));
    assert forall j :: 0 <= j < |kept| ==> FiniteMask(kept)[j];
    FilterAllKept(kept, FiniteMask(kept));
  }

  /** The derivative evaluated at every kept time (`der(elapsed_minutes)`). */
  function Slopes(der: real -> real, ts: seq<real>): (d: seq<real>)
    ensures |d| == |ts|
  {
    seq(|ts|, i requires 0 <= i < |ts| => der(ts[i]))
  }

  /** The fit of one well: the spline sees only the finite points, one
      time and one value per point in their original order, with degree 5
      and the experiment's smoothing factor. */
  function Fit(logOD: seq<LogValue>, times: seq<real>, s: real, fit: SplineFit): (der: Option<real -> real>)
    requires |times| == |logOD|
    ensures |KeptTimes(logOD, times)| == |KeptLogOD(logOD)| == CountTrue(FiniteMask(logOD))
    ensures der == fit(Filter(times, FiniteMask(logOD)), KeptLogOD(logOD), 5, s)
  {
    fit(KeptTimes(logOD, times), KeptLogOD(logOD), SplineDegree, s)
  }

  /** The steepest kept point: its slope, its time and its rank among the
      kept points (lines 31-43, before the index is mapped back). */
  datatype KeptPeak = KeptPeak(slope: real, time: real, rank: nat)

  /** The part of `get_max_growth_rate` that works on the filtered series:
      fit, differentiate at the kept times and take the argmax. */
  function SteepestKept(logOD: seq<LogValue>, times: seq<real>, s: real, fit: SplineFit): (r: Result<KeptPeak>)
    ensures r.Ok? ==> |times| == |logOD| && r.value.rank < CountTrue(FiniteMask(logOD))
  {
    if |times| != |logOD| then Err(MaskLengthMismatch)
    else
    var ts := KeptTimes(logOD, times);
    match Fit(logOD, times, s, fit)
    case None => Err(SplineFitFailed)
    case Some(der) =>
      var slopes := Slopes(der, ts);
      if |slopes| == 0 then Err(EmptyArgmax)
      else
        var k := ArgMax(slopes);
        Ok(KeptPeak(slopes[k], ts[k], k))
  }

  /** `get_max_growth_rate` as written: the slope and time of the steepest
      kept point, and as its index the filtered argmax plus the number of
      dropped points, `maximum_index + np.sum(~to_keep)`. */
  function MaxGrowthRate(logOD: seq<LogValue>, times: seq<real>, s: real, fit: SplineFit): (r: Result<Estimate>)
    ensures r.Ok? ==> |times| == |logOD| && r.value.maxIndex < |logOD|
  {
    match SteepestKept(logOD, times, s, fit)
    case Err(err) => Err(err)
    case Ok(p) => Ok(Estimate(p.slope, p.time, OffsetIndex(FiniteMask(logOD), p.rank)))
  }

  /** `get_max_growth_rate` with the index mapped back to the position of
      the steepest point in the unfiltered series. */
  function MaxGrowthRatePeak(logOD: seq<LogValue>, times: seq<real>, s: real, fit: SplineFit): (r: Result<Estimate>)
    ensures r.Ok? ==> |times| == |logOD| && r.value.maxIndex < |logOD|
  {
    match SteepestKept(logOD, times, s, fit)
    case Err(err) => Err(err)
    case Ok(p) => Ok(Estimate(p.slope, p.time, OriginalIndex(FiniteMask(logOD), p.rank)))
  }

  /** The estimator raises exactly when the time axis and the series differ
      in length, when the fit raises, or when the fit succeeds but no point
      is finite (argmax of nothing). The corrected estimator raises in the
      same cases with the same error. */
  lemma MaxGrowthRateErrors(logOD: seq<LogValue>, times: seq<real>, s: real, fit: SplineFit)
    ensures var r := MaxGrowthRate(logOD, times, s, fit);
            && (r == Err(MaskLengthMismatch) <==> |times| != |logOD|)
            && (|times| == |logOD| ==>
                  && (r == Err(SplineFitFailed) <==> Fit(logOD, times, s, fit).None?)
                  && (r == Err(EmptyArgmax) <==>
                      Fit(logOD, times, s, fit).Some? && forall i :: 0 <= i < |logOD| ==> !logOD[i].Finite?))
            && (r.Err? ==> r.error in {MaskLengthMismatch, SplineFitFailed, EmptyArgmax})
            && (r.Err? || MaxGrowthRatePeak(logOD, times, s, fit).Err? ==> MaxGrowthRatePeak(logOD, times, s, fit) == r)
  {
    var keep := FiniteMask(logOD);
    CountTrueNone(keep);
    assert forall i :: 0 <= i < |logOD| ==> keep[i] == logOD[i].Finite?;
  }

  /** A successful corrected estimate is the first steepest finite point:
      its position holds a finite value, its time is that position's time,
      its slope is the derivative there, no finite point has a larger
      derivative, and every finite point before it has a smaller one. */
  lemma MaxGrowthRatePeakIsPeak(logOD: seq<LogValue>, times: seq<real>, s: real, fit: SplineFit)
    requires MaxGrowthRatePeak(logOD, times, s, fit).Ok?
    ensures var der := Fit(logOD, times, s, fit).value;
            var e := MaxGrowthRatePeak(logOD, times, s, fit).value;
            && e.maxIndex < |logOD|
            && logOD[e.maxIndex].Finite?
            && e.maxTime == times[e.maxIndex]
            && e.maxLogSlope == der(e.maxTime)
            && (forall i :: 0 <= i < |logOD| && logOD[i].Finite? ==> der(times[i]) <= e.maxLogSlope)
            && (forall i :: 0 <= i < e.maxIndex && logOD[i].Finite? ==> der(times[i]) < e.maxLogSlope)
  {
    var der := Fit(logOD, times, s, fit).value;
    var k := ArgMax(Slopes(der, KeptTimes(logOD, times)));
    PeakInOriginalTerms(logOD, times, der, k);
  }

  /** The filtered argmax, read back in the unfiltered series. */
  lemma PeakInOriginalTerms(logOD: seq<LogValue>, times: seq<real>, der: real -> real, k: nat)
    requires |times| == |logOD|
    requires k < |KeptTimes(logOD, times)|
    requires k == ArgMax(Slopes(der, KeptTimes(logOD, times)))
    ensures var keep := FiniteMask(logOD);
            var p := OriginalIndex(keep, k);
            var slopes := Slopes(der, KeptTimes(logOD, times));
            && p < |logOD| && logOD[p].Finite?
            && KeptTimes(logOD, times)[k] == times[p]
            && slopes[k] == der(times[p])
            && (forall i :: 0 <= i < |logOD| && logOD[i].Finite? ==> der(times[i]) <= slopes[k])
            && (forall i :: 0 <= i < p && logOD[i].Finite? ==> der(times[i]) < slopes[k])
  {
    var keep := FiniteMask(logOD);
    var ix := KeptIndices(keep);
    var ts := KeptTimes(logOD, times);
    var slopes := Slopes(der, ts);
    var p := OriginalIndex(keep, k);
    assert p == ix[k];
    assert ts[k] == times[p];
    forall i | 0 <= i < |logOD| && logOD[i].Finite?
      ensures der(times[i]) <= slopes[k]
      ensures i < p ==> der(times[i]) < slopes[k]
    {
      PeakBoundAt(logOD, times, der, k, i);
    }
  }

  /** One kept point against the selected peak. */
  lemma PeakBoundAt(logOD: seq<LogValue>, times: seq<real>, der: real -> real, k: nat, i: nat)
    requires |times| == |logOD|
    requires k < |KeptTimes(logOD, times)|
    requires k == ArgMax(Slopes(der, KeptTimes(logOD, times)))
    requires i < |logOD| && logOD[i].Finite?
    ensures der(times[i]) <= Slopes(der, KeptTimes(logOD, times))[k]
    ensures i < OriginalIndex(FiniteMask(logOD), k) ==>
            der(times[i]) < Slopes(der, KeptTimes(logOD, times))[k]
  {
    var keep := FiniteMask(logOD);
    var ts := KeptTimes(logOD, times);
    var slopes := Slopes(der, ts);
    assert keep[i];
    var j := KeptRank(keep, i);
    assert ts[j] == times[i];
    assert slopes[j] == der(times[i]);
    if i < OriginalIndex(keep, k) {
      assert KeptIndices(keep)[k] == OriginalIndex(keep, k);
      KeptIndicesIncreasing(keep);
      assert j < k;
    }
  }

  /** The rank, in the filtered series, of a kept position. */
  lemma KeptRank(keep: seq<bool>, i: nat) returns (j: nat)
    requires i < |keep| && keep[i]
    ensures j < |KeptIndices(keep)| && KeptIndices(keep)[j] == i
  {
    var ix := KeptIndices(keep);
    KeptIndicesComplete(keep);
    j :| 0 <= j < |ix| && ix[j] == i;
  }

  /** The estimate as written reports the peak's slope and time, but its
      index is the peak's rank among the kept points plus the number of
      dropped points. That index lies at or after the peak, and the two
      estimates are equal exactly when no point after the peak was
      dropped. */
  lemma SourceIndexCorrectIff(logOD: seq<LogValue>, times: seq<real>, s: real, fit: SplineFit)
    requires MaxGrowthRate(logOD, times, s, fit).Ok?
    ensures MaxGrowthRatePeak(logOD, times, s, fit).Ok?
    ensures var e := MaxGrowthRate(logOD, times, s, fit).value;
            var p := MaxGrowthRatePeak(logOD, times, s, fit).value;
            var keep := FiniteMask(logOD);
            && e.maxLogSlope == p.maxLogSlope && e.maxTime == p.maxTime
            && e.maxIndex == CountTrue(keep[..p.maxIndex]) + CountTrue(Negate(keep))
            && p.maxIndex <= e.maxIndex < |logOD|
            && (e == p <==> forall i :: p.maxIndex < i < |logOD| ==> logOD[i].Finite?)
  {
    var keep := FiniteMask(logOD);
    var k := SteepestKept(logOD, times, s, fit).value.rank;
    var p := MaxGrowthRatePeak(logOD, times, s, fit).value;
    assert p.maxIndex == OriginalIndex(keep, k);
    assert CountTrue(keep[..p.maxIndex]) == k;
    CountDropped(keep);
    OffsetIndexCorrectIff(keep, k);
    assert forall i :: 0 <= i < |logOD| ==> keep[i] == logOD[i].Finite?;
  }

  /** When every dropped point precedes the peak, the estimate as written is
      the corrected one, so it too names the first steepest finite point. */
  lemma SourceIndexSelectsPeak(logOD: seq<LogValue>, times: seq<real>, s: real, fit: SplineFit)
    requires MaxGrowthRatePeak(logOD, times, s, fit).Ok?
    requires forall i :: MaxGrowthRatePeak(logOD, times, s, fit).value.maxIndex < i < |logOD| ==> logOD[i].Finite?
    ensures MaxGrowthRate(logOD, times, s, fit) == MaxGrowthRatePeak(logOD, times, s, fit)
    ensures var der := Fit(logOD, times, s, fit).value;
            var e := MaxGrowthRate(logOD, times, s, fit).value;
            && logOD[e.maxIndex].Finite?
            && e.maxTime == times[e.maxIndex]
            && e.maxLogSlope == der(e.maxTime)
            && (forall i :: 0 <= i < |logOD| && logOD[i].Finite? ==> der(times[i]) <= e.maxLogSlope)
            && (forall i :: 0 <= i < e.maxIndex && logOD[i].Finite? ==> der(times[i]) < e.maxLogSlope)
  {
    MaxGrowthRateErrors(logOD, times, s, fit);
    SourceIndexCorrectIff(logOD, times, s, fit);
    MaxGrowthRatePeakIsPeak(logOD, times, s, fit);
  }

  /** A fit whose derivative is the identity: what a smoothing spline
      returns for log-OD values that are exactly `t*t/2`. */
  function RampFit(ts: seq<real>, ys: seq<real>, k: nat, s: real): Option<real -> real>
  {
    Some(x => x)
  }

  /** Six finite readings of `t*t/2` at times 0 to 5, then a non-finite one:
      the peak is the sixth point (position 5), but the index as written is
      6, the non-finite reading. */
  lemma SourceIndexMissesLateDrop()
    ensures var logOD := LateDropSeries();
            && MaxGrowthRatePeak(logOD, LateDropTimes(), 0.2, RampFit) == Ok(Estimate(5.0, 5.0, 5))
            && MaxGrowthRate(logOD, LateDropTimes(), 0.2, RampFit) == Ok(Estimate(5.0, 5.0, 6))
            && logOD[6] == NonFinite
  {
  }

  /** `t*t/2` at times 0 to 5, then a reading whose log is not finite. */
  function LateDropSeries(): seq<LogValue>
  {
    [Finite(0.0), Finite(0.5), Finite(2.0), Finite(4.5), Finite(8.0), Finite(12.5), NonFinite]
  }

  /** Sample times 0 to 6. */
  function LateDropTimes(): seq<real>
  {
    [0.0, 1.0, 2.0, 3.0, 4.0, 5.0, 6.0]
  }
}
