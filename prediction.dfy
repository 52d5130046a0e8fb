/** The straight line drawn over the log-OD plot of one well: slope the
    maximum log slope, anchored at the log-OD value the estimate's index
    names. */
module Prediction {
  import opened Common
  import opened Mask
  import opened Peak
  import opened Estimator

  /** `times * slope - slope * maxTime + anchor` at every sample time. A
      non-finite anchor propagates to every point, as it does in floating
      point. */
  function PredictionLine(slope: real, maxTime: real, anchor: LogValue, times: seq<real>): (line: seq<LogValue>)
    ensures |line| == |times|
    ensures anchor.NonFinite? ==> forall i :: 0 <= i < |line| ==> line[i].NonFinite?
    ensures anchor.Finite? ==>
              forall i :: 0 <= i < |line| ==> line[i] == Finite(slope * (times[i] - maxTime) + anchor.value)
    ensures forall i :: 0 <= i < |line| && times[i] == maxTime ==> line[i] == anchor
    ensures anchor.Finite? ==>
              forall i, j :: 0 <= i < |line| && 0 <= j < |line| ==>
                line[i].value - line[j].value == slope * (times[i] - times[j])
  {
    seq(|times|, i requires 0 <= i < |times| =>
      match anchor
      case NonFinite => NonFinite
      case Finite(a) => Finite(LineValue(slope, maxTime, a, times[i])))
  }

  /** One point of the line, in the source's form; it is the point-slope
      form through (maxTime, a). */
  function LineValue(slope: real, maxTime: real, a: real, t: real): (v: real)
    ensures v == slope * (t - maxTime) + a
  {
    assert slope * (t - maxTime) == slope * t - slope * maxTime;
    t * slope - slope * maxTime + a
  }

  /** `plot_growth_prediction` without the drawing, as written: estimate,
      then build the line through the unfiltered log-OD value at the
      estimate's index, over the caller's sample times. */
  function GrowthPrediction(logOD: seq<LogValue>, times: seq<real>, s: real, fit: SplineFit,
                            samples: seq<real>): (r: Result<seq<LogValue>>)
    ensures MaxGrowthRate(logOD, times, s, fit).Err? ==>
              r == Err(MaxGrowthRate(logOD, times, s, fit).error)
    ensures MaxGrowthRate(logOD, times, s, fit).Ok? ==>
              var e := MaxGrowthRate(logOD, times, s, fit).value;
              && r.Ok?
              && |r.value| == |samples|
              && (logOD[e.maxIndex].NonFinite? ==> forall i :: 0 <= i < |samples| ==> r.value[i].NonFinite?)
              && r.value == PredictionLine(e.maxLogSlope, e.maxTime, logOD[e.maxIndex], samples)
  {
    var m := MaxGrowthRate(logOD, times, s, fit);
    if m.Err? then Err(m.error)
    else
      var e := m.value;
      Ok(PredictionLine(e.maxLogSlope, e.maxTime, logOD[e.maxIndex], samples))
  }

  /** The same line anchored at the corrected estimate: every point is
      finite, and the line passes through the measured log-OD at the peak. */
  function GrowthPredictionPeak(logOD: seq<LogValue>, times: seq<real>, s: real, fit: SplineFit,
                                samples: seq<real>): (r: Result<seq<LogValue>>)
    ensures MaxGrowthRatePeak(logOD, times, s, fit).Err? ==>
              r == Err(MaxGrowthRatePeak(logOD, times, s, fit).error)
    ensures MaxGrowthRatePeak(logOD, times, s, fit).Ok? ==>
              var e := MaxGrowthRatePeak(logOD, times, s, fit).value;
              && r.Ok?
              && |r.value| == |samples|
              && (forall i :: 0 <= i < |samples| ==> r.value[i].Finite?)
              && (forall i :: 0 <= i < |samples| && samples[i] == times[e.maxIndex] ==>
                    r.value[i] == logOD[e.maxIndex])
              && r.value == PredictionLine(e.maxLogSlope, e.maxTime, logOD[e.maxIndex], samples)
  {
    var m := MaxGrowthRatePeak(logOD, times, s, fit);
    if m.Err? then Err(m.error)
    else
      var e := m.value;
      MaxGrowthRatePeakIsPeak(logOD, times, s, fit);
      Ok(PredictionLine(e.maxLogSlope, e.maxTime, logOD[e.maxIndex], samples))
  }

  /** When no point after the peak was dropped, the line the source draws is
      the line through the peak. */
  lemma SourceLineAgrees(logOD: seq<LogValue>, times: seq<real>, s: real, fit: SplineFit, samples: seq<real>)
    requires MaxGrowthRatePeak(logOD, times, s, fit).Ok?
    requires forall i :: MaxGrowthRatePeak(logOD, times, s, fit).value.maxIndex < i < |logOD| ==> logOD[i].Finite?
    ensures GrowthPrediction(logOD, times, s, fit, samples) == GrowthPredictionPeak(logOD, times, s, fit, samples)
    ensures forall i :: 0 <= i < |samples| ==> GrowthPrediction(logOD, times, s, fit, samples).value[i].Finite?
  {
    SourceIndexSelectsPeak(logOD, times, s, fit);
  }

  /** On the late-drop series the source anchors its line at the
      non-finite last reading, so the drawn line is non-finite, while the
      line through the peak passes through the reading at time 5. */
  lemma SourceLineNonFiniteOnLateDrop()
    ensures GrowthPrediction(LateDropSeries(), LateDropTimes(), 0.2, RampFit, [5.0]) == Ok([NonFinite])
    ensures GrowthPredictionPeak(LateDropSeries(), LateDropTimes(), 0.2, RampFit, [5.0]) == Ok([Finite(12.5)])
  {
    SourceIndexMissesLateDrop();
    var line := PredictionLine(5.0, 5.0, Finite(12.5), [5.0]);
    assert line[0] == Finite(12.5);
    assert line == [Finite(12.5)];
    var source := PredictionLine(5.0, 5.0, NonFinite, [5.0]);
    assert source[0] == NonFinite;
    assert source == [NonFinite];
  }
}
