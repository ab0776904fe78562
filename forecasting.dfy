/** Demand forecaster (python/forecasting.py): the mean of the unconstrained
    estimates split 70/30 into leisure and urgent demand, scaled by fixed
    holiday and Fri/Sun multipliers, then truncated to integers. */
module Forecasting {
  import opened Wrappers
  import opened Numeric
  import opened Calendar

  datatype Distribution = Distribution(mu: int, sigma: int)

  /** The forecast dict: exactly the keys leisure and urgent. */
  datatype Forecast = Forecast(leisure: Distribution, urgent: Distribution)

  /** Leisure mu after the causal rules: times 0.8 on a holiday, then times
      1.1 on Fri/Sun. */
  function ScaleLeisure(mu: real, isHoliday: bool, dayOfWeek: string): real
  {
    var afterHoliday := if isHoliday then mu * 0.8 else mu;
    if IsFriOrSun(dayOfWeek) then afterHoliday * 1.1 else afterHoliday
  }

  /** Urgent mu after the causal rules: times 1.5 on a holiday, then times
      1.2 on Fri/Sun. */
  function ScaleUrgent(mu: real, isHoliday: bool, dayOfWeek: string): real
  {
    var afterHoliday := if isHoliday then mu * 1.5 else mu;
    if IsFriOrSun(dayOfWeek) then afterHoliday * 1.2 else afterHoliday
  }

  /** The forecast built from a base mean: the 70/30 split, the causal rules
      on mu only, and sigma from the unscaled mean, all truncated. */
  function ForecastFromMean(baseMu: real, isHoliday: bool, dayOfWeek: string): Forecast
  {
    Forecast(
      Distribution(Trunc(ScaleLeisure(baseMu * 0.7, isHoliday, dayOfWeek)), Trunc(baseMu * 0.15)),
      Distribution(Trunc(ScaleUrgent(baseMu * 0.3, isHoliday, dayOfWeek)), Trunc(baseMu * 0.05)))
  }

  /** The forecast as a value. `None` for an empty estimate list: numpy's mean
      is nan there and `int(nan)` raises. */
  function ForecastOf(estimates: seq<int>, isHoliday: bool, dayOfWeek: string): Option<Forecast>
  {
    if |estimates| == 0 then None else Some(ForecastFromMean(Mean(estimates), isHoliday, dayOfWeek))
  }

  /** `forecast_demand`: builds the dict from the mean, scales mu in place
      with `*=`, then truncates every entry. `isHoliday` is the truthiness of
      `external_factors.get('is_holiday')`. */
  method ForecastDemand(unconstrainedEstimates: seq<int>, isHoliday: bool, dayOfWeek: string) returns (forecast: Option<Forecast>)
    ensures forecast.None? <==> |unconstrainedEstimates| == 0
    ensures forecast == ForecastOf(unconstrainedEstimates, isHoliday, dayOfWeek)
  {
    if |unconstrainedEstimates| == 0 {
      return None;
    }
    var baseMu := Mean(unconstrainedEstimates);
    var leisureMu, leisureSigma := baseMu * 0.7, baseMu * 0.15;
    var urgentMu, urgentSigma := baseMu * 0.3, baseMu * 0.05;
    if isHoliday {
      urgentMu := urgentMu * 1.5;
      leisureMu := leisureMu * 0.8;
    }
    if IsFriOrSun(dayOfWeek) {
      urgentMu := urgentMu * 1.2;
      leisureMu := leisureMu * 1.1;
    }
    forecast := Some(Forecast(Distribution(Trunc(leisureMu), Trunc(leisureSigma)),
                              Distribution(Trunc(urgentMu), Trunc(urgentSigma))));
  }

  // ----- Properties of the forecast -----

  /** The causal rules are multiplicative and compose: mu is scaled by the
      product of the holiday and Fri/Sun multipliers that apply. */
  lemma ScalesCompose(mu: real, isHoliday: bool, dayOfWeek: string)
    ensures ScaleLeisure(mu, isHoliday, dayOfWeek) ==
            mu * (if isHoliday then 0.8 else 1.0) * (if IsFriOrSun(dayOfWeek) then 1.1 else 1.0)
    ensures ScaleUrgent(mu, isHoliday, dayOfWeek) ==
            mu * (if isHoliday then 1.5 else 1.0) * (if IsFriOrSun(dayOfWeek) then 1.2 else 1.0)
  {
  }

  /** An ordinary day: a plain 70/30 split of the mean, truncated. */
  lemma OrdinaryDaySplit(estimates: seq<int>, dayOfWeek: string)
    requires |estimates| > 0 && !IsFriOrSun(dayOfWeek)
    ensures var f := ForecastOf(estimates, false, dayOfWeek).value;
            f.leisure.mu == Trunc(0.7 * Mean(estimates)) && f.urgent.mu == Trunc(0.3 * Mean(estimates))
  {
  }

  /** A holiday Friday: leisure mu is scaled by 0.8 * 1.1 and urgent mu by
      1.5 * 1.2, both before truncation. */
  lemma HolidayFridayScales(estimates: seq<int>)
    requires |estimates| > 0
    ensures var f := ForecastOf(estimates, true, "Fri").value;
            f.leisure.mu == Trunc(Mean(estimates) * 0.7 * 0.88) &&
            f.urgent.mu == Trunc(Mean(estimates) * 0.3 * 1.8)
  {
    assert IsFriOrSun("Fri");
  }

  /** Sigma is 15% (leisure) and 5% (urgent) of the unscaled mean, whatever
      the external factors say. */
  lemma SigmaIgnoresFactors(estimates: seq<int>, h1: bool, d1: string, h2: bool, d2: string)
    requires |estimates| > 0
    ensures var f1, f2 := ForecastOf(estimates, h1, d1).value, ForecastOf(estimates, h2, d2).value;
            f1.leisure.sigma == f2.leisure.sigma == Trunc(Mean(estimates) * 0.15) &&
            f1.urgent.sigma == f2.urgent.sigma == Trunc(Mean(estimates) * 0.05)
  {
  }

  /** Non-negative estimates give a forecast of non-negative integers. */
  lemma ForecastNonNegative(estimates: seq<int>, isHoliday: bool, dayOfWeek: string)
    requires |estimates| > 0
    requires forall i :: 0 <= i < |estimates| ==> estimates[i] >= 0
    ensures var f := ForecastOf(estimates, isHoliday, dayOfWeek).value;
            f.leisure.mu >= 0 && f.leisure.sigma >= 0 && f.urgent.mu >= 0 && f.urgent.sigma >= 0
  {
    MeanNonNegative(estimates);
  }

  /** A holiday raises urgent and lowers leisure demand (non-negative data). */
  lemma HolidayShiftsTowardUrgent(estimates: seq<int>, dayOfWeek: string)
    requires |estimates| > 0
    requires forall i :: 0 <= i < |estimates| ==> estimates[i] >= 0
    ensures var h, n := ForecastOf(estimates, true, dayOfWeek).value, ForecastOf(estimates, false, dayOfWeek).value;
            h.urgent.mu >= n.urgent.mu && h.leisure.mu <= n.leisure.mu
  {
    MeanNonNegative(estimates);
    var m := Mean(estimates);
    TruncMonotone(ScaleUrgent(m * 0.3, false, dayOfWeek), ScaleUrgent(m * 0.3, true, dayOfWeek));
    TruncMonotone(ScaleLeisure(m * 0.7, true, dayOfWeek), ScaleLeisure(m * 0.7, false, dayOfWeek));
  }

  /** A Friday or Sunday never lowers either class below any other day
      (non-negative data). */
  lemma WeekendRaisesBoth(estimates: seq<int>, isHoliday: bool, weekend: string, weekday: string)
    requires |estimates| > 0
    requires forall i :: 0 <= i < |estimates| ==> estimates[i] >= 0
    requires IsFriOrSun(weekend) && !IsFriOrSun(weekday)
    ensures var w, n := ForecastOf(estimates, isHoliday, weekend).value, ForecastOf(estimates, isHoliday, weekday).value;
            w.urgent.mu >= n.urgent.mu && w.leisure.mu >= n.leisure.mu
  {
    MeanNonNegative(estimates);
    var m := Mean(estimates);
    TruncMonotone(ScaleUrgent(m * 0.3, isHoliday, weekday), ScaleUrgent(m * 0.3, isHoliday, weekend));
    TruncMonotone(ScaleLeisure(m * 0.7, isHoliday, weekday), ScaleLeisure(m * 0.7, isHoliday, weekend));
  }
}
