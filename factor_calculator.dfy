/** Demand-factor calculator (python/factor_calculator.py): annotates every
    historical record with its unconstrained demand, averages three day-type
    segments and returns the holiday and weekend factors relative to the
    baseline mean. */
module FactorCalculator {
  import opened Wrappers
  import opened Numeric
  import opened Calendar
  import Unconstraining

  /** A detailed historical record. Only `trueDemand` is ever written; the
      other fields are fixed, so they are constants. `None` stands for the
      key not being present yet. */
  class HistoricalRecord {
    const trainId: int
    const totalSold: int
    const daysEarly: int
    const isHoliday: bool
    const dayOfWeek: string
    const quota: string
    var trueDemand: Option<int>

    constructor (trainId: int, totalSold: int, daysEarly: int, isHoliday: bool, dayOfWeek: string, quota: string)
      ensures this.trainId == trainId && this.totalSold == totalSold && this.daysEarly == daysEarly
      ensures this.isHoliday == isHoliday && this.dayOfWeek == dayOfWeek && this.quota == quota
      ensures trueDemand == None
    {
      this.trainId := trainId;
      this.totalSold := totalSold;
      this.daysEarly := daysEarly;
      this.isHoliday := isHoliday;
      this.dayOfWeek := dayOfWeek;
      this.quota := quota;
      trueDemand := None;
    }
  }

  /** The three day-type segments. */
  datatype Segment = Baseline | Holiday | Weekend

  predicate InSegment(s: Segment, rec: HistoricalRecord)
  {
    match s
    case Baseline => !rec.isHoliday && !IsFriOrSun(rec.dayOfWeek)
    case Holiday => rec.isHoliday
    case Weekend => IsFriOrSun(rec.dayOfWeek) && !rec.isHoliday
  }

  /** The values of `demands` at the records belonging to segment `s`, in order
      (the list comprehensions of steps 4 to 6). */
  function SegmentDemand(hist: seq<HistoricalRecord>, demands: seq<int>, s: Segment): (r: seq<int>)
    requires |demands| == |hist|
    ensures |r| <= |hist|
    ensures (forall i :: 0 <= i < |hist| ==> !InSegment(s, hist[i])) ==> r == []
  {
    if hist == [] then []
    else
      (if InSegment(s, hist[0]) then [demands[0]] else []) + SegmentDemand(hist[1..], demands[1..], s)
  }

  /** The returned dict: exactly the keys base_mu, factor_holiday and
      factor_weekend. A factor is `None` where numpy would divide by a zero
      base mean (an inf or nan ratio). */
  datatype DemandFactors = DemandFactors(baseMu: real, factorHoliday: Option<real>, factorWeekend: Option<real>)

  /** `num / den` as a finite real, or `None` for a zero denominator. */
  function Ratio(num: real, den: real): Option<real>
  {
    if den == 0.0 then None else Some(num / den)
  }

  /** Mean of a list with a fallback for an empty list. */
  function MeanOr(xs: seq<int>, fallback: real): real
  {
    if |xs| > 0 then Mean(xs) else fallback
  }

  /** Steps 3 to 7: overall mean, baseline, holiday and weekend means with
      their fallbacks, and the two ratios. */
  function Factors(hist: seq<HistoricalRecord>, demands: seq<int>): (r: DemandFactors)
    requires |demands| == |hist|
    ensures r.factorHoliday.None? <==> r.baseMu == 0.0
    ensures r.factorWeekend.None? <==> r.baseMu == 0.0
  {
    var overallMu := MeanOr(demands, 1.0);
    var baseMu := MeanOr(SegmentDemand(hist, demands, Baseline), overallMu);
    var avgHolidayMu := MeanOr(SegmentDemand(hist, demands, Holiday), baseMu);
    var avgWeekendMu := MeanOr(SegmentDemand(hist, demands, Weekend), baseMu);
    DemandFactors(baseMu, Ratio(avgHolidayMu, baseMu), Ratio(avgWeekendMu, baseMu))
  }

  /** The records re-keyed in the order `unconstrain_demand` expects:
      `days_early` becomes `days_before_departure`. */
  function SimpleSalesData(hist: seq<HistoricalRecord>): seq<Unconstraining.SalesRecord>
  {
    seq(|hist|, i requires 0 <= i < |hist| => Unconstraining.SalesRecord(hist[i].trainId, hist[i].daysEarly, hist[i].totalSold))
  }

  /** The unconstrained demand of one detailed record. */
  function TrueDemandOf(rec: HistoricalRecord, capacity: int): int
  {
    Unconstraining.Estimate(Unconstraining.SalesRecord(rec.trainId, rec.daysEarly, rec.totalSold), capacity)
  }

  /** `get_unconstrained_demand`: one estimate per record, computed from the
      record's `days_early` and `total_sold`. */
  method GetUnconstrainedDemand(historicalData: seq<HistoricalRecord>, capacity: int) returns (r: seq<int>)
    ensures |r| == |historicalData|
    ensures forall i :: 0 <= i < |historicalData| ==> r[i] == TrueDemandOf(historicalData[i], capacity)
    ensures r == Unconstraining.Estimates(SimpleSalesData(historicalData), capacity)
  {
    var simpleSalesData := SimpleSalesData(historicalData);
    r := Unconstraining.UnconstrainDemand(simpleSalesData, capacity);
  }

  /** The `true_demand` values read back from the annotated records. */
  function TrueDemands(hist: seq<HistoricalRecord>): seq<int>
    reads set rec | rec in hist
    requires forall i :: 0 <= i < |hist| ==> hist[i].trueDemand.Some?
  {
    seq(|hist|, i reads hist requires 0 <= i < |hist| && hist[i].trueDemand.Some? => hist[i].trueDemand.value)
  }

  /** The demand list the factors are computed from. */
  function UnconstrainedDemands(hist: seq<HistoricalRecord>, capacity: int): (d: seq<int>)
    ensures |d| == |hist|
    ensures forall i :: 0 <= i < |hist| ==> d[i] == TrueDemandOf(hist[i], capacity)
  {
    Unconstraining.Estimates(SimpleSalesData(hist), capacity)
  }

  /** `calculate_demand_factors`: writes `true_demand` into every record (and
      nothing else), then returns the factors of those demands. */
  method CalculateDemandFactors(historicalData: seq<HistoricalRecord>, capacity: int) returns (factors: DemandFactors)
    modifies set rec | rec in historicalData
    ensures forall i :: 0 <= i < |historicalData| ==>
              historicalData[i].trueDemand == Some(TrueDemandOf(historicalData[i], capacity))
    ensures factors == Factors(historicalData, UnconstrainedDemands(historicalData, capacity))
  {
    var trueDemandList := GetUnconstrainedDemand(historicalData, capacity);
    AnnotateTrueDemand(historicalData, capacity, trueDemandList);
    var demands := TrueDemands(historicalData);
    assert demands == trueDemandList;
    factors := Factors(historicalData, demands);
  }

  /** Step 2: `record['true_demand'] = true_demand_list[i]` for every record.
      A record listed twice gets the same value both times, since its
      estimate depends on its own fields only. */
  method AnnotateTrueDemand(historicalData: seq<HistoricalRecord>, capacity: int, trueDemandList: seq<int>)
    requires |trueDemandList| == |historicalData|
    requires forall i :: 0 <= i < |historicalData| ==> trueDemandList[i] == TrueDemandOf(historicalData[i], capacity)
    modifies set rec | rec in historicalData
    ensures forall i :: 0 <= i < |historicalData| ==>
              historicalData[i].trueDemand == Some(TrueDemandOf(historicalData[i], capacity))
  {
    for i := 0 to |historicalData|
      invariant forall k :: 0 <= k < i ==> historicalData[k].trueDemand == Some(TrueDemandOf(historicalData[k], capacity))
    {
      historicalData[i].trueDemand := Some(trueDemandList[i]);
    }
  }

  // ----- Properties of the factors -----

  /** No history at all: every value falls back to 1.0. */
  lemma EmptyHistoryFactors(hist: seq<HistoricalRecord>, demands: seq<int>)
    requires |hist| == 0 && |demands| == 0
    ensures Factors(hist, demands) == DemandFactors(1.0, Some(1.0), Some(1.0))
  {
  }

  /** An empty holiday segment makes the holiday factor exactly 1. */
  lemma NoHolidayFactorIsOne(hist: seq<HistoricalRecord>, demands: seq<int>)
    requires |demands| == |hist|
    requires forall i :: 0 <= i < |hist| ==> !hist[i].isHoliday
    requires Factors(hist, demands).baseMu != 0.0
    ensures Factors(hist, demands).factorHoliday == Some(1.0)
  {
    var b := Factors(hist, demands).baseMu;
    assert SegmentDemand(hist, demands, Holiday) == [];
    assert b / b == 1.0;
  }

  /** An empty weekend segment makes the weekend factor exactly 1. */
  lemma NoWeekendFactorIsOne(hist: seq<HistoricalRecord>, demands: seq<int>)
    requires |demands| == |hist|
    requires forall i :: 0 <= i < |hist| ==> !InSegment(Weekend, hist[i])
    requires Factors(hist, demands).baseMu != 0.0
    ensures Factors(hist, demands).factorWeekend == Some(1.0)
  {
    var b := Factors(hist, demands).baseMu;
    assert SegmentDemand(hist, demands, Weekend) == [];
    assert b / b == 1.0;
  }

  /** No baseline day: the base mean is the mean over all records (or 1.0
      when there are none). */
  lemma NoBaselineUsesOverallMean(hist: seq<HistoricalRecord>, demands: seq<int>)
    requires |demands| == |hist|
    requires forall i :: 0 <= i < |hist| ==> !InSegment(Baseline, hist[i])
    ensures Factors(hist, demands).baseMu == MeanOr(demands, 1.0)
  {
  }

  /** With a non-empty segment and a non-zero base, a factor is that
      segment's mean over the base mean. */
  lemma FactorIsSegmentMeanOverBase(hist: seq<HistoricalRecord>, demands: seq<int>)
    requires |demands| == |hist|
    requires Factors(hist, demands).baseMu != 0.0
    ensures var f := Factors(hist, demands);
            var h := SegmentDemand(hist, demands, Holiday);
            var w := SegmentDemand(hist, demands, Weekend);
            (|h| > 0 ==> f.factorHoliday == Some(Mean(h) / f.baseMu)) &&
            (|w| > 0 ==> f.factorWeekend == Some(Mean(w) / f.baseMu))
  {
  }

  /** The three segments partition the records: each record falls in
      exactly one, so holiday and weekend never double-count. */
  lemma SegmentsExclusive(rec: HistoricalRecord)
    ensures InSegment(Baseline, rec) || InSegment(Holiday, rec) || InSegment(Weekend, rec)
    ensures !(InSegment(Baseline, rec) && InSegment(Holiday, rec))
    ensures !(InSegment(Baseline, rec) && InSegment(Weekend, rec))
    ensures !(InSegment(Holiday, rec) && InSegment(Weekend, rec))
  {
  }

  /** Hence the three segment lists together hold every demand exactly once. */
  lemma {:induction false} SegmentsPartitionDemands(hist: seq<HistoricalRecord>, demands: seq<int>)
    requires |demands| == |hist|
    ensures multiset(SegmentDemand(hist, demands, Baseline)) + multiset(SegmentDemand(hist, demands, Holiday))
            + multiset(SegmentDemand(hist, demands, Weekend)) == multiset(demands)
  {
    if hist != [] {
      SegmentsPartitionDemands(hist[1..], demands[1..]);
      SegmentsExclusive(hist[0]);
      AddToOneSegment(demands,
        SegmentDemand(hist, demands, Baseline), SegmentDemand(hist, demands, Holiday), SegmentDemand(hist, demands, Weekend),
        SegmentDemand(hist[1..], demands[1..], Baseline), SegmentDemand(hist[1..], demands[1..], Holiday),
        SegmentDemand(hist[1..], demands[1..], Weekend));
    }
  }

  /** If the tail's values are split among three lists and the head's value
      is added to exactly one of them, the head and tail are split among the
      three extended lists. */
  lemma AddToOneSegment(demands: seq<int>, b': seq<int>, h': seq<int>, w': seq<int>, b: seq<int>, h: seq<int>, w: seq<int>)
    requires |demands| > 0 && multiset(b) + multiset(h) + multiset(w) == multiset(demands[1..])
    requires || (b' == [demands[0]] + b && h' == h && w' == w)
             || (b' == b && h' == [demands[0]] + h && w' == w)
             || (b' == b && h' == h && w' == [demands[0]] + w)
    ensures multiset(b') + multiset(h') + multiset(w') == multiset(demands)
  {
    assert demands == [demands[0]] + demands[1..];
  }

  /** With positive demands every factor is a positive finite number. */
  lemma FactorsPositive(hist: seq<HistoricalRecord>, demands: seq<int>)
    requires |demands| == |hist|
    requires forall i :: 0 <= i < |demands| ==> demands[i] > 0
    ensures Factors(hist, demands).baseMu > 0.0
    ensures Factors(hist, demands).factorHoliday.Some? && Factors(hist, demands).factorHoliday.value > 0.0
    ensures Factors(hist, demands).factorWeekend.Some? && Factors(hist, demands).factorWeekend.value > 0.0
  {
    MeanOrPositive(demands, 1.0);
    var overallMu := MeanOr(demands, 1.0);
    var b := SegmentDemand(hist, demands, Baseline);
    SegmentPositive(hist, demands, Baseline);
    MeanOrPositive(b, overallMu);
    var baseMu := MeanOr(b, overallMu);
    SegmentPositive(hist, demands, Holiday);
    MeanOrPositive(SegmentDemand(hist, demands, Holiday), baseMu);
    SegmentPositive(hist, demands, Weekend);
    MeanOrPositive(SegmentDemand(hist, demands, Weekend), baseMu);
  }

  lemma MeanOrPositive(xs: seq<int>, fallback: real)
    requires forall i :: 0 <= i < |xs| ==> xs[i] > 0
    requires fallback > 0.0
    ensures MeanOr(xs, fallback) > 0.0
  {
    if |xs| > 0 {
      SumPositive(xs);
    }
  }

  lemma {:induction false} SegmentPositive(hist: seq<HistoricalRecord>, demands: seq<int>, s: Segment)
    requires |demands| == |hist|
    requires forall i :: 0 <= i < |demands| ==> demands[i] > 0
    ensures forall i :: 0 <= i < |SegmentDemand(hist, demands, s)| ==> SegmentDemand(hist, demands, s)[i] > 0
  {
    if hist != [] {
      SegmentPositive(hist[1..], demands[1..], s);
    }
  }
}
