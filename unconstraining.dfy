/** Demand unconstraining (python/unconstraining.py): a sold-out run's sales
    are inflated linearly, ten percent per day it sold out early, and
    truncated to an integer; a run that did not sell out keeps its sales. */
module Unconstraining {
  import opened Numeric

  /** One historical run as `unconstrain_demand` reads it. */
  datatype SalesRecord = SalesRecord(trainId: int, daysBeforeDeparture: int, totalSold: int)

  /** The run sold out (its sales were censored by capacity). */
  predicate Censored(r: SalesRecord, capacity: int)
  {
    r.totalSold >= capacity
  }

  /** `1.0 + days_early * 0.10`: linear, not compounding. */
  function EarlyBookingFactor(daysEarly: int): real
  {
    1.0 + daysEarly as real * 0.10
  }

  /** `int(sold * early_booking_factor)`: the inflated sales, truncated. */
  function Inflated(sold: int, daysEarly: int): int
  {
    Trunc(sold as real * EarlyBookingFactor(daysEarly))
  }

  /** The estimate the loop appends for one record. */
  function Estimate(r: SalesRecord, capacity: int): int
  {
    if !Censored(r, capacity) then r.totalSold
    else Inflated(r.totalSold, r.daysBeforeDeparture)
  }

  /** The estimates, one per record and in record order. */
  function Estimates(records: seq<SalesRecord>, capacity: int): (r: seq<int>)
    ensures |r| == |records|
    ensures forall i :: 0 <= i < |records| ==> r[i] == Estimate(records[i], capacity)
  {
    if records == [] then [] else [Estimate(records[0], capacity)] + Estimates(records[1..], capacity)
  }

  /** `unconstrain_demand`: builds the list by appending inside a loop. */
  method UnconstrainDemand(historicalSales: seq<SalesRecord>, capacity: int) returns (estimates: seq<int>)
    ensures |estimates| == |historicalSales|
    ensures forall i :: 0 <= i < |historicalSales| ==> estimates[i] == Estimate(historicalSales[i], capacity)
    ensures estimates == Estimates(historicalSales, capacity)
  {
    estimates := [];
    for i := 0 to |historicalSales|
      invariant |estimates| == i
      invariant forall k :: 0 <= k < i ==> estimates[k] == Estimate(historicalSales[k], capacity)
    {
      var sold := historicalSales[i].totalSold;
      var daysEarly := historicalSales[i].daysBeforeDeparture;
      if sold < capacity {
        estimates := estimates + [sold];
      } else {
        var earlyBookingFactor := 1.0 + daysEarly as real * 0.10;
        var estimatedDemand := Trunc(sold as real * earlyBookingFactor);
        estimates := estimates + [estimatedDemand];
      }
    }
  }

  /** A run that did not sell out: the estimate is what was sold. */
  lemma UncensoredKeepsSales(r: SalesRecord, capacity: int)
    requires r.totalSold < capacity
    ensures Estimate(r, capacity) == r.totalSold
  {
  }

  /** A sold-out run: the estimate is sold * (1 + days/10), truncated. */
  lemma CensoredEstimate(r: SalesRecord, capacity: int)
    requires r.totalSold >= capacity
    ensures Estimate(r, capacity) == Trunc(r.totalSold as real * (1.0 + r.daysBeforeDeparture as real / 10.0))
  {
    assert EarlyBookingFactor(r.daysBeforeDeparture) == 1.0 + r.daysBeforeDeparture as real / 10.0;
  }

  /** For non-negative sales and days the sold-out estimate is the integer
      quotient sold*(10+days) div 10. */
  lemma CensoredEstimateInIntegers(r: SalesRecord, capacity: int)
    requires r.totalSold >= capacity
    requires 0 <= r.totalSold && 0 <= r.daysBeforeDeparture
    ensures Estimate(r, capacity) == r.totalSold * (10 + r.daysBeforeDeparture) / 10
  {
    InflationAsQuotient(r.totalSold, r.daysBeforeDeparture);
  }

  lemma InflationAsQuotient(sold: int, daysEarly: int)
    requires 0 <= sold && 0 <= daysEarly
    ensures Inflated(sold, daysEarly) == sold * (10 + daysEarly) / 10
  {
    var n := sold * (10 + daysEarly);
    assert n as real == sold as real * (10 + daysEarly) as real;
    assert sold as real * EarlyBookingFactor(daysEarly) == n as real / 10.0;
    TruncOfQuotient(n, 10);
  }

  /** Selling out on the departure day itself adds no spill. */
  lemma SoldOutOnDepartureDay(r: SalesRecord, capacity: int)
    requires r.totalSold >= capacity && r.daysBeforeDeparture == 0
    ensures Estimate(r, capacity) == r.totalSold
  {
    TruncOfInt(r.totalSold);
  }

  /** Unconstraining never lowers demand below the sales it saw. */
  lemma EstimateAtLeastSold(r: SalesRecord, capacity: int)
    requires r.totalSold >= 0 && r.daysBeforeDeparture >= 0
    ensures Estimate(r, capacity) >= r.totalSold
  {
    if Censored(r, capacity) {
      var s := r.totalSold as real;
      assert EarlyBookingFactor(r.daysBeforeDeparture) >= 1.0;
      TruncScaledMonotone(s, 1.0, EarlyBookingFactor(r.daysBeforeDeparture));
      assert s * 1.0 == s;
      TruncOfInt(r.totalSold);
    }
  }

  /** Among sold-out runs with the same sales, selling out earlier never
      gives a smaller estimate. */
  lemma EstimateMonotoneInDaysEarly(r1: SalesRecord, r2: SalesRecord, capacity: int)
    requires r1.totalSold == r2.totalSold >= 0 && r1.totalSold >= capacity
    requires r1.daysBeforeDeparture <= r2.daysBeforeDeparture
    ensures Estimate(r1, capacity) <= Estimate(r2, capacity)
  {
    InflationMonotone(r1.totalSold, r1.daysBeforeDeparture, r2.daysBeforeDeparture);
  }

  lemma InflationMonotone(sold: int, d1: int, d2: int)
    requires 0 <= sold && d1 <= d2
    ensures Inflated(sold, d1) <= Inflated(sold, d2)
  {
    var k, f1, f2 := sold as real, EarlyBookingFactor(d1), EarlyBookingFactor(d2);
    var x1, x2 := k * f1, k * f2;
    MulMonotone(k, f1, f2);
    assert x1 <= x2;
    TruncMonotone(x1, x2);
  }
}
