/** Booking pick-up curves (python/booking_curve_model.py): for each day
    before departure, the cumulative fraction of demand already sold at the
    start of that day. */
module BookingCurveModel {

  /** `BOOKING_WINDOW_DAYS` of python/config.py. */
  const BookingWindowDays: int := 120

  const EarlyPeriodDays: int := 30
  const LatePeriodDays: int := 15
  const TotalEarlySold: real := 0.5
  const TotalLateSold: real := 0.5

  predicate InDayRange(lo: int, hi: int, d: int)
  {
    lo <= d <= hi
  }

  /** Days `lo..hi`, both ends included (the predicate call gives the
      comprehension a trigger). */
  function DayRange(lo: int, hi: int): set<int>
  {
    set d | lo <= d <= hi && InDayRange(lo, hi, d)
  }

  // ----- General quota: 1 - sqrt(day / window) -----

  /** The properties of `** 0.5` on [0, 1] that the curve relies on: it stays
      in [0, 1] and does not decrease. */
  ghost predicate IsMonotoneUnitRoot(sqrt: real -> real)
  {
    (forall x :: 0.0 <= x <= 1.0 ==> 0.0 <= sqrt(x) <= 1.0) &&
    (forall x, y :: 0.0 <= x <= y <= 1.0 ==> sqrt(x) <= sqrt(y))
  }

  /** Keys of the general curve: the loop's days `window..1`, plus the
      opening day written afterwards. */
  function GeneralDays(windowDays: int): set<int>
  {
    DayRange(1, windowDays) + {windowDays}
  }

  /** Value of the general curve at one key; the opening day is overridden to 0. */
  function GeneralPercentSold(windowDays: int, sqrt: real -> real, day: int): real
  {
    if day == windowDays || windowDays == 0 then 0.0 else 1.0 - sqrt(day as real / windowDays as real)
  }

  /** The general curve as a value. */
  function GeneralCurve(windowDays: int, sqrt: real -> real): map<int, real>
  {
    map d | d in GeneralDays(windowDays) :: GeneralPercentSold(windowDays, sqrt, d)
  }

  /** `_generate_general_pickup_curve`: a countdown loop filling the dict,
      then the opening-day override. */
  method GenerateGeneralPickupCurve(windowDays: int, sqrt: real -> real) returns (curve: map<int, real>)
    ensures curve == GeneralCurve(windowDays, sqrt)
  {
    curve := map[];
    var gnWindowLen := windowDays as real;
    var day := windowDays;
    while day > 0
      invariant day <= windowDays && (day >= 0 || day == windowDays)
      invariant curve.Keys == DayRange(day + 1, windowDays)
      invariant forall d :: d in curve ==> 1 <= d <= windowDays && curve[d] == 1.0 - sqrt(d as real / gnWindowLen)
    {
      var percentRemaining := sqrt(day as real / gnWindowLen);
      curve := curve[day := 1.0 - percentRemaining];
      day := day - 1;
    }
    curve := curve[windowDays := 0.0];
    assert curve.Keys == GeneralDays(windowDays);
  }

  /** The general curve's keys are exactly 1..W. */
  lemma GeneralCurveKeys(windowDays: int, sqrt: real -> real)
    requires windowDays >= 1
    ensures GeneralCurve(windowDays, sqrt).Keys == DayRange(1, windowDays)
  {
  }

  /** At the opening day nothing has been sold; before it the value is
      1 - sqrt(day / W). */
  lemma GeneralCurveValues(windowDays: int, sqrt: real -> real, day: int)
    requires 1 <= day <= windowDays
    ensures GeneralCurve(windowDays, sqrt)[windowDays] == 0.0
    ensures day < windowDays ==> GeneralCurve(windowDays, sqrt)[day] == 1.0 - sqrt(day as real / windowDays as real)
  {
  }

  /** One key's value is a fraction in [0, 1]. */
  lemma GeneralPercentSoldInUnit(windowDays: int, sqrt: real -> real, day: int)
    requires IsMonotoneUnitRoot(sqrt)
    requires day in GeneralDays(windowDays)
    ensures 0.0 <= GeneralPercentSold(windowDays, sqrt, day) <= 1.0
  {
    if day != windowDays && windowDays != 0 {
      var w := windowDays as real;
      DivisionMonotone(day as real, w, w);
      assert w / w == 1.0;
      RootInUnit(sqrt, day as real / w);
    }
  }

  lemma RootInUnit(sqrt: real -> real, x: real)
    requires IsMonotoneUnitRoot(sqrt) && 0.0 <= x <= 1.0
    ensures 0.0 <= sqrt(x) <= 1.0
  {
  }

  lemma RootMonotone(sqrt: real -> real, x: real, y: real)
    requires IsMonotoneUnitRoot(sqrt) && 0.0 <= x <= y <= 1.0
    ensures sqrt(x) <= sqrt(y)
  {
  }

  /** Every value is a fraction in [0, 1]. */
  lemma GeneralCurveInUnit(windowDays: int, sqrt: real -> real, day: int)
    requires IsMonotoneUnitRoot(sqrt)
    requires day in GeneralCurve(windowDays, sqrt)
    ensures 0.0 <= GeneralCurve(windowDays, sqrt)[day] <= 1.0
  {
    GeneralPercentSoldInUnit(windowDays, sqrt, day);
  }

  /** The cumulative fraction sold grows as departure nears: the value does
      not increase with the number of days remaining. */
  lemma GeneralCurveNonIncreasing(windowDays: int, sqrt: real -> real, d1: int, d2: int)
    requires IsMonotoneUnitRoot(sqrt)
    requires d1 in GeneralCurve(windowDays, sqrt) && d2 in GeneralCurve(windowDays, sqrt)
    requires d1 <= d2
    ensures GeneralCurve(windowDays, sqrt)[d1] >= GeneralCurve(windowDays, sqrt)[d2]
  {
    GeneralPercentSoldNonIncreasing(windowDays, sqrt, d1, d2);
  }

  lemma GeneralPercentSoldNonIncreasing(windowDays: int, sqrt: real -> real, d1: int, d2: int)
    requires IsMonotoneUnitRoot(sqrt)
    requires d1 in GeneralDays(windowDays) && d2 in GeneralDays(windowDays)
    requires d1 <= d2
    ensures GeneralPercentSold(windowDays, sqrt, d1) >= GeneralPercentSold(windowDays, sqrt, d2)
  {
    GeneralPercentSoldInUnit(windowDays, sqrt, d1);
    if d2 != windowDays && d1 != windowDays && windowDays != 0 {
      assert 1 <= d1 <= d2 < windowDays;
      var w := windowDays as real;
      var x1, x2 := d1 as real / w, d2 as real / w;
      DivisionMonotone(d1 as real, d2 as real, w);
      DivisionMonotone(d2 as real, w, w);
      assert w / w == 1.0;
      RootMonotone(sqrt, x1, x2);
      assert GeneralPercentSold(windowDays, sqrt, d1) == 1.0 - sqrt(x1);
      assert GeneralPercentSold(windowDays, sqrt, d2) == 1.0 - sqrt(x2);
    }
  }

  lemma DivisionMonotone(a: real, b: real, w: real)
    requires 0.0 <= a <= b && w > 0.0
    ensures 0.0 <= a / w <= b / w
  {
    assert b / w - a / w == (b - a) / w;
  }

  // ----- Ladies quota: bimodal -----

  /** Value the loop computes for a day: a linear early ramp up to 50% over
      the first 30 days, a flat 50% middle, and a linear late ramp from 50%
      over the last 15 days. */
  function LadiesLoopValue(windowDays: int, day: int): real
  {
    if day > windowDays - EarlyPeriodDays then
      ((windowDays - day) as real / EarlyPeriodDays as real) * TotalEarlySold
    else if day <= LatePeriodDays then
      TotalEarlySold + ((LatePeriodDays - day) as real / LatePeriodDays as real) * TotalLateSold
    else
      TotalEarlySold
  }

  /** Keys of the ladies curve: the loop's days, the opening day and day 0. */
  function LadiesDays(windowDays: int): set<int>
  {
    DayRange(1, windowDays) + {windowDays, 0}
  }

  /** The ladies curve as a value: the loop's values, then opening day := 0.0,
      then day 0 := 1.0 (the later override wins when W = 0). */
  function LadiesCurve(windowDays: int): map<int, real>
  {
    map d | d in LadiesDays(windowDays) ::
      if d == 0 then 1.0 else if d == windowDays then 0.0 else LadiesLoopValue(windowDays, d)
  }

  /** `_generate_ladies_pickup_curve`: countdown loop, then the two
      boundary overrides. */
  method GenerateLadiesPickupCurve(windowDays: int) returns (curve: map<int, real>)
    ensures curve == LadiesCurve(windowDays)
  {
    curve := map[];
    var day := windowDays;
    while day > 0
      invariant day <= windowDays && (day >= 0 || day == windowDays)
      invariant curve.Keys == DayRange(day + 1, windowDays)
      invariant forall d :: d in curve ==> 1 <= d <= windowDays && curve[d] == LadiesLoopValue(windowDays, d)
    {
      var percentSold := 0.0;
      if day > windowDays - EarlyPeriodDays {
        var daysIntoWindow := windowDays - day;
        percentSold := (daysIntoWindow as real / EarlyPeriodDays as real) * TotalEarlySold;
      } else if day <= LatePeriodDays {
        var daysRemaining := day;
        var daysIntoLatePeriod := LatePeriodDays - daysRemaining;
        var percentSoldInLatePeriod := (daysIntoLatePeriod as real / LatePeriodDays as real) * TotalLateSold;
        percentSold := TotalEarlySold + percentSoldInLatePeriod;
      } else {
        percentSold := TotalEarlySold;
      }
      curve := curve[day := percentSold];
      day := day - 1;
    }
    curve := curve[windowDays := 0.0];
    curve := curve[0 := 1.0];
    assert curve.Keys == LadiesDays(windowDays);
  }

  /** Keys are exactly 0..W; 0% sold at the opening day, 100% at departure. */
  lemma LadiesCurveBoundaries(windowDays: int)
    requires windowDays >= 1
    ensures LadiesCurve(windowDays).Keys == DayRange(0, windowDays)
    ensures LadiesCurve(windowDays)[windowDays] == 0.0
    ensures LadiesCurve(windowDays)[0] == 1.0
  {
  }

  /** Early period (within 30 days of opening): (W - day)/30 * 0.5. */
  lemma LadiesEarlyPeriod(windowDays: int, day: int)
    requires 1 <= day <= windowDays && day > windowDays - 30
    ensures LadiesCurve(windowDays)[day] == (windowDays - day) as real / 30.0 * 0.5
  {
  }

  /** Late period (last 15 days, outside the early period): 0.5 + (15 - day)/15 * 0.5. */
  lemma LadiesLatePeriod(windowDays: int, day: int)
    requires 1 <= day <= 15 && day <= windowDays - 30
    ensures LadiesCurve(windowDays)[day] == 0.5 + (15 - day) as real / 15.0 * 0.5
  {
  }

  /** Middle period: held at exactly 50%. */
  lemma LadiesMiddlePeriod(windowDays: int, day: int)
    requires 15 < day <= windowDays - 30
    ensures LadiesCurve(windowDays)[day] == 0.5
  {
  }

  /** Day 15 opens the late period with nothing late sold yet: exactly 50%,
      once the window is long enough that day 15 is past the early ramp. */
  lemma LadiesLateStart(windowDays: int)
    requires windowDays >= 45
    ensures LadiesCurve(windowDays)[15] == 0.5
  {
  }

  /** Every loop value is in [0, 1], and the early ramp stays below 50%. */
  lemma LadiesLoopValueRange(windowDays: int, day: int)
    requires 1 <= day <= windowDays
    ensures 0.0 <= LadiesLoopValue(windowDays, day) <= 1.0
    ensures day > windowDays - 30 ==> LadiesLoopValue(windowDays, day) < 0.5
    ensures day <= windowDays - 30 ==> LadiesLoopValue(windowDays, day) >= 0.5
  {
  }

  /** All values lie in [0, 1]. */
  lemma LadiesCurveInUnit(windowDays: int, day: int)
    requires day in LadiesCurve(windowDays)
    ensures 0.0 <= LadiesCurve(windowDays)[day] <= 1.0
  {
    if day != 0 && day != windowDays {
      LadiesLoopValueRange(windowDays, day);
    }
  }

  /** For a window of at least 0 days the cumulative fraction never decreases
      as departure nears (values are non-increasing in the day index). */
  lemma LadiesCurveNonIncreasing(windowDays: int, d1: int, d2: int)
    requires windowDays >= 0
    requires d1 in LadiesCurve(windowDays) && d2 in LadiesCurve(windowDays)
    requires d1 <= d2
    ensures LadiesCurve(windowDays)[d1] >= LadiesCurve(windowDays)[d2]
  {
    LadiesCurveInUnit(windowDays, d1);
    LadiesCurveInUnit(windowDays, d2);
    if d1 != 0 && d2 != windowDays {
      LadiesLoopValueRange(windowDays, d1);
      LadiesLoopValueRange(windowDays, d2);
    }
  }

  /** The module-level instance LADIES_PICKUP_CURVE (W = 120): day 91 is the
      last early day, days 90..16 hold 50%, day 1 is just short of 100%. */
  lemma LadiesCurveAtBookingWindow()
    ensures LadiesCurve(BookingWindowDays).Keys == DayRange(0, 120)
    ensures LadiesCurve(BookingWindowDays)[120] == 0.0
    ensures LadiesCurve(BookingWindowDays)[91] == 29.0 / 60.0
    ensures LadiesCurve(BookingWindowDays)[90] == 0.5
    ensures LadiesCurve(BookingWindowDays)[15] == 0.5
    ensures LadiesCurve(BookingWindowDays)[1] == 0.5 + 14.0 / 30.0
    ensures LadiesCurve(BookingWindowDays)[0] == 1.0
  {
    LadiesCurveBoundaries(BookingWindowDays);
  }
}
