# Revenue-management core of saket-0/OR, in Dafny

This project models the arithmetic and decision rules of a small railway
revenue-management simulator:

- **demand unconstraining**: a sold-out historical run's sales are inflated
  by ten percent per day it sold out early, then truncated;
- **demand factors**: every historical record is annotated in place with its
  true demand. Baseline, holiday and weekend means give the holiday and
  weekend factors relative to the baseline.
- **forecasting**: the mean demand is split 70/30 into leisure and urgent,
  scaled by fixed holiday and Fri/Sun multipliers, and truncated;
- **booking pick-up curves**: the square-root general-quota curve and the
  bimodal ladies-quota curve, as maps from day to fraction sold;
- **flexi-fare sell-down**: each day, each class's arrivals are sold
  first-fit into the lowest-index bucket still under that day's allocation,
  subject to the class capacity;
- **bid-price control**: a 30-day loop over leisure and urgent arrivals, with
  the fare-versus-bid-price gatekeeper;
- **protection-level control**: the nested urgent/leisure acceptance rule.

Modules follow the source files: `Unconstraining`, `FactorCalculator`,
`Forecasting`, `BookingCurveModel`, `Simulation`, `MainEngine` and
`ProtectionLevel` (root `main.py`). They share `Numeric`, `Calendar` and
`Wrappers`.

Python's `int()` on a float is `Numeric.Trunc`, which truncates toward zero.
Means are sums over counts in `real`.

Inputs the code draws at random or gets from code outside the core are
parameters of the Dafny methods:

- `np.random.poisson` becomes the `draw`/`dailyArrivals` functions;
- the daily allocation engine becomes `engine`;
- `** 0.5` becomes `sqrt`;
- the class capacities and fare-bucket lists become sequence parameters.

Where the code returns nan, divides by zero or falls off the end of a
function, the model returns `None`:

- a forecast of an empty list;
- a factor over a zero base mean;
- an unknown customer class in `main.py`.

Some descriptions of this system state things the code does not do. The
model follows the code:

- the spill is linear, `1 + days*0.10`, not compounding;
- the forecast's sigma comes from the mean *before* the holiday and weekend
  scaling.

## Model

| member | source | states |
|---|---|---|
| Numeric.Trunc | python/unconstraining.py:36 | `int()` of a float: the result is the integer part, rounded toward zero, for both signs |
| Unconstraining.Estimates | python/unconstraining.py:22-37 | one estimate per record, in record order; empty input gives empty output |
| Unconstraining.UnconstrainDemand | python/unconstraining.py:5-40 | the append loop returns exactly one estimate per record, the i-th being that record's case-split estimate |
| Unconstraining.UncensoredKeepsSales | python/unconstraining.py:28-30 | a run that did not sell out keeps its sales as its estimate |
| Unconstraining.CensoredEstimate | python/unconstraining.py:31-37 | a sold-out run's estimate is int(sold*(1+days/10)) |
| Unconstraining.CensoredEstimateInIntegers | python/unconstraining.py:35-36 | for non-negative sales and days, a sold-out run's estimate is the integer quotient sold*(10+days) div 10 |
| Unconstraining.SoldOutOnDepartureDay | python/unconstraining.py:35-36 | selling out with 0 days early adds nothing |
| Unconstraining.EstimateAtLeastSold | python/unconstraining.py:28-37 | for non-negative sales and days, the estimate is never below the sales |
| Unconstraining.EstimateMonotoneInDaysEarly | python/unconstraining.py:33-36 | sold-out runs with equal sales: selling out earlier never gives a smaller estimate |
| Unconstraining.InflationMonotone | python/unconstraining.py:35-36 | for non-negative sales, int(sold*(1+days/10)) never decreases as days grows |
| FactorCalculator.HistoricalRecord.constructor | python/config.py:23-48 | a record starts with its fixed fields and no true demand yet |
| FactorCalculator.GetUnconstrainedDemand | python/factor_calculator.py:6-19 | equals the unconstraining estimates of the records re-keyed days_early to days_before_departure, one per record |
| FactorCalculator.UnconstrainedDemands | python/factor_calculator.py:33 | one true demand per record, each that record's estimate |
| FactorCalculator.AnnotateTrueDemand | python/factor_calculator.py:35-37 | the enumerate loop sets every record's true_demand to the list entry at its index, and writes nothing else |
| FactorCalculator.CalculateDemandFactors | python/factor_calculator.py:22-78 | every record's true_demand becomes its own estimate, only that field is written, and the result is the factors of those demands |
| FactorCalculator.SegmentDemand | python/factor_calculator.py:45-63 | a segment's list has at most one entry per record, and is empty when no record is in the segment |
| FactorCalculator.Factors | python/factor_calculator.py:40-75 | a factor is missing (numpy's inf or nan) exactly when base_mu is 0 |
| FactorCalculator.EmptyHistoryFactors | python/factor_calculator.py:42-69 | no history: base_mu is 1.0 and both factors are 1.0 |
| FactorCalculator.NoHolidayFactorIsOne | python/factor_calculator.py:53-68 | no holiday record and a non-zero base: the holiday factor is exactly 1 |
| FactorCalculator.NoWeekendFactorIsOne | python/factor_calculator.py:60-69 | no non-holiday Fri/Sun record and a non-zero base: the weekend factor is exactly 1 |
| FactorCalculator.NoBaselineUsesOverallMean | python/factor_calculator.py:42-50 | no baseline record: base_mu is the mean of all demands (1.0 if none) |
| FactorCalculator.FactorIsSegmentMeanOverBase | python/factor_calculator.py:53-75 | a non-empty segment's factor is its mean divided by base_mu |
| FactorCalculator.SegmentsExclusive | python/factor_calculator.py:45-63 | each record is in exactly one of baseline, holiday and weekend |
| FactorCalculator.SegmentsPartitionDemands | python/factor_calculator.py:45-63 | the three segment lists together hold every demand exactly once (as a multiset) |
| FactorCalculator.AddToOneSegment | python/factor_calculator.py:45-63 | adding the head demand to exactly one of three lists that split the tail's demands splits all the demands |
| FactorCalculator.FactorsPositive | python/factor_calculator.py:42-69 | positive demands give a positive base_mu and finite positive factors |
| Forecasting.ForecastDemand | python/forecasting.py:5-49 | None exactly for an empty list; otherwise the 70/30 split of the mean, scaled by the factors and truncated, via in-place updates |
| Forecasting.OrdinaryDaySplit | python/forecasting.py:27-46 | no holiday and not Fri/Sun: leisure mu is int(0.7 mean) and urgent mu is int(0.3 mean) |
| Forecasting.ScalesCompose | python/forecasting.py:33-41 | the holiday and Fri/Sun rules multiply: mu is scaled by the product of the multipliers that apply |
| Forecasting.HolidayFridayScales | python/forecasting.py:33-41 | a holiday Friday scales leisure by 0.8*1.1 and urgent by 1.5*1.2, before truncation |
| Forecasting.SigmaIgnoresFactors | python/forecasting.py:27-46 | sigma is int(0.15 mean) and int(0.05 mean) whatever the external factors |
| Forecasting.ForecastNonNegative | python/forecasting.py:27-46 | non-negative estimates give non-negative mu and sigma |
| Forecasting.HolidayShiftsTowardUrgent | python/forecasting.py:33-36 | for non-negative data, a holiday never lowers urgent mu or raises leisure mu |
| Forecasting.WeekendRaisesBoth | python/forecasting.py:38-41 | for non-negative data and the same holiday flag, a Fri/Sun day has leisure and urgent mu at least those of a day that is not Fri/Sun |
| BookingCurveModel.GenerateGeneralPickupCurve | python/booking_curve_model.py:7-28 | the countdown loop plus override builds exactly the general curve |
| BookingCurveModel.GeneralCurveKeys | python/booking_curve_model.py:21-27 | for a window of at least one day the keys are exactly 1..W |
| BookingCurveModel.GeneralCurveValues | python/booking_curve_model.py:21-27 | curve[W] is 0 and curve[day] is 1 - sqrt(day/W) below W |
| BookingCurveModel.GeneralPercentSoldInUnit | python/booking_curve_model.py:22-27 | each value lies in [0,1] for a monotone square root on [0,1] |
| BookingCurveModel.GeneralCurveInUnit | python/booking_curve_model.py:21-27 | every curve value lies in [0,1] |
| BookingCurveModel.GeneralCurveNonIncreasing | python/booking_curve_model.py:21-27 | the fraction sold never decreases as departure nears |
| BookingCurveModel.GeneralPercentSoldNonIncreasing | python/booking_curve_model.py:22-27 | the per-day value is non-increasing in days remaining, override at W included |
| BookingCurveModel.GenerateLadiesPickupCurve | python/booking_curve_model.py:30-80 | the countdown loop plus the two overrides build exactly the ladies curve |
| BookingCurveModel.LadiesCurveBoundaries | python/booking_curve_model.py:48-78 | keys are exactly 0..W, curve[W] is 0 and curve[0] is 1 |
| BookingCurveModel.LadiesEarlyPeriod | python/booking_curve_model.py:51-55 | in the first 30 days the value is (W-day)/30 * 0.5 |
| BookingCurveModel.LadiesLatePeriod | python/booking_curve_model.py:57-65 | otherwise, on days up to 15, the value is 0.5 + (15-day)/15 * 0.5 |
| BookingCurveModel.LadiesMiddlePeriod | python/booking_curve_model.py:67-70 | between the early period and day 15 the value is exactly 0.5 |
| BookingCurveModel.LadiesLateStart | python/booking_curve_model.py:57-65 | for W >= 45, curve[15], the first day of the late period, is exactly 0.5 |
| BookingCurveModel.LadiesLoopValueRange | python/booking_curve_model.py:48-72 | loop values lie in [0,1], below 0.5 in the early period and at least 0.5 after it |
| BookingCurveModel.LadiesCurveInUnit | python/booking_curve_model.py:48-78 | every curve value lies in [0,1] |
| BookingCurveModel.LadiesCurveNonIncreasing | python/booking_curve_model.py:48-78 | the fraction sold never decreases as departure nears |
| BookingCurveModel.LadiesCurveAtBookingWindow | python/booking_curve_model.py:83-84 | the 120-day ladies curve: keys 0..120 and its exact values at 120, 91, 90, 15, 1 and 0 |
| Simulation.EmptyLedger | python/simulation.py:23-27 | a class starts with zero sold, zero accepted and zero rejected in every bucket |
| Simulation.ProcessArrival | python/simulation.py:60-94 | a full class rejects without touching buckets; otherwise the lowest-index bucket under today's limit (missing limit = 0) sells one seat at its price; if none has room only the rejected count rises; so one more customer is handled, at most one seat is sold within today's limit and never past a full class, and revenue rises by that seat's price |
| Simulation.RejectionEffect | python/simulation.py:63-65 | a rejection, for a full class or for no bucket with room, keeps the ledger valid and handles one customer, with no seat sold and no revenue |
| Simulation.SaleEffect | python/simulation.py:79-90 | a sale into a bucket with room, while the class is under capacity, handles one customer, stays within today's limit and the capacity, and adds that bucket's price to revenue |
| Simulation.SellDownClass | python/simulation.py:47-94 | today's counters start at 0 and stay within today's limits; sold equals accepted; class sales stay within capacity; accepted plus rejected rises by the arrivals; revenue rises by price times new acceptances; the final state is n steps of the first-fit rule, so exactly min(arrivals, seats left in the class, room left in today's buckets) seats are sold |
| Simulation.SellDownCounts | python/simulation.py:59-94 | n arrivals from a fresh day counter sell min(n, seats left in the class, room left in the buckets): a customer is turned away only when the class is full or every bucket is at today's limit |
| Simulation.SellDownCountsHold | python/simulation.py:59-94 | the same count, for a state given as n steps of the first-fit rule |
| Simulation.ArrivalStepCounts | python/simulation.py:60-94 | if n arrivals have sold min(n, seats left in the class, room left in the buckets), the next arrival brings that to min(n + 1, ...) and keeps today's limits |
| Simulation.SoldSoFarStep | python/simulation.py:59-94 | one arrival's effect keeps the loop's invariant with one more arrival counted |
| Simulation.TotalRevenueUpdate | python/simulation.py:87-88 | changing one class's acceptances changes total revenue by that class's price-weighted change |
| Simulation.RemainingCapacity | python/simulation.py:36-39 | one remaining capacity per class |
| Simulation.RemainingCapacityAt | python/simulation.py:36-39 | entry tc is class tc's capacity less all the seats it has sold, summed over its buckets |
| Simulation.RunDay | python/simulation.py:35-94 | one day over all classes keeps the ledgers valid and revenue equal to price times accepted, and turns the counters after days W..day+1 into those after days W..day |
| Simulation.DayLedgersFacts | python/simulation.py:53-94 | a whole day keeps the counters valid and every class within its capacity, and each class deals with exactly that day's arrivals |
| Simulation.LedgersBeforeValid | python/simulation.py:31-94 | after any number of days the counters are valid and within each class's capacity |
| Simulation.LedgersBeforeHandled | python/simulation.py:31-94 | after days W down to day+1, class tc has dealt with exactly the arrivals drawn on those days |
| Simulation.HandledDayStep | python/simulation.py:53-94 | running one more day adds exactly that day's arrivals to what each class has dealt with |
| Simulation.WindowStart | python/simulation.py:16-32 | the window starts from valid empty counters with zero revenue; a window of no days leaves them unchanged |
| Simulation.WindowOutcome | python/simulation.py:31-94 | after all W days the counters are valid, within capacity, and each class has dealt with all its arrivals |
| Simulation.RunDynamicSimulation | python/simulation.py:9-94 | the final counters are those of running days W down to 1 in order; every class's sales stay within its capacity, accepted plus rejected equals all its arrivals, and total revenue is the price-weighted sum of acceptances |
| Simulation.ZeroRevenue | python/simulation.py:17-27 | no acceptances means zero revenue |
| MainEngine.ShouldAcceptBooking | python/main_engine.py:35-45 | a booking is accepted only with a seat available, and then exactly when fare >= bid price |
| MainEngine.NoSeatsRefuses | python/main_engine.py:41-42 | no seat available: the booking is refused |
| MainEngine.AcceptIffFareCoversBid | python/main_engine.py:35-45 | with a seat available the gate accepts iff fare >= bid price, so a higher fare is accepted whenever a lower one is |
| MainEngine.ArrivalSchedule | python/main_engine.py:78-80 | the arrival rates are (10, 2) on days above 3 and (2, 20) on the last three days |
| MainEngine.Tally.Inc | python/main_engine.py:90-101 | one more for the named class, the other class unchanged |
| MainEngine.ClassPassCounts | python/main_engine.py:86-101 | n arrivals of one class keep the counters valid, are all counted, leave the other class alone, and the class is granted min(seats left, n) seats when its fare clears the bid, none otherwise |
| MainEngine.ProcessArrivals | python/main_engine.py:86-101 | one class's arrivals through the gate, one by one: the result is that many gate steps; counts add up, the other class is untouched, seats reach min(capacity, seats + arrivals) when the fare clears the bid |
| MainEngine.LeisureServedFirst | python/main_engine.py:85-101 | each day leisure is served first: leisure is granted min(seats left, its arrivals) when it clears the bid, and urgent only min(what leisure left, its arrivals) |
| MainEngine.OnlineRunCounts | python/main_engine.py:74-101 | over any stretch of days the counters stay valid, each class counts all its arrivals, a class below the bid accepts nothing, and seats sold grow by the admitted arrivals up to capacity |
| MainEngine.OnlineRunStep | python/main_engine.py:74-101 | running day `day`, leisure then urgent, turns the counters after days W..day+1 into those after W..day |
| MainEngine.SellDownWindow | python/main_engine.py:74-101 | the day loop over any number of days: the result is the days run in order, leisure before urgent each day; accepted plus rejected equals each class's arrivals, a class below the bid accepts nothing, and seats sold equal min(200, admitted arrivals) |
| MainEngine.RunOnlineSimulation | python/main_engine.py:63-101 | the result is the 30 days run in order, leisure before urgent each day; at most 200 seats sold; revenue is 3000 leisure + 6000 urgent accepted; accepted plus rejected equals each class's arrivals; a bid above 3000 accepts no leisure; seats sold equal min(200, admitted arrivals) |
| MainEngine.OfflineForecastOfDummyHistory | python/main_engine.py:49-56 | the dummy history unconstrains to [300, 240, 185] and forecasts leisure (148, 36) and urgent (130, 12) for a holiday Friday |
| ProtectionLevel.ShouldAcceptBooking | main.py:1-24 | only "Urgent" and "Leisure" get an answer (anything else yields None), and a known class is accepted exactly when more seats are left than its threshold: 0 for urgent, the protection level for leisure |
| ProtectionLevel.UrgentRule | main.py:1-12 | urgent is accepted iff capacity - sold > 0 |
| ProtectionLevel.LeisureRule | main.py:14-24 | leisure is accepted iff capacity - sold exceeds the urgent protection level |
| ProtectionLevel.LeisureAcceptanceImpliesUrgent | main.py:9-20 | with a non-negative protection level, a leisure acceptance implies an urgent one |
| ProtectionLevel.ZeroProtectionCoincides | main.py:9-20 | with protection 0 the two rules give the same answer |
| ProtectionLevel.AcceptanceMonotone | main.py:1-24 | fewer seats sold or less protection never turns an acceptance into a refusal |

## Left out

- The bid-price LP (`calculate_bid_price`) and the two-stage allocation LPs are left out. They are solver calls whose results the model cannot state. `run_offline_engine` in python/main_engine.py is modelled up to the forecast it hands to the LP (`OfflineForecastOfDummyHistory`).
- Simulation.RunDynamicSimulation: the daily allocation from the engine is a parameter `engine(remaining, day, class)`. The model does not check that it depends on nothing else. python/engine.py is not part of this model because it calls names the shown code does not define.
- The class list, the capacities and the flexi-fare bucket lists of the configuration are parameters. Classes are indices, and the `Bucket_i` keys are bucket indices.
- Poisson draws are input functions. The model proves nothing about their distribution.
- `print` output and the analysis messages are dropped. Only the counters they report are returned.
- Arithmetic is over exact reals. IEEE-754 rounding, which can move `int()` near an integer boundary, is not modelled.
- BookingCurveModel.GeneralCurveValues: `** 0.5` is an abstract function. The bounds and monotonicity lemmas assume only that it maps [0,1] into [0,1] monotonically.
- Maps stand for the dicts, so the insertion order of the curve and forecast dicts is not modelled.
- The truncation loop over the forecast's two keys is written as two straight-line truncations.
- The Streamlit UI, the Monte Carlo driver and the configuration file are left out. They are presentation, repetition and static data.
- The module-level general curve at W=120 has no concrete lemma, because its values depend on the abstract square root. The ladies one has `LadiesCurveAtBookingWindow`.
