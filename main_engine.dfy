/** Bid-price control (python/main_engine.py): a booking is accepted when a
    seat is left and its fare is at least the bid price; a 30-day sell-down
    applies that gate to daily leisure and urgent arrivals. */
module MainEngine {
  import opened Numeric
  import opened Wrappers
  import Unconstraining
  import Forecasting

  const Capacity: int := 200

  /** Length of the online booking window, in days. */
  const HorizonDays: nat := 30

  datatype FareClass = Leisure | Urgent

  /** `PRICES`. */
  function Price(c: FareClass): int
  {
    match c
    case Urgent => 6000
    case Leisure => 3000
  }

  /** `should_accept_booking`: the bid-price gatekeeper. */
  function ShouldAcceptBooking(fare: real, bidPrice: real, seatsAvailable: int): (r: bool)
    ensures r ==> seatsAvailable > 0
    ensures seatsAvailable > 0 ==> (r <==> fare >= bidPrice)
  {
    if seatsAvailable <= 0 then false else fare >= bidPrice
  }

  /** No seat left: always refused. */
  lemma NoSeatsRefuses(fare: real, bidPrice: real, seatsAvailable: int)
    requires seatsAvailable <= 0
    ensures !ShouldAcceptBooking(fare, bidPrice, seatsAvailable)
  {
  }

  /** With a seat left the gate is exactly `fare >= bid_price`, so a higher
      fare is accepted whenever a lower one is. */
  lemma AcceptIffFareCoversBid(fare: real, higherFare: real, bidPrice: real, seatsAvailable: int)
    requires seatsAvailable > 0 && fare <= higherFare
    ensures ShouldAcceptBooking(fare, bidPrice, seatsAvailable) <==> fare >= bidPrice
    ensures ShouldAcceptBooking(fare, bidPrice, seatsAvailable) ==> ShouldAcceptBooking(higherFare, bidPrice, seatsAvailable)
  {
  }

  /** The Poisson rate of each class on a day: leisure 10 and urgent 2 on
      days 30 down to 4, leisure 2 and urgent 20 on the last three days. */
  function ArrivalRate(c: FareClass, day: int): nat
  {
    match c
    case Leisure => if day > 3 then 10 else 2
    case Urgent => if day > 3 then 2 else 20
  }

  lemma ArrivalSchedule(day: int)
    ensures day > 3 ==> ArrivalRate(Leisure, day) == 10 && ArrivalRate(Urgent, day) == 2
    ensures day <= 3 ==> ArrivalRate(Leisure, day) == 2 && ArrivalRate(Urgent, day) == 20
  {
  }

  /** Arrivals of class `c` on `day`: the Poisson draw at that day's rate.
      `draw` stands for `np.random.poisson`, one value per (day, class). */
  function Arrivals(draw: (int, FareClass, nat) -> nat, c: FareClass, day: int): nat
  {
    draw(day, c, ArrivalRate(c, day))
  }

  /** Arrivals of class `c` over days `day` down to 1. */
  function ArrivalsThrough(draw: (int, FareClass, nat) -> nat, c: FareClass, day: int): nat
  {
    if day <= 0 then 0 else Arrivals(draw, c, day) + ArrivalsThrough(draw, c, day - 1)
  }

  /** A per-class count, as the source's `{'leisure': .., 'urgent': ..}`
      dictionaries. */
  datatype Tally = Tally(leisure: int, urgent: int)
  {
    function Of(c: FareClass): int
    {
      match c
      case Leisure => leisure
      case Urgent => urgent
    }

    /** One more for class `c`. */
    function Inc(c: FareClass): (t: Tally)
      ensures t.Of(c) == Of(c) + 1
      ensures forall o :: o != c ==> t.Of(o) == Of(o)
    {
      match c
      case Leisure => this.(leisure := leisure + 1)
      case Urgent => this.(urgent := urgent + 1)
    }
  }

  /** The counters of `run_online_simulation`: revenue, seats sold, and
      `bookings_accepted` / `bookings_rejected`. */
  datatype OnlineState = OnlineState(revenue: int, seatsSold: int, accepted: Tally, rejected: Tally)
  {
    function Accepted(c: FareClass): int
    {
      accepted.Of(c)
    }

    function Rejected(c: FareClass): int
    {
      rejected.Of(c)
    }

    /** Seats are the accepted bookings, never over capacity, and revenue is
        fare times accepted bookings. */
    predicate Valid()
    {
      0 <= accepted.leisure && 0 <= accepted.urgent && 0 <= rejected.leisure && 0 <= rejected.urgent &&
      seatsSold == accepted.leisure + accepted.urgent && seatsSold <= Capacity &&
      revenue == Price(Leisure) * accepted.leisure + Price(Urgent) * accepted.urgent
    }
  }

  /** All counters at zero, as before the first day. */
  const NoBookings := OnlineState(0, 0, Tally(0, 0), Tally(0, 0))

  /** A class passes the fare test at this bid price. */
  predicate Admitted(c: FareClass, bidPrice: real)
  {
    Price(c) as real >= bidPrice
  }

  /** One arrival of class `c` through the gatekeeper: a seat and its fare
      when `should_accept_booking` says yes, a rejection otherwise. */
  function Arrive(s: OnlineState, c: FareClass, bidPrice: real): OnlineState
  {
    if ShouldAcceptBooking(Price(c) as real, bidPrice, Capacity - s.seatsSold) then
      s.(seatsSold := s.seatsSold + 1, revenue := s.revenue + Price(c), accepted := s.accepted.Inc(c))
    else
      s.(rejected := s.rejected.Inc(c))
  }

  /** n arrivals of class `c` in a row. */
  function ClassPass(s: OnlineState, c: FareClass, n: nat, bidPrice: real): OnlineState
  {
    if n == 0 then s else Arrive(ClassPass(s, c, n - 1, bidPrice), c, bidPrice)
  }

  /** One day: all leisure arrivals first, then all urgent arrivals. */
  function DayPass(s: OnlineState, day: int, bidPrice: real, draw: (int, FareClass, nat) -> nat): OnlineState
  {
    ClassPass(ClassPass(s, Leisure, Arrivals(draw, Leisure, day), bidPrice), Urgent, Arrivals(draw, Urgent, day), bidPrice)
  }

  /** The counters once days `days` down to `day + 1` have been run from the
      counters `start`. */
  function OnlineRun(start: OnlineState, day: int, days: int, bidPrice: real, draw: (int, FareClass, nat) -> nat): OnlineState
    decreases days - day
  {
    if day >= days then start
    else DayPass(OnlineRun(start, day + 1, days, bidPrice, draw), day + 1, bidPrice, draw)
  }

  /** Seats a class gets from n arrivals: all it asks for up to the seats
      left when its fare clears the bid, none otherwise. */
  function Granted(s: OnlineState, c: FareClass, n: nat, bidPrice: real): int
  {
    if Admitted(c, bidPrice) then Min(Capacity - s.seatsSold, n) else 0
  }

  /** n arrivals of one class keep the counters valid, are all counted, leave
      the other class alone, and the class is granted min(seats left, n)
      seats when its fare clears the bid and none otherwise. */
  lemma {:induction false} ClassPassCounts(s: OnlineState, c: FareClass, n: nat, bidPrice: real)
    requires s.Valid()
    ensures var t := ClassPass(s, c, n, bidPrice);
            t.Valid() &&
            t.Accepted(c) + t.Rejected(c) == s.Accepted(c) + s.Rejected(c) + n &&
            (forall o :: o != c ==> t.Accepted(o) == s.Accepted(o) && t.Rejected(o) == s.Rejected(o)) &&
            t.Accepted(c) == s.Accepted(c) + Granted(s, c, n, bidPrice) &&
            t.seatsSold == s.seatsSold + Granted(s, c, n, bidPrice)
  {
    if n > 0 {
      ClassPassCounts(s, c, n - 1, bidPrice);
    }
  }

  /** The body of one `for _ in range(arrivals)` loop: each arrival of class
      `c` goes through the gatekeeper. */
  method ProcessArrivals(s: OnlineState, c: FareClass, arrivals: nat, bidPrice: real) returns (t: OnlineState)
    requires s.Valid()
    ensures t == ClassPass(s, c, arrivals, bidPrice)
    ensures t.Valid()
    ensures t.Accepted(c) + t.Rejected(c) == s.Accepted(c) + s.Rejected(c) + arrivals
    ensures forall o :: o != c ==> t.Accepted(o) == s.Accepted(o) && t.Rejected(o) == s.Rejected(o)
    ensures t.seatsSold == if Admitted(c, bidPrice) then Min(Capacity, s.seatsSold + arrivals) else s.seatsSold
  {
    t := s;
    for n := 0 to arrivals
      invariant t == ClassPass(s, c, n, bidPrice)
    {
      if ShouldAcceptBooking(Price(c) as real, bidPrice, Capacity - t.seatsSold) {
        t := t.(seatsSold := t.seatsSold + 1, revenue := t.revenue + Price(c));
        t := t.(accepted := t.accepted.Inc(c));
      } else {
        t := t.(rejected := t.rejected.Inc(c));
      }
    }
    ClassPassCounts(s, c, arrivals, bidPrice);
  }

  /** Leisure is served before urgent on every day: leisure is granted
      min(seats left, its arrivals) when its fare clears the bid, and urgent
      only what is left after that. */
  lemma LeisureServedFirst(s: OnlineState, day: int, bidPrice: real, draw: (int, FareClass, nat) -> nat)
    requires s.Valid()
    ensures var t := DayPass(s, day, bidPrice, draw);
            var leisure := Granted(s, Leisure, Arrivals(draw, Leisure, day), bidPrice);
            t.accepted.leisure == s.accepted.leisure + leisure &&
            t.accepted.urgent == s.accepted.urgent +
              (if Admitted(Urgent, bidPrice) then Min(Capacity - s.seatsSold - leisure, Arrivals(draw, Urgent, day)) else 0)
  {
    var m := ClassPass(s, Leisure, Arrivals(draw, Leisure, day), bidPrice);
    ClassPassCounts(s, Leisure, Arrivals(draw, Leisure, day), bidPrice);
    ClassPassCounts(m, Urgent, Arrivals(draw, Urgent, day), bidPrice);
    assert m.Accepted(Urgent) == s.Accepted(Urgent);
  }

  /** Arrivals over the 30 days of the classes that pass the fare test. */
  function AdmittedArrivals(draw: (int, FareClass, nat) -> nat, bidPrice: real, day: int): nat
  {
    (if Admitted(Leisure, bidPrice) then ArrivalsThrough(draw, Leisure, day) else 0) +
    (if Admitted(Urgent, bidPrice) then ArrivalsThrough(draw, Urgent, day) else 0)
  }

  /** `run_online_simulation`: days 30 down to 1, leisure then urgent
      arrivals each day. Returns the final counters that the source prints. */
  method RunOnlineSimulation(bidPrice: real, draw: (int, FareClass, nat) -> nat) returns (s: OnlineState)
    ensures s == OnlineRun(NoBookings, 0, HorizonDays, bidPrice, draw)
    ensures s.Valid()
    ensures s.seatsSold <= Capacity
    ensures s.revenue == 3000 * s.accepted.leisure + 6000 * s.accepted.urgent
    ensures s.accepted.leisure + s.rejected.leisure == ArrivalsThrough(draw, Leisure, HorizonDays)
    ensures s.accepted.urgent + s.rejected.urgent == ArrivalsThrough(draw, Urgent, HorizonDays)
    ensures bidPrice > Price(Leisure) as real ==> s.accepted.leisure == 0
    ensures bidPrice > Price(Urgent) as real ==> s.seatsSold == 0
    ensures s.seatsSold == Min(Capacity, AdmittedArrivals(draw, bidPrice, HorizonDays))
  {
    s := SellDownWindow(HorizonDays, bidPrice, draw);
  }

  /** The day loop of `run_online_simulation` over a window of `days` days,
      counting down to day 1. */
  method SellDownWindow(days: nat, bidPrice: real, draw: (int, FareClass, nat) -> nat) returns (s: OnlineState)
    ensures s == OnlineRun(NoBookings, 0, days, bidPrice, draw)
    ensures s.Valid()
    ensures s.accepted.leisure + s.rejected.leisure == ArrivalsThrough(draw, Leisure, days)
    ensures s.accepted.urgent + s.rejected.urgent == ArrivalsThrough(draw, Urgent, days)
    ensures !Admitted(Leisure, bidPrice) ==> s.accepted.leisure == 0
    ensures !Admitted(Urgent, bidPrice) ==> s.accepted.urgent == 0
    ensures s.seatsSold == Min(Capacity, AdmittedArrivals(draw, bidPrice, days))
  {
    s := NoBookings;
    var day := days;
    while day > 0
      invariant 0 <= day <= days
      invariant s.Valid()
      invariant s == OnlineRun(NoBookings, day, days, bidPrice, draw)
    {
      var leisureLambda := if day > 3 then 10 else 2;
      var urgentLambda := if day > 3 then 2 else 20;
      var leisureArrivals := draw(day, Leisure, leisureLambda);
      var urgentArrivals := draw(day, Urgent, urgentLambda);
      ghost var before := s;
      s := ProcessArrivals(s, Leisure, leisureArrivals, bidPrice);
      ghost var mid := s;
      s := ProcessArrivals(s, Urgent, urgentArrivals, bidPrice);
      OnlineRunStep(NoBookings, day, days, bidPrice, draw, before, mid, s);
      day := day - 1;
    }
    OnlineRunCounts(NoBookings, day, days, bidPrice, draw, s);
  }

  /** Over any stretch of the window, from valid counters, the counters stay
      valid, every arrival is counted once, a class whose fare is below the
      bid sells nothing more, and seats sold grow by the admitted arrivals
      up to capacity. */
  lemma {:induction false} OnlineRunCounts(start: OnlineState, day: int, days: int, bidPrice: real,
                                           draw: (int, FareClass, nat) -> nat, s: OnlineState)
    requires start.Valid() && 0 <= day <= days
    requires s == OnlineRun(start, day, days, bidPrice, draw)
    ensures s.Valid()
    ensures s.Accepted(Leisure) + s.Rejected(Leisure) ==
            start.Accepted(Leisure) + start.Rejected(Leisure) + ArrivalsThrough(draw, Leisure, days) - ArrivalsThrough(draw, Leisure, day)
    ensures s.Accepted(Urgent) + s.Rejected(Urgent) ==
            start.Accepted(Urgent) + start.Rejected(Urgent) + ArrivalsThrough(draw, Urgent, days) - ArrivalsThrough(draw, Urgent, day)
    ensures !Admitted(Leisure, bidPrice) ==> s.Accepted(Leisure) == start.Accepted(Leisure)
    ensures !Admitted(Urgent, bidPrice) ==> s.Accepted(Urgent) == start.Accepted(Urgent)
    ensures s.seatsSold == Min(Capacity, start.seatsSold + AdmittedArrivals(draw, bidPrice, days) - AdmittedArrivals(draw, bidPrice, day))
    decreases days - day
  {
    if day < days {
      var p := OnlineRun(start, day + 1, days, bidPrice, draw);
      OnlineRunCounts(start, day + 1, days, bidPrice, draw, p);
      var m := ClassPass(p, Leisure, Arrivals(draw, Leisure, day + 1), bidPrice);
      ClassPassCounts(p, Leisure, Arrivals(draw, Leisure, day + 1), bidPrice);
      ClassPassCounts(m, Urgent, Arrivals(draw, Urgent, day + 1), bidPrice);
      AdmittedArrivalsStep(draw, bidPrice, day + 1);
      var done := start.seatsSold + AdmittedArrivals(draw, bidPrice, days) - AdmittedArrivals(draw, bidPrice, day + 1);
      var a := if Admitted(Leisure, bidPrice) then Arrivals(draw, Leisure, day + 1) else 0;
      var b := if Admitted(Urgent, bidPrice) then Arrivals(draw, Urgent, day + 1) else 0;
      MinAbsorbs(Capacity, done, a);
      MinAbsorbs(Capacity, done + a, b);
    }
  }

  /** Running day `day`, leisure then urgent, on the counters before it gives
      the counters before the next day down. */
  lemma OnlineRunStep(start: OnlineState, day: int, days: int, bidPrice: real, draw: (int, FareClass, nat) -> nat,
                      before: OnlineState, mid: OnlineState, after: OnlineState)
    requires 0 < day <= days
    requires before == OnlineRun(start, day, days, bidPrice, draw)
    requires mid == ClassPass(before, Leisure, draw(day, Leisure, if day > 3 then 10 else 2), bidPrice)
    requires after == ClassPass(mid, Urgent, draw(day, Urgent, if day > 3 then 2 else 20), bidPrice)
    ensures after == OnlineRun(start, day - 1, days, bidPrice, draw)
  {
  }

  lemma AdmittedArrivalsStep(draw: (int, FareClass, nat) -> nat, bidPrice: real, day: int)
    requires day > 0
    ensures AdmittedArrivals(draw, bidPrice, day) == AdmittedArrivals(draw, bidPrice, day - 1)
      + (if Admitted(Leisure, bidPrice) then Arrivals(draw, Leisure, day) else 0)
      + (if Admitted(Urgent, bidPrice) then Arrivals(draw, Urgent, day) else 0)
  {
  }

  /** Capping twice at the same bound is capping once. */
  lemma MinAbsorbs(cap: int, x: int, y: int)
    requires y >= 0
    ensures Min(cap, Min(cap, x) + y) == Min(cap, x + y)
  {
  }

  // ----- run_offline_engine on the dummy history, up to the LP -----

  /** `HISTORICAL_SALES_DATA`. */
  const HistoricalSalesData: seq<Unconstraining.SalesRecord> := [
    Unconstraining.SalesRecord(1, 5, 200),
    Unconstraining.SalesRecord(2, 2, 200),
    Unconstraining.SalesRecord(3, 0, 185)]

  /** The estimates and forecast (holiday, Friday) that the offline engine
      hands to the bid-price LP. */
  lemma OfflineForecastOfDummyHistory()
    ensures Unconstraining.Estimates(HistoricalSalesData, Capacity) == [300, 240, 185]
    ensures Forecasting.ForecastOf([300, 240, 185], true, "Fri") ==
            Some(Forecasting.Forecast(Forecasting.Distribution(148, 36), Forecasting.Distribution(130, 12)))
  {
    var est := Unconstraining.Estimates(HistoricalSalesData, Capacity);
    Unconstraining.CensoredEstimateInIntegers(HistoricalSalesData[0], Capacity);
    Unconstraining.CensoredEstimateInIntegers(HistoricalSalesData[1], Capacity);
    assert est == [300, 240, 185];
    assert Sum([300, 240, 185]) == 725;
    var m := Mean([300, 240, 185]);
    assert m == 725.0 / 3.0;
    assert Trunc(Forecasting.ScaleLeisure(m * 0.7, true, "Fri")) == 148;
    assert Trunc(m * 0.15) == 36;
    assert Trunc(Forecasting.ScaleUrgent(m * 0.3, true, "Fri")) == 130;
    assert Trunc(m * 0.05) == 12;
  }
}
