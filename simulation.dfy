/** Online flexi-fare sell-down (python/simulation.py): day by day, each
    class's arrivals are sold first-fit into the lowest-index bucket that
    still has room under that day's allocation, subject to the class
    capacity. */
module Simulation {
  import opened Numeric
  import opened Wrappers

  /** One entry of a class's flexi-fare structure. */
  datatype FareBucket = FareBucket(name: string, price: int)

  function Prices(buckets: seq<FareBucket>): (p: seq<int>)
    ensures |p| == |buckets|
    ensures forall i :: 0 <= i < |buckets| ==> p[i] == buckets[i].price
  {
    seq(|buckets|, i requires 0 <= i < |buckets| => buckets[i].price)
  }

  /** `current_allocations[tc].get(f'Bucket_{i}_Allocation', 0)`: a missing
      key is a limit of 0. Buckets are keyed by index. */
  function LimitFor(allocation: map<nat, int>, i: nat): int
  {
    if i in allocation then allocation[i] else 0
  }

  /** Bucket i can still sell today. */
  predicate HasRoom(soldToday: seq<int>, allocation: map<nat, int>, i: nat)
    requires i < |soldToday|
  {
    soldToday[i] < LimitFor(allocation, i)
  }

  /** The counters of one travel class: `seats_sold[tc]`,
      `bookings_accepted[tc]` (per bucket) and `bookings_rejected[tc]['total']`. */
  datatype ClassLedger = ClassLedger(seatsSold: seq<int>, accepted: seq<int>, rejected: int)

  /** Counters have one entry per bucket, the rejected count is
      non-negative, and the sold and accepted counters agree bucket by
      bucket. */
  predicate LedgerValid(l: ClassLedger, buckets: nat)
  {
    |l.seatsSold| == buckets && l.accepted == l.seatsSold && l.rejected >= 0
  }

  function EmptyLedger(buckets: nat): (l: ClassLedger)
    ensures LedgerValid(l, buckets) && Sum(l.seatsSold) == 0 && l.rejected == 0
  {
    ClassLedger(Zeros(buckets), Zeros(buckets), 0)
  }

  /** Arrivals the class has dealt with so far: accepted plus rejected. */
  function Handled(l: ClassLedger): int
  {
    Sum(l.accepted) + l.rejected
  }

  /** Where a class stands during a day: its counters and today's sales per
      bucket. */
  datatype SellState = SellState(ledger: ClassLedger, soldToday: seq<int>)

  /** One entry per bucket in every counter. */
  predicate Shaped(s: SellState, buckets: nat)
  {
    |s.ledger.seatsSold| == buckets && |s.ledger.accepted| == buckets && |s.soldToday| == buckets
  }

  /** The lowest bucket index at or after `from` that has room today. */
  function FirstWithRoom(soldToday: seq<int>, allocation: map<nat, int>, from: nat): (r: Option<nat>)
    decreases |soldToday| - from
    ensures r.Some? ==> from <= r.value < |soldToday| && HasRoom(soldToday, allocation, r.value) &&
                        forall j :: from <= j < r.value ==> !HasRoom(soldToday, allocation, j)
    ensures r.None? ==> forall j :: from <= j < |soldToday| ==> !HasRoom(soldToday, allocation, j)
  {
    if from >= |soldToday| then None
    else if HasRoom(soldToday, allocation, from) then Some(from)
    else FirstWithRoom(soldToday, allocation, from + 1)
  }

  /** The rule for one arrival, as a value: rejected when the class is full
      or no bucket has room, otherwise one seat in the first bucket with room. */
  function ArrivalStep(s: SellState, capacity: int, allocation: map<nat, int>): (t: SellState)
    requires Shaped(s, |s.soldToday|)
    ensures Shaped(t, |s.soldToday|)
  {
    if Sum(s.ledger.seatsSold) >= capacity then SellState(s.ledger.(rejected := s.ledger.rejected + 1), s.soldToday)
    else match FirstWithRoom(s.soldToday, allocation, 0)
      case None => SellState(s.ledger.(rejected := s.ledger.rejected + 1), s.soldToday)
      case Some(k) =>
        SellState(s.ledger.(seatsSold := s.ledger.seatsSold[k := s.ledger.seatsSold[k] + 1],
                            accepted := s.ledger.accepted[k := s.ledger.accepted[k] + 1]),
                  s.soldToday[k := s.soldToday[k] + 1])
  }

  /** n arrivals in a row. */
  function SellDown(n: nat, s: SellState, capacity: int, allocation: map<nat, int>): (t: SellState)
    requires Shaped(s, |s.soldToday|)
    ensures Shaped(t, |s.soldToday|)
  {
    if n == 0 then s else ArrivalStep(SellDown(n - 1, s, capacity, allocation), capacity, allocation)
  }

  /** The limits of the buckets, with a missing or negative limit as 0. */
  function RoomCaps(allocation: map<nat, int>, buckets: nat): (m: seq<int>)
    ensures |m| == buckets
    ensures forall i :: 0 <= i < buckets ==> m[i] == Max(0, LimitFor(allocation, i))
  {
    seq(buckets, i requires 0 <= i < buckets => Max(0, LimitFor(allocation, i)))
  }

  /** Seats the buckets may sell in one day. */
  function DailyRoom(allocation: map<nat, int>, buckets: nat): int
  {
    Sum(RoomCaps(allocation, buckets))
  }

  /** Today's sales stay within the bucket limits. */
  predicate WithinLimits(soldToday: seq<int>, allocation: map<nat, int>)
  {
    forall i :: 0 <= i < |soldToday| ==> 0 <= soldToday[i] <= Max(0, LimitFor(allocation, i))
  }

  /** After n arrivals of the day, from a class that had sold `l.seatsSold`
      before it: today's sales are within the limits, the class total has
      grown by today's sales, and today's sales are min(n, seats left in the
      class, room in the buckets). */
  predicate CountsAfter(t: SellState, l: ClassLedger, capacity: int, allocation: map<nat, int>, buckets: nat, n: nat)
  {
    |t.soldToday| == buckets && WithinLimits(t.soldToday, allocation) &&
    Sum(t.ledger.seatsSold) == Sum(l.seatsSold) + Sum(t.soldToday) &&
    Sum(t.soldToday) == Min(n, Min(Max(0, capacity - Sum(l.seatsSold)), DailyRoom(allocation, buckets)))
  }

  /** Starting the day from a fresh counter, n arrivals sell
      min(n, seats left in the class, room left in the buckets): a customer is
      turned away only when the class is full or every bucket is at its limit. */
  lemma {:induction false} SellDownCounts(n: nat, l: ClassLedger, capacity: int, allocation: map<nat, int>, buckets: nat)
    requires LedgerValid(l, buckets)
    ensures var t := SellDown(n, SellState(l, Zeros(buckets)), capacity, allocation);
            WithinLimits(t.soldToday, allocation) &&
            Sum(t.ledger.seatsSold) == Sum(l.seatsSold) + Sum(t.soldToday) &&
            Sum(t.soldToday) == Min(n, Min(Max(0, capacity - Sum(l.seatsSold)), DailyRoom(allocation, buckets)))
  {
    SellDownCountsHold(n, l, capacity, allocation, buckets, SellDown(n, SellState(l, Zeros(buckets)), capacity, allocation));
  }

  lemma {:induction false} SellDownCountsHold(n: nat, l: ClassLedger, capacity: int, allocation: map<nat, int>, buckets: nat,
                                              t: SellState)
    requires LedgerValid(l, buckets)
    requires t == SellDown(n, SellState(l, Zeros(buckets)), capacity, allocation)
    ensures CountsAfter(t, l, capacity, allocation, buckets, n)
  {
    SumNonNegative(RoomCaps(allocation, buckets));
    if n > 0 {
      var p := SellDown(n - 1, SellState(l, Zeros(buckets)), capacity, allocation);
      SellDownCountsHold(n - 1, l, capacity, allocation, buckets, p);
      ArrivalStepCounts(p, l, capacity, allocation, buckets, n - 1);
    }
  }

  /** One more arrival keeps `CountsAfter`, with one more arrival counted. */
  lemma ArrivalStepCounts(p: SellState, l: ClassLedger, capacity: int, allocation: map<nat, int>, buckets: nat, n: nat)
    requires Shaped(p, buckets) && CountsAfter(p, l, capacity, allocation, buckets, n)
    requires DailyRoom(allocation, buckets) >= 0
    ensures CountsAfter(ArrivalStep(p, capacity, allocation), l, capacity, allocation, buckets, n + 1)
  {
    var room := RoomCaps(allocation, buckets);
    if Sum(p.ledger.seatsSold) < capacity {
      match FirstWithRoom(p.soldToday, allocation, 0)
      case None =>
        forall i | 0 <= i < buckets
          ensures p.soldToday[i] == room[i]
        {
          assert !HasRoom(p.soldToday, allocation, i);
        }
        assert p.soldToday == room;
      case Some(k) =>
        SaleStepCounts(p, l, capacity, allocation, buckets, n, k);
    }
  }

  /** The sale branch of `ArrivalStepCounts`: a bucket with room gets the seat. */
  lemma SaleStepCounts(p: SellState, l: ClassLedger, capacity: int, allocation: map<nat, int>, buckets: nat, n: nat, k: nat)
    requires Shaped(p, buckets) && CountsAfter(p, l, capacity, allocation, buckets, n)
    requires Sum(p.ledger.seatsSold) < capacity && k < buckets && HasRoom(p.soldToday, allocation, k)
    ensures var t := SellState(p.ledger.(seatsSold := p.ledger.seatsSold[k := p.ledger.seatsSold[k] + 1],
                                         accepted := p.ledger.accepted[k := p.ledger.accepted[k] + 1]),
                               p.soldToday[k := p.soldToday[k] + 1]);
            CountsAfter(t, l, capacity, allocation, buckets, n + 1)
  {
    SumStrictlyBelow(p.soldToday, RoomCaps(allocation, buckets), k);
    SumIncrement(p.soldToday, k);
    SumIncrement(p.ledger.seatsSold, k);
  }

  /** One arrival keeps the counters valid and is counted exactly once. */
  lemma ArrivalStepKeepsValid(p: SellState, capacity: int, allocation: map<nat, int>, buckets: nat)
    requires Shaped(p, buckets) && LedgerValid(p.ledger, buckets)
    ensures var t := ArrivalStep(p, capacity, allocation);
            LedgerValid(t.ledger, buckets) && Handled(t.ledger) == Handled(p.ledger) + 1
  {
    if Sum(p.ledger.seatsSold) < capacity {
      match FirstWithRoom(p.soldToday, allocation, 0)
      case None =>
      case Some(k) => SumIncrement(p.ledger.accepted, k);
    }
  }

  /** n arrivals keep the counters valid and are all counted. */
  lemma {:induction false} SellDownKeepsValid(n: nat, s: SellState, capacity: int, allocation: map<nat, int>, buckets: nat)
    requires Shaped(s, buckets) && LedgerValid(s.ledger, buckets)
    ensures var t := SellDown(n, s, capacity, allocation);
            LedgerValid(t.ledger, buckets) && Handled(t.ledger) == Handled(s.ledger) + n
  {
    if n > 0 {
      var p := SellDown(n - 1, s, capacity, allocation);
      SellDownKeepsValid(n - 1, s, capacity, allocation, buckets);
      ArrivalStepKeepsValid(p, capacity, allocation, buckets);
    }
  }

  /** What happened to one arrival. */
  datatype ArrivalOutcome = RejectedFull | SoldInBucket(bucket: nat) | RejectedNoRoom

  /** One customer of class tc: rejected if the class is full, otherwise sold
      into the lowest-index bucket under today's limit, otherwise rejected. */
  method ProcessArrival(l: ClassLedger, soldToday: seq<int>, revenue: int, capacity: int,
                        buckets: seq<FareBucket>, allocation: map<nat, int>)
    returns (l': ClassLedger, soldToday': seq<int>, revenue': int, outcome: ArrivalOutcome)
    requires |l.seatsSold| == |l.accepted| == |soldToday| == |buckets|
    ensures outcome.RejectedFull? <==> Sum(l.seatsSold) >= capacity
    ensures !outcome.SoldInBucket? ==>
              l' == l.(rejected := l.rejected + 1) && soldToday' == soldToday && revenue' == revenue
    ensures outcome.RejectedNoRoom? ==> forall j :: 0 <= j < |buckets| ==> !HasRoom(soldToday, allocation, j)
    ensures outcome.SoldInBucket? ==>
              var k := outcome.bucket;
              k < |buckets| && HasRoom(soldToday, allocation, k) &&
              (forall j :: 0 <= j < k ==> !HasRoom(soldToday, allocation, j)) &&
              l' == l.(seatsSold := l.seatsSold[k := l.seatsSold[k] + 1], accepted := l.accepted[k := l.accepted[k] + 1]) &&
              soldToday' == soldToday[k := soldToday[k] + 1] &&
              revenue' == revenue + buckets[k].price
    ensures LedgerValid(l, |buckets|) ==> ArrivalEffect(l, soldToday, revenue, capacity, buckets, allocation, l', soldToday', revenue')
    ensures SellState(l', soldToday') == ArrivalStep(SellState(l, soldToday), capacity, allocation)
  {
    l', soldToday', revenue' := l, soldToday, revenue;
    var totalSoldForClass := Sum(l.seatsSold);
    if totalSoldForClass >= capacity {
      l' := l'.(rejected := l'.rejected + 1);
      RejectionEffect(l, soldToday, revenue, capacity, buckets, allocation);
      return l', soldToday', revenue', RejectedFull;
    }
    var soldTicket := false;
    outcome := RejectedNoRoom;
    var i := 0;
    while i < |buckets|
      invariant 0 <= i <= |buckets|
      invariant l' == l && soldToday' == soldToday && revenue' == revenue && !soldTicket
      invariant forall j :: 0 <= j < i ==> !HasRoom(soldToday, allocation, j)
    {
      var bucketLimitForToday := LimitFor(allocation, i);
      var numSoldInBucketToday := soldToday'[i];
      if numSoldInBucketToday < bucketLimitForToday {
        soldToday' := soldToday'[i := soldToday'[i] + 1];
        l' := l'.(seatsSold := l'.seatsSold[i := l'.seatsSold[i] + 1]);
        revenue' := revenue' + buckets[i].price;
        l' := l'.(accepted := l'.accepted[i := l'.accepted[i] + 1]);
        soldTicket := true;
        outcome := SoldInBucket(i);
        SaleEffect(l, soldToday, revenue, capacity, buckets, allocation, i);
        break;
      }
      i := i + 1;
    }
    if !soldTicket {
      l' := l'.(rejected := l'.rejected + 1);
      RejectionEffect(l, soldToday, revenue, capacity, buckets, allocation);
    }
  }

  /** A rejected arrival (class full or no bucket with room) has the effect of
      one arrival that sells nothing. */
  lemma RejectionEffect(l: ClassLedger, soldToday: seq<int>, revenue: int, capacity: int,
                        buckets: seq<FareBucket>, allocation: map<nat, int>)
    requires |l.seatsSold| == |l.accepted| == |soldToday| == |buckets|
    ensures LedgerValid(l, |buckets|) ==>
              ArrivalEffect(l, soldToday, revenue, capacity, buckets, allocation,
                            l.(rejected := l.rejected + 1), soldToday, revenue)
  {
  }

  /** A sale into bucket k, which has room, while the class is under its
      capacity, has the effect of one arrival that sells one seat at k's price. */
  lemma SaleEffect(l: ClassLedger, soldToday: seq<int>, revenue: int, capacity: int,
                   buckets: seq<FareBucket>, allocation: map<nat, int>, k: nat)
    requires |l.seatsSold| == |l.accepted| == |soldToday| == |buckets|
    requires k < |buckets| && HasRoom(soldToday, allocation, k) && Sum(l.seatsSold) < capacity
    ensures LedgerValid(l, |buckets|) ==>
              ArrivalEffect(l, soldToday, revenue, capacity, buckets, allocation,
                            l.(seatsSold := l.seatsSold[k := l.seatsSold[k] + 1], accepted := l.accepted[k := l.accepted[k] + 1]),
                            soldToday[k := soldToday[k] + 1], revenue + buckets[k].price)
  {
    SumIncrement(l.seatsSold, k);
    DotIncrement(Prices(buckets), l.accepted, k);
  }

  /** What one arrival does to the running totals of its class: one more
      customer handled, at most one more seat sold, never past the class's
      capacity once it is reached, never past a bucket's limit for today,
      and revenue up by the price of the seat sold. */
  predicate ArrivalEffect(l: ClassLedger, soldToday: seq<int>, revenue: int, capacity: int,
                          buckets: seq<FareBucket>, allocation: map<nat, int>,
                          l': ClassLedger, soldToday': seq<int>, revenue': int)
    requires |l.seatsSold| == |l.accepted| == |soldToday| == |buckets|
  {
    LedgerValid(l', |buckets|) && |soldToday'| == |buckets| &&
    (forall i :: 0 <= i < |buckets| ==> l'.seatsSold[i] - l.seatsSold[i] == soldToday'[i] - soldToday[i]) &&
    (forall i :: 0 <= i < |buckets| ==>
       soldToday'[i] == soldToday[i] || (soldToday'[i] == soldToday[i] + 1 && soldToday'[i] <= LimitFor(allocation, i))) &&
    Sum(l'.seatsSold) <= Max(Sum(l.seatsSold), capacity) &&
    Handled(l') == Handled(l) + 1 &&
    revenue' - revenue == Dot(Prices(buckets), l'.accepted) - Dot(Prices(buckets), l.accepted)
  }

  /** Where a class stands after n of its arrivals of the day, from counters
      `l` and revenue `revenue` at the start of the day: the counters are
      valid, every bucket has grown by its sales today, which stay within the
      bucket limits, the class total is not pushed past its capacity, all n
      arrivals are counted, revenue has grown by the value of the new
      bookings, and the state is that of `n` steps of the arrival rule. */
  predicate SoldSoFar(l: ClassLedger, revenue: int, capacity: int, buckets: seq<FareBucket>, allocation: map<nat, int>,
                      n: nat, l': ClassLedger, soldToday: seq<int>, revenue': int)
    requires LedgerValid(l, |buckets|)
  {
    LedgerValid(l', |buckets|) && |soldToday| == |buckets| &&
    (forall i :: 0 <= i < |buckets| ==> l'.seatsSold[i] == l.seatsSold[i] + soldToday[i]) &&
    (forall i :: 0 <= i < |buckets| ==> 0 <= soldToday[i] <= Max(0, LimitFor(allocation, i))) &&
    Sum(l'.seatsSold) <= Max(Sum(l.seatsSold), capacity) &&
    Handled(l') == Handled(l) + n &&
    revenue' - revenue == Dot(Prices(buckets), l'.accepted) - Dot(Prices(buckets), l.accepted) &&
    SellState(l', soldToday) == SellDown(n, SellState(l, Zeros(|buckets|)), capacity, allocation)
  }

  /** One more arrival, with its effect, keeps `SoldSoFar` with one more
      arrival counted. */
  lemma SoldSoFarStep(l: ClassLedger, revenue: int, capacity: int, buckets: seq<FareBucket>, allocation: map<nat, int>,
                      n: nat, p: ClassLedger, soldToday: seq<int>, revenue': int,
                      q: ClassLedger, soldToday': seq<int>, revenue'': int)
    requires LedgerValid(l, |buckets|)
    requires SoldSoFar(l, revenue, capacity, buckets, allocation, n, p, soldToday, revenue')
    requires ArrivalEffect(p, soldToday, revenue', capacity, buckets, allocation, q, soldToday', revenue'')
    requires SellState(q, soldToday') == ArrivalStep(SellState(p, soldToday), capacity, allocation)
    ensures SoldSoFar(l, revenue, capacity, buckets, allocation, n + 1, q, soldToday', revenue'')
  {
  }

  /** The arrivals of one class on one day (`for _ in range(daily_arrivals)`),
      starting from a fresh per-day counter. */
  method SellDownClass(l: ClassLedger, revenue: int, capacity: int, buckets: seq<FareBucket>,
                       allocation: map<nat, int>, dailyArrivals: nat)
    returns (l': ClassLedger, soldToday: seq<int>, revenue': int)
    requires LedgerValid(l, |buckets|)
    ensures LedgerValid(l', |buckets|)
    ensures |soldToday| == |buckets|
    ensures forall i :: 0 <= i < |buckets| ==> l'.seatsSold[i] == l.seatsSold[i] + soldToday[i]
    ensures forall i :: 0 <= i < |buckets| ==> 0 <= soldToday[i] <= Max(0, LimitFor(allocation, i))
    ensures Sum(l'.seatsSold) <= Max(Sum(l.seatsSold), capacity)
    ensures Handled(l') == Handled(l) + dailyArrivals
    ensures revenue' - revenue == Dot(Prices(buckets), l'.accepted) - Dot(Prices(buckets), l.accepted)
    ensures SellState(l', soldToday) == SellDown(dailyArrivals, SellState(l, Zeros(|buckets|)), capacity, allocation)
    ensures Sum(soldToday) == Min(dailyArrivals, Min(Max(0, capacity - Sum(l.seatsSold)), DailyRoom(allocation, |buckets|)))
    ensures Sum(l'.seatsSold) == Sum(l.seatsSold) + Sum(soldToday)
  {
    l', revenue' := l, revenue;
    soldToday := Zeros(|buckets|);
    for n := 0 to dailyArrivals
      invariant SoldSoFar(l, revenue, capacity, buckets, allocation, n, l', soldToday, revenue')
    {
      var l'', soldToday', revenue'', outcome := ProcessArrival(l', soldToday, revenue', capacity, buckets, allocation);
      SoldSoFarStep(l, revenue, capacity, buckets, allocation, n, l', soldToday, revenue', l'', soldToday', revenue'');
      l', soldToday, revenue' := l'', soldToday', revenue'';
    }
    SellDownCounts(dailyArrivals, l, capacity, allocation, |buckets|);
  }

  /** Seats each class still has: its capacity less every seat sold to it so far. */
  function RemainingCapacity(capacity: seq<int>, ledgers: seq<ClassLedger>): (r: seq<int>)
    requires |ledgers| == |capacity|
    ensures |r| == |capacity|
  {
    if capacity == [] then []
    else [capacity[0] - Sum(ledgers[0].seatsSold)] + RemainingCapacity(capacity[1..], ledgers[1..])
  }

  /** Entry tc of the remaining capacity is class tc's capacity less the
      seats it has sold in all its buckets. */
  lemma {:induction false} RemainingCapacityAt(capacity: seq<int>, ledgers: seq<ClassLedger>, tc: nat)
    requires |ledgers| == |capacity| && tc < |capacity|
    ensures RemainingCapacity(capacity, ledgers)[tc] == capacity[tc] - Sum(ledgers[tc].seatsSold)
    decreases tc
  {
    if tc > 0 {
      RemainingCapacityAt(capacity[1..], ledgers[1..], tc - 1);
    }
  }

  /** Arrivals of class tc over days `day` down to 1. */
  function ArrivalsThrough(dailyArrivals: (int, nat) -> nat, tc: nat, day: int): nat
  {
    if day <= 0 then 0 else dailyArrivals(day, tc) + ArrivalsThrough(dailyArrivals, tc, day - 1)
  }

  /** No class has sold more than its capacity (or anything, for a
      non-positive capacity). */
  predicate WithinCapacity(capacity: seq<int>, ledgers: seq<ClassLedger>)
  {
    |ledgers| == |capacity| &&
    forall tc :: 0 <= tc < |ledgers| ==> Sum(ledgers[tc].seatsSold) <= Max(0, capacity[tc])
  }

  /** Every class's counters are well formed for its bucket list. */
  predicate LedgersValid(fareStructure: seq<seq<FareBucket>>, ledgers: seq<ClassLedger>)
  {
    |ledgers| == |fareStructure| &&
    forall tc :: 0 <= tc < |ledgers| ==> LedgerValid(ledgers[tc], |fareStructure[tc]|)
  }

  /** Sum over classes of price times accepted bookings, bucket by bucket. */
  function TotalRevenue(fareStructure: seq<seq<FareBucket>>, ledgers: seq<ClassLedger>): int
    requires LedgersValid(fareStructure, ledgers)
  {
    if ledgers == [] then 0
    else Dot(Prices(fareStructure[0]), ledgers[0].accepted) + TotalRevenue(fareStructure[1..], ledgers[1..])
  }

  /** Replacing one class's counters changes total revenue by that class's
      change alone. */
  lemma {:induction false} TotalRevenueUpdate(fareStructure: seq<seq<FareBucket>>, ledgers: seq<ClassLedger>, tc: nat, l: ClassLedger)
    requires LedgersValid(fareStructure, ledgers) && tc < |ledgers|
    requires LedgerValid(l, |fareStructure[tc]|)
    ensures LedgersValid(fareStructure, ledgers[tc := l])
    ensures TotalRevenue(fareStructure, ledgers[tc := l]) ==
            TotalRevenue(fareStructure, ledgers) + Dot(Prices(fareStructure[tc]), l.accepted)
            - Dot(Prices(fareStructure[tc]), ledgers[tc].accepted)
  {
    if tc > 0 {
      assert ledgers[tc := l][1..] == ledgers[1..][tc - 1 := l];
      TotalRevenueUpdate(fareStructure[1..], ledgers[1..], tc - 1, l);
    }
  }

  /** Every class's counters have one entry per bucket of that class. */
  predicate LedgersShaped(fareStructure: seq<seq<FareBucket>>, ledgers: seq<ClassLedger>)
  {
    |ledgers| == |fareStructure| &&
    forall tc :: 0 <= tc < |ledgers| ==>
      |ledgers[tc].seatsSold| == |fareStructure[tc]| && |ledgers[tc].accepted| == |fareStructure[tc]|
  }

  lemma ValidIsShaped(fareStructure: seq<seq<FareBucket>>, ledgers: seq<ClassLedger>)
    requires LedgersValid(fareStructure, ledgers)
    ensures LedgersShaped(fareStructure, ledgers)
  {
  }

  /** The counters at the start of the window: all zero. */
  function InitialLedgers(fareStructure: seq<seq<FareBucket>>): (r: seq<ClassLedger>)
    ensures |r| == |fareStructure|
  {
    if fareStructure == [] then []
    else [EmptyLedger(|fareStructure[0]|)] + InitialLedgers(fareStructure[1..])
  }

  /** Every class starts with an empty ledger: valid, nothing sold, nothing
      handled. */
  lemma {:induction false} InitialLedgersAt(fareStructure: seq<seq<FareBucket>>)
    ensures var r := InitialLedgers(fareStructure);
            LedgersValid(fareStructure, r) &&
            forall tc :: 0 <= tc < |r| ==> r[tc] == EmptyLedger(|fareStructure[tc]|)
  {
    if fareStructure != [] {
      InitialLedgersAt(fareStructure[1..]);
    }
  }

  /** Class c's counters after its sell-down on `day`, with the allocation
      the engine gives for the capacity `remaining` at the start of the day.
      The classes of a day do not interact: each sees only its own counters
      and its own part of the allocation. */
  function ClassAfterDay(day: int, remaining: seq<int>, capacity: seq<int>, fareStructure: seq<seq<FareBucket>>,
                         start: seq<ClassLedger>, engine: (seq<int>, int, nat) -> map<nat, int>,
                         dailyArrivals: (int, nat) -> nat, c: nat): (r: ClassLedger)
    requires LedgersShaped(fareStructure, start) && |capacity| == |start| && c < |start|
    ensures |r.seatsSold| == |fareStructure[c]| && |r.accepted| == |fareStructure[c]|
  {
    SellDown(dailyArrivals(day, c), SellState(start[c], Zeros(|fareStructure[c]|)), capacity[c], engine(remaining, day, c)).ledger
  }

  /** The counters once classes 0 to k-1 of `day` have sold down. */
  function DayLedgers(day: int, remaining: seq<int>, capacity: seq<int>, fareStructure: seq<seq<FareBucket>>,
                      start: seq<ClassLedger>, engine: (seq<int>, int, nat) -> map<nat, int>,
                      dailyArrivals: (int, nat) -> nat, k: nat): (r: seq<ClassLedger>)
    requires |capacity| == |start| && k <= |start| && |start| <= |fareStructure|
    ensures |r| == |start|
  {
    if k == 0 then start
    else
      var done := DayLedgers(day, remaining, capacity, fareStructure, start, engine, dailyArrivals, k - 1);
      var c := k - 1;
      if |done[c].seatsSold| == |fareStructure[c]| && |done[c].accepted| == |fareStructure[c]| then
        done[c := SellDown(dailyArrivals(day, c), SellState(done[c], Zeros(|fareStructure[c]|)), capacity[c], engine(remaining, day, c)).ledger]
      else done
  }

  /** Classes below k hold their counters after the day, the others are as
      they started. */
  lemma {:induction false} DayLedgersAt(day: int, remaining: seq<int>, capacity: seq<int>, fareStructure: seq<seq<FareBucket>>,
                                        start: seq<ClassLedger>, engine: (seq<int>, int, nat) -> map<nat, int>,
                                        dailyArrivals: (int, nat) -> nat, k: nat)
    requires LedgersShaped(fareStructure, start) && |capacity| == |start| && k <= |start|
    ensures var r := DayLedgers(day, remaining, capacity, fareStructure, start, engine, dailyArrivals, k);
            forall c :: 0 <= c < |r| ==>
              r[c] == if c < k then ClassAfterDay(day, remaining, capacity, fareStructure, start, engine, dailyArrivals, c)
                      else start[c]
  {
    if k > 0 {
      DayLedgersAt(day, remaining, capacity, fareStructure, start, engine, dailyArrivals, k - 1);
      var prev := DayLedgers(day, remaining, capacity, fareStructure, start, engine, dailyArrivals, k - 1);
      assert prev[k - 1] == start[k - 1];
    }
  }

  /** A sequence that agrees class by class with the counters after the
      whole day is those counters. */
  lemma DayLedgersPointwise(day: int, remaining: seq<int>, capacity: seq<int>, fareStructure: seq<seq<FareBucket>>,
                            start: seq<ClassLedger>, engine: (seq<int>, int, nat) -> map<nat, int>,
                            dailyArrivals: (int, nat) -> nat, ledgers: seq<ClassLedger>)
    requires LedgersShaped(fareStructure, start) && |capacity| == |start| && |ledgers| == |start|
    requires forall c :: 0 <= c < |ledgers| ==>
               ledgers[c] == ClassAfterDay(day, remaining, capacity, fareStructure, start, engine, dailyArrivals, c)
    ensures ledgers == DayLedgers(day, remaining, capacity, fareStructure, start, engine, dailyArrivals, |start|)
  {
    DayLedgersAt(day, remaining, capacity, fareStructure, start, engine, dailyArrivals, |start|);
  }

  /** A class's day keeps its counters valid and within its capacity, and
      deals with every one of its arrivals. */
  lemma ClassDayFacts(day: int, remaining: seq<int>, capacity: seq<int>, fareStructure: seq<seq<FareBucket>>,
                      start: seq<ClassLedger>, engine: (seq<int>, int, nat) -> map<nat, int>,
                      dailyArrivals: (int, nat) -> nat, c: nat)
    requires LedgersValid(fareStructure, start) && WithinCapacity(capacity, start) && c < |start|
    ensures LedgersShaped(fareStructure, start)
    ensures var r := ClassAfterDay(day, remaining, capacity, fareStructure, start, engine, dailyArrivals, c);
            LedgerValid(r, |fareStructure[c]|) && Sum(r.seatsSold) <= Max(0, capacity[c]) &&
            Handled(r) == Handled(start[c]) + dailyArrivals(day, c)
  {
    ValidIsShaped(fareStructure, start);
    var s := SellState(start[c], Zeros(|fareStructure[c]|));
    SellDownKeepsValid(dailyArrivals(day, c), s, capacity[c], engine(remaining, day, c), |fareStructure[c]|);
    SellDownCounts(dailyArrivals(day, c), start[c], capacity[c], engine(remaining, day, c), |fareStructure[c]|);
  }

  /** Seats class tc sells on a day that starts from `ledgers`: its arrivals,
      capped by the seats left in the class and by the room the engine gives
      its buckets. */
  function ClassDaySales(day: int, remaining: seq<int>, capacity: seq<int>, fareStructure: seq<seq<FareBucket>>,
                         ledgers: seq<ClassLedger>, engine: (seq<int>, int, nat) -> map<nat, int>,
                         dailyArrivals: (int, nat) -> nat, tc: nat): int
    requires tc < |capacity| == |ledgers| && tc < |fareStructure|
  {
    Min(dailyArrivals(day, tc),
        Min(Max(0, capacity[tc] - Sum(ledgers[tc].seatsSold)),
            DailyRoom(engine(remaining, day, tc), |fareStructure[tc]|)))
  }

  /** On a day, each class sells its arrivals up to the seats it has left
      and the room the engine gives its buckets, whatever the other classes
      do. */
  lemma DaySales(day: int, remaining: seq<int>, capacity: seq<int>, fareStructure: seq<seq<FareBucket>>,
                 start: seq<ClassLedger>, engine: (seq<int>, int, nat) -> map<nat, int>,
                 dailyArrivals: (int, nat) -> nat, tc: nat)
    requires LedgersValid(fareStructure, start) && |capacity| == |start| && tc < |start|
    ensures LedgersShaped(fareStructure, start)
    ensures Sum(ClassAfterDay(day, remaining, capacity, fareStructure, start, engine, dailyArrivals, tc).seatsSold) ==
            Sum(start[tc].seatsSold) + ClassDaySales(day, remaining, capacity, fareStructure, start, engine, dailyArrivals, tc)
  {
    ValidIsShaped(fareStructure, start);
    SellDownCounts(dailyArrivals(day, tc), start[tc], capacity[tc], engine(remaining, day, tc), |fareStructure[tc]|);
  }

  /** A whole day keeps the counters valid and every class within its
      capacity, and each class deals with exactly that day's arrivals. */
  lemma DayLedgersFacts(day: int, remaining: seq<int>, capacity: seq<int>, fareStructure: seq<seq<FareBucket>>,
                        start: seq<ClassLedger>, engine: (seq<int>, int, nat) -> map<nat, int>,
                        dailyArrivals: (int, nat) -> nat)
    requires LedgersValid(fareStructure, start) && WithinCapacity(capacity, start)
    ensures LedgersShaped(fareStructure, start)
    ensures var r := DayLedgers(day, remaining, capacity, fareStructure, start, engine, dailyArrivals, |start|);
            LedgersValid(fareStructure, r) && WithinCapacity(capacity, r) &&
            forall tc :: 0 <= tc < |r| ==> Handled(r[tc]) == Handled(start[tc]) + dailyArrivals(day, tc)
  {
    ValidIsShaped(fareStructure, start);
    DayLedgersAt(day, remaining, capacity, fareStructure, start, engine, dailyArrivals, |start|);
    forall c | 0 <= c < |start|
      ensures var r := ClassAfterDay(day, remaining, capacity, fareStructure, start, engine, dailyArrivals, c);
              LedgerValid(r, |fareStructure[c]|) && Sum(r.seatsSold) <= Max(0, capacity[c]) &&
              Handled(r) == Handled(start[c]) + dailyArrivals(day, c)
    {
      ClassDayFacts(day, remaining, capacity, fareStructure, start, engine, dailyArrivals, c);
    }
  }

  /** The counters once days `windowDays` down to `day + 1` have been run. */
  function LedgersBefore(day: int, windowDays: int, capacity: seq<int>, fareStructure: seq<seq<FareBucket>>,
                         engine: (seq<int>, int, nat) -> map<nat, int>, dailyArrivals: (int, nat) -> nat): (r: seq<ClassLedger>)
    requires |capacity| == |fareStructure|
    ensures |r| == |fareStructure|
    decreases windowDays - day
  {
    if day >= windowDays then InitialLedgers(fareStructure)
    else
      var before := LedgersBefore(day + 1, windowDays, capacity, fareStructure, engine, dailyArrivals);
      DayLedgers(day + 1, RemainingCapacity(capacity, before), capacity, fareStructure, before, engine, dailyArrivals, |capacity|)
  }

  /** Over any stretch of the window the counters stay valid and every class
      within its capacity. */
  lemma {:induction false} LedgersBeforeValid(day: int, windowDays: int, capacity: seq<int>, fareStructure: seq<seq<FareBucket>>,
                                              engine: (seq<int>, int, nat) -> map<nat, int>, dailyArrivals: (int, nat) -> nat)
    requires |capacity| == |fareStructure|
    ensures var r := LedgersBefore(day, windowDays, capacity, fareStructure, engine, dailyArrivals);
            LedgersValid(fareStructure, r) && WithinCapacity(capacity, r)
    decreases windowDays - day
  {
    if day >= windowDays {
      InitialLedgersAt(fareStructure);
    } else {
      var before := LedgersBefore(day + 1, windowDays, capacity, fareStructure, engine, dailyArrivals);
      LedgersBeforeValid(day + 1, windowDays, capacity, fareStructure, engine, dailyArrivals);
      DayLedgersFacts(day + 1, RemainingCapacity(capacity, before), capacity, fareStructure, before, engine, dailyArrivals);
    }
  }

  /** The window starts from empty counters, which earn nothing; when the
      window has no day to run they are also its final counters (a
      `range` from a non-positive start down to 0 is empty). */
  lemma WindowStart(windowDays: int, capacity: seq<int>, fareStructure: seq<seq<FareBucket>>,
                    engine: (seq<int>, int, nat) -> map<nat, int>, dailyArrivals: (int, nat) -> nat)
    requires |capacity| == |fareStructure|
    ensures var r := InitialLedgers(fareStructure);
            LedgersValid(fareStructure, r) && TotalRevenue(fareStructure, r) == 0 &&
            r == LedgersBefore(Max(windowDays, 0), windowDays, capacity, fareStructure, engine, dailyArrivals)
  {
    InitialLedgersAt(fareStructure);
    ZeroRevenue(fareStructure, InitialLedgers(fareStructure));
  }

  /** Over any stretch of the window class tc has dealt with exactly the
      arrivals of the days run. */
  lemma {:induction false} LedgersBeforeHandled(day: int, windowDays: int, capacity: seq<int>, fareStructure: seq<seq<FareBucket>>,
                                                engine: (seq<int>, int, nat) -> map<nat, int>, dailyArrivals: (int, nat) -> nat,
                                                ledgers: seq<ClassLedger>, tc: nat)
    requires |capacity| == |fareStructure| && 0 <= day <= Max(windowDays, 0) && tc < |capacity|
    requires ledgers == LedgersBefore(day, windowDays, capacity, fareStructure, engine, dailyArrivals)
    ensures Handled(ledgers[tc]) == ArrivalsThrough(dailyArrivals, tc, windowDays) - ArrivalsThrough(dailyArrivals, tc, day)
    decreases windowDays - day
  {
    if day >= windowDays {
      InitialLedgersAt(fareStructure);
    } else {
      var before := LedgersBefore(day + 1, windowDays, capacity, fareStructure, engine, dailyArrivals);
      LedgersBeforeHandled(day + 1, windowDays, capacity, fareStructure, engine, dailyArrivals, before, tc);
      HandledDayStep(day, windowDays, capacity, fareStructure, engine, dailyArrivals, before, ledgers, tc);
    }
  }

  /** After the whole window every class's counters are valid, within its
      capacity, and have dealt with every arrival drawn for it. */
  lemma WindowOutcome(day: int, windowDays: int, capacity: seq<int>, fareStructure: seq<seq<FareBucket>>,
                      engine: (seq<int>, int, nat) -> map<nat, int>, dailyArrivals: (int, nat) -> nat, ledgers: seq<ClassLedger>)
    requires |capacity| == |fareStructure| && day == 0
    requires ledgers == LedgersBefore(day, windowDays, capacity, fareStructure, engine, dailyArrivals)
    ensures ledgers == LedgersBefore(0, windowDays, capacity, fareStructure, engine, dailyArrivals)
    ensures LedgersValid(fareStructure, ledgers)
    ensures forall tc :: 0 <= tc < |ledgers| ==> Sum(ledgers[tc].seatsSold) <= Max(0, capacity[tc])
    ensures forall tc :: 0 <= tc < |ledgers| ==> Handled(ledgers[tc]) == ArrivalsThrough(dailyArrivals, tc, windowDays)
  {
    LedgersBeforeValid(0, windowDays, capacity, fareStructure, engine, dailyArrivals);
    forall tc | 0 <= tc < |ledgers|
      ensures Handled(ledgers[tc]) == ArrivalsThrough(dailyArrivals, tc, windowDays)
    {
      LedgersBeforeHandled(0, windowDays, capacity, fareStructure, engine, dailyArrivals, ledgers, tc);
    }
  }

  /** Running day `day` on the counters before it gives the counters before
      the next day down. */
  lemma LedgersBeforeStep(day: int, windowDays: int, capacity: seq<int>, fareStructure: seq<seq<FareBucket>>,
                          engine: (seq<int>, int, nat) -> map<nat, int>, dailyArrivals: (int, nat) -> nat,
                          before: seq<ClassLedger>, after: seq<ClassLedger>)
    requires |capacity| == |fareStructure| && 0 < day <= windowDays
    requires before == LedgersBefore(day, windowDays, capacity, fareStructure, engine, dailyArrivals)
    requires after == DayLedgers(day, RemainingCapacity(capacity, before), capacity, fareStructure, before, engine, dailyArrivals, |capacity|)
    ensures after == LedgersBefore(day - 1, windowDays, capacity, fareStructure, engine, dailyArrivals)
  {
  }

  /** Running day `day + 1` adds that day's arrivals of class tc to what
      the class has dealt with, so the arrivals dealt with grow from those
      of the days after `day + 1` to those of the days after `day`. */
  lemma HandledDayStep(day: int, windowDays: int, capacity: seq<int>, fareStructure: seq<seq<FareBucket>>,
                       engine: (seq<int>, int, nat) -> map<nat, int>, dailyArrivals: (int, nat) -> nat,
                       before: seq<ClassLedger>, after: seq<ClassLedger>, tc: nat)
    requires |capacity| == |fareStructure| && 0 <= day < windowDays && tc < |capacity|
    requires before == LedgersBefore(day + 1, windowDays, capacity, fareStructure, engine, dailyArrivals)
    requires after == LedgersBefore(day, windowDays, capacity, fareStructure, engine, dailyArrivals)
    requires Handled(before[tc]) == ArrivalsThrough(dailyArrivals, tc, windowDays) - ArrivalsThrough(dailyArrivals, tc, day + 1)
    ensures Handled(after[tc]) == ArrivalsThrough(dailyArrivals, tc, windowDays) - ArrivalsThrough(dailyArrivals, tc, day)
  {
    LedgersBeforeValid(day + 1, windowDays, capacity, fareStructure, engine, dailyArrivals);
    DayHandled(day + 1, RemainingCapacity(capacity, before), capacity, fareStructure, before, engine, dailyArrivals, tc);
  }

  lemma DayHandled(day: int, remaining: seq<int>, capacity: seq<int>, fareStructure: seq<seq<FareBucket>>,
                   start: seq<ClassLedger>, engine: (seq<int>, int, nat) -> map<nat, int>,
                   dailyArrivals: (int, nat) -> nat, tc: nat)
    requires LedgersValid(fareStructure, start) && |capacity| == |start| && tc < |start|
    ensures Handled(DayLedgers(day, remaining, capacity, fareStructure, start, engine, dailyArrivals, |start|)[tc]) ==
            Handled(start[tc]) + dailyArrivals(day, tc)
  {
    ValidIsShaped(fareStructure, start);
    DayLedgersClass(day, remaining, capacity, fareStructure, start, engine, dailyArrivals, tc);
    SellDownKeepsValid(dailyArrivals(day, tc), SellState(start[tc], Zeros(|fareStructure[tc]|)), capacity[tc],
                       engine(remaining, day, tc), |fareStructure[tc]|);
  }

  lemma DayLedgersClass(day: int, remaining: seq<int>, capacity: seq<int>, fareStructure: seq<seq<FareBucket>>,
                        start: seq<ClassLedger>, engine: (seq<int>, int, nat) -> map<nat, int>,
                        dailyArrivals: (int, nat) -> nat, c: nat)
    requires LedgersShaped(fareStructure, start) && |capacity| == |start| && c < |start|
    ensures DayLedgers(day, remaining, capacity, fareStructure, start, engine, dailyArrivals, |start|)[c] ==
            ClassAfterDay(day, remaining, capacity, fareStructure, start, engine, dailyArrivals, c)
  {
    DayLedgersAt(day, remaining, capacity, fareStructure, start, engine, dailyArrivals, |start|);
  }

  /** One day of the outer loop: the remaining capacity goes to the engine,
      then each class in turn sells down its arrivals. */
  method RunDay(day: int, ghost windowDays: int, capacity: seq<int>, fareStructure: seq<seq<FareBucket>>,
                ledgers: seq<ClassLedger>, totalRevenue: int,
                engine: (seq<int>, int, nat) -> map<nat, int>, dailyArrivals: (int, nat) -> nat)
    returns (ledgers': seq<ClassLedger>, totalRevenue': int)
    requires LedgersValid(fareStructure, ledgers) && |ledgers| == |capacity| && 0 < day <= windowDays
    requires ledgers == LedgersBefore(day, windowDays, capacity, fareStructure, engine, dailyArrivals)
    requires totalRevenue == TotalRevenue(fareStructure, ledgers)
    ensures LedgersValid(fareStructure, ledgers')
    ensures totalRevenue' == TotalRevenue(fareStructure, ledgers')
    ensures ledgers' == LedgersBefore(day - 1, windowDays, capacity, fareStructure, engine, dailyArrivals)
  {
    ValidIsShaped(fareStructure, ledgers);
    var remainingCapacity := RemainingCapacity(capacity, ledgers);
    ledgers', totalRevenue' := ledgers, totalRevenue;
    var tc := 0;
    while tc < |capacity|
      invariant 0 <= tc <= |capacity|
      invariant LedgersValid(fareStructure, ledgers')
      invariant totalRevenue' == TotalRevenue(fareStructure, ledgers')
      invariant forall c :: 0 <= c < |ledgers'| ==>
                  ledgers'[c] == if c < tc then ClassAfterDay(day, remainingCapacity, capacity, fareStructure, ledgers, engine, dailyArrivals, c)
                                 else ledgers[c]
    {
      var allocation := engine(remainingCapacity, day, tc);
      var l, soldToday, revenue := SellDownClass(ledgers'[tc], totalRevenue', capacity[tc], fareStructure[tc],
                                                 allocation, dailyArrivals(day, tc));
      TotalRevenueUpdate(fareStructure, ledgers', tc, l);
      ledgers' := ledgers'[tc := l];
      totalRevenue' := revenue;
      tc := tc + 1;
    }
    DayLedgersPointwise(day, remainingCapacity, capacity, fareStructure, ledgers, engine, dailyArrivals, ledgers');
    LedgersBeforeStep(day, windowDays, capacity, fareStructure, engine, dailyArrivals, ledgers, ledgers');
  }

  /** `run_dynamic_simulation` with the engine and the Poisson draws as
      inputs: `engine(remaining, day, tc)` is the class-tc part of the
      allocation returned for that day, `dailyArrivals(day, tc)` the draw.
      Returns the final counters and revenue that the source prints. */
  method RunDynamicSimulation(windowDays: int, capacity: seq<int>, fareStructure: seq<seq<FareBucket>>,
                              engine: (seq<int>, int, nat) -> map<nat, int>, dailyArrivals: (int, nat) -> nat)
    returns (ledgers: seq<ClassLedger>, totalRevenue: int)
    requires |capacity| == |fareStructure|
    ensures LedgersValid(fareStructure, ledgers)
    ensures forall tc :: 0 <= tc < |ledgers| ==> Sum(ledgers[tc].seatsSold) <= Max(0, capacity[tc])
    ensures forall tc :: 0 <= tc < |ledgers| ==> Handled(ledgers[tc]) == ArrivalsThrough(dailyArrivals, tc, windowDays)
    ensures totalRevenue == TotalRevenue(fareStructure, ledgers)
    ensures ledgers == LedgersBefore(0, windowDays, capacity, fareStructure, engine, dailyArrivals)
  {
    ledgers := InitialLedgers(fareStructure);
    WindowStart(windowDays, capacity, fareStructure, engine, dailyArrivals);
    totalRevenue := 0;
    var day := Max(windowDays, 0);
    while day > 0
      invariant 0 <= day <= Max(windowDays, 0)
      invariant LedgersValid(fareStructure, ledgers)
      invariant totalRevenue == TotalRevenue(fareStructure, ledgers)
      invariant ledgers == LedgersBefore(day, windowDays, capacity, fareStructure, engine, dailyArrivals)
    {
      ledgers, totalRevenue := RunDay(day, windowDays, capacity, fareStructure, ledgers, totalRevenue, engine, dailyArrivals);
      day := day - 1;
    }
    WindowOutcome(day, windowDays, capacity, fareStructure, engine, dailyArrivals, ledgers);
  }

  lemma {:induction false} ZeroRevenue(fareStructure: seq<seq<FareBucket>>, ledgers: seq<ClassLedger>)
    requires LedgersValid(fareStructure, ledgers)
    requires forall tc :: 0 <= tc < |ledgers| ==> ledgers[tc].accepted == Zeros(|fareStructure[tc]|)
    ensures TotalRevenue(fareStructure, ledgers) == 0
  {
    if ledgers != [] {
      DotOfZeros(Prices(fareStructure[0]));
      ZeroRevenue(fareStructure[1..], ledgers[1..]);
    }
  }

  lemma {:induction false} DotOfZeros(prices: seq<int>)
    ensures Dot(prices, Zeros(|prices|)) == 0
  {
    if prices != [] {
      assert Zeros(|prices|)[1..] == Zeros(|prices| - 1);
      DotOfZeros(prices[1..]);
    }
  }
}
