/** Scoring and ranking of candidate tickets against the traveller's needs, and the two
    lookup tables the candidate generator uses. */
module DataProcessor {
  import opened Wrappers
  import opened TicketData
  import opened UserNeeds

  /** Python truthiness of an optional price: absent or zero counts as unset. */
  predicate IsSet(bound: Option<real>) {
    bound.Some? && bound.value != 0.0
  }

  /** Python truthiness of an optional whole number: absent or zero counts as unset. */
  predicate IsSetInt(bound: Option<int>) {
    bound.Some? && bound.value != 0
  }

  /** A seat preference counts only when it is present and non-empty. */
  predicate SeatPreferenceSet(needs: Needs) {
    needs.preferredSeatClasses.Some? && |needs.preferredSeatClasses.value| > 0
  }

  /** A budget the scoring rules can bound: no bound below zero. */
  predicate NonNegativeBudget(budget: BudgetRange) {
    (budget.minPrice.Some? ==> budget.minPrice.value >= 0.0)
    && (budget.maxPrice.Some? ==> budget.maxPrice.value >= 0.0)
  }

  /** Python's `max(0, x)`. */
  function Floor0(x: real): (r: real)
    ensures r >= 0.0 && r >= x && (r == x || r == 0.0)
  {
    if x > 0.0 then x else 0.0
  }

  /** One scoring factor: name, description, weight and factor score. */
  datatype Factor = Factor(name: string, description: string, weight: real, score: real)

  /** A ticket with its total score and the six factors behind it. */
  datatype ScoredTicket = ScoredTicket(ticket: Ticket, total: real, factors: seq<Factor>)

  const TransportWeight: real := 0.15
  const SeatWeight: real := 0.1
  const PriceWeight: real := 0.2
  const TimeWeight: real := 0.25
  const DurationWeight: real := 0.15
  const AvailabilityWeight: real := 0.15

  /** 100 for a preferred mode of transport, 50 otherwise. */
  function TransportFactor(t: Ticket, needs: Needs): (r: real)
    ensures r == 100.0 <==> t.transportType in needs.preferredTransportTypes
    ensures r == 100.0 || r == 50.0
  {
    if t.transportType in needs.preferredTransportTypes then 100.0 else 50.0
  }

  /** 100 when no seat preference is set or the class is preferred, 60 otherwise. */
  function SeatFactor(t: Ticket, needs: Needs): (r: real)
    ensures r == 100.0 <==> !SeatPreferenceSet(needs) || t.seatClass in needs.preferredSeatClasses.value
    ensures r == 100.0 || r == 60.0
  {
    if SeatPreferenceSet(needs) then
      (if t.seatClass in needs.preferredSeatClasses.value then 100.0 else 60.0)
    else 100.0
  }

  /** The price factor. Above a set maximum it loses 100 points per 100% over the maximum;
      below a set minimum 50 points per 100% under, and that rule, applied second, wins. */
  function PriceFactor(price: real, budget: BudgetRange): (r: real)
    ensures r >= 0.0
    ensures NonNegativeBudget(budget) ==> r <= 100.0
    ensures NonNegativeBudget(budget) ==>
      (r == 100.0 <==> !(IsSet(budget.maxPrice) && price > budget.maxPrice.value)
                       && !(IsSet(budget.minPrice) && price < budget.minPrice.value))
  {
    var afterMax :=
      if IsSet(budget.maxPrice) && price > budget.maxPrice.value then
        var max := budget.maxPrice.value;
        Floor0(100.0 - (price - max) / max * 100.0)
      else 100.0;
    if IsSet(budget.minPrice) && price < budget.minPrice.value then
      var min := budget.minPrice.value;
      Floor0(100.0 - (min - price) / min * 50.0)
    else afterMax
  }

  /** The departure-time factor: 100 inside the window or when either end is missing,
      otherwise 5 points lost per hour outside, never below 0. */
  function TimeFactor(departure: Instant, window: TimeRange): (r: real)
    ensures 0.0 <= r <= 100.0
    ensures r == 100.0 <==>
      window.startTime.None? || window.endTime.None?
      || window.startTime.value.minutes <= departure.minutes <= window.endTime.value.minutes
  {
    if window.startTime.Some? && window.endTime.Some? then
      var start, end := window.startTime.value.minutes, window.endTime.value.minutes;
      if departure.minutes < start then
        Floor0(100.0 - (start - departure.minutes) as real / 60.0 * 5.0)
      else if departure.minutes > end then
        Floor0(100.0 - (departure.minutes - end) as real / 60.0 * 5.0)
      else 100.0
    else 100.0
  }

  /** The duration factor: 100 within a set maximum (or with none set), otherwise 10 points
      lost per hour over, never below 0. */
  function DurationFactor(durationMinutes: int, maxDuration: Option<int>): (r: real)
    ensures 0.0 <= r <= 100.0
    ensures r == 100.0 <==> !(IsSetInt(maxDuration) && durationMinutes > maxDuration.value)
  {
    if IsSetInt(maxDuration) && durationMinutes > maxDuration.value then
      Floor0(100.0 - (durationMinutes - maxDuration.value) as real / 60.0 * 10.0)
    else 100.0
  }

  /** The availability factor: 10 points per free seat up to 100; 0 without free seats. */
  function AvailabilityFactor(availableSeats: int): (r: real)
    ensures 0.0 <= r <= 100.0
    ensures r == 0.0 <==> availableSeats <= 0
    ensures r == 100.0 <==> availableSeats >= 10
  {
    if availableSeats > 0 then
      (if availableSeats * 10 < 100 then (availableSeats * 10) as real else 100.0)
    else 0.0
  }

  /** More free seats never lower the availability factor. */
  lemma AvailabilityMonotone(fewer: int, more: int)
    requires fewer <= more
    ensures AvailabilityFactor(fewer) <= AvailabilityFactor(more)
  {
  }

  /** The six factors of a ticket, in their fixed order with their fixed weights. */
  function Factors(t: Ticket, needs: Needs): seq<Factor> {
    SixFactors(TransportFactor(t, needs), SeatFactor(t, needs), PriceFactor(t.price, needs.budget),
               TimeFactor(t.departureTime, needs.departureTimeRange),
               DurationFactor(t.durationMinutes, needs.maxDurationMinutes),
               AvailabilityFactor(t.availableSeats))
  }

  /** The factor list built from the six factor scores. */
  function SixFactors(transport: real, seat: real, price: real, time: real, duration: real,
                      availability: real): seq<Factor>
  {
    [ Factor("transport_type", "交通方式偏好匹配度", TransportWeight, transport),
      Factor("seat_class", "座位等级匹配度", SeatWeight, seat),
      Factor("price", "价格符合度", PriceWeight, price),
      Factor("departure_time", "出发时间符合度", TimeWeight, time),
      Factor("duration", "行程时间合理性", DurationWeight, duration),
      Factor("availability", "座位可用性", AvailabilityWeight, availability) ]
  }

  /** The sum of weight times factor score, accumulated from the first factor on. */
  function WeightedTotal(factors: seq<Factor>): real {
    if factors == [] then 0.0
    else WeightedTotal(factors[..|factors| - 1])
         + factors[|factors| - 1].weight * factors[|factors| - 1].score
  }

  function WeightSum(factors: seq<Factor>): real {
    if factors == [] then 0.0 else WeightSum(factors[..|factors| - 1]) + factors[|factors| - 1].weight
  }

  /** The factor names in the order every scored ticket lists them. */
  const FactorNames: seq<string> :=
    ["transport_type", "seat_class", "price", "departure_time", "duration", "availability"]

  /** Every ticket gets the same six factors in the same order, their weights
      0.15, 0.1, 0.2, 0.25, 0.15, 0.15 sum to 1, and the total is the weighted sum of the
      six factor scores. */
  lemma {:induction false} SixFactorsShape(transport: real, seat: real, price: real, time: real,
                                           duration: real, availability: real)
    ensures var fs := SixFactors(transport, seat, price, time, duration, availability);
      && |fs| == 6
      && (forall i :: 0 <= i < 6 ==> fs[i].name == FactorNames[i])
      && WeightSum(fs) == 1.0
      && WeightedTotal(fs) == 0.15 * transport + 0.1 * seat + 0.2 * price + 0.25 * time
                              + 0.15 * duration + 0.15 * availability
  {
    var fs := SixFactors(transport, seat, price, time, duration, availability);
    for k := 0 to 6
      invariant WeightSum(fs[..k]) == PrefixWeight(k)
      invariant WeightedTotal(fs[..k]) == PrefixTotal(fs, k)
    {
      assert fs[..k + 1][..k] == fs[..k];
    }
    assert fs[..6] == fs;
  }

  /** The sum of the first `k` fixed weights. */
  function PrefixWeight(k: nat): real
    requires k <= 6
  {
    [0.0, 0.15, 0.25, 0.45, 0.7, 0.85, 1.0][k]
  }

  /** The weighted sum of the first `k` of six factors, term by term. */
  function PrefixTotal(fs: seq<Factor>, k: nat): real
    requires k <= |fs| == 6
  {
    (if k > 0 then fs[0].weight * fs[0].score else 0.0)
    + (if k > 1 then fs[1].weight * fs[1].score else 0.0)
    + (if k > 2 then fs[2].weight * fs[2].score else 0.0)
    + (if k > 3 then fs[3].weight * fs[3].score else 0.0)
    + (if k > 4 then fs[4].weight * fs[4].score else 0.0)
    + (if k > 5 then fs[5].weight * fs[5].score else 0.0)
  }

  /** The total of a ticket is the weighted sum of its six factor scores. */
  lemma TotalFormula(t: Ticket, needs: Needs)
    ensures WeightedTotal(Factors(t, needs)) ==
      0.15 * TransportFactor(t, needs) + 0.1 * SeatFactor(t, needs)
      + 0.2 * PriceFactor(t.price, needs.budget)
      + 0.25 * TimeFactor(t.departureTime, needs.departureTimeRange)
      + 0.15 * DurationFactor(t.durationMinutes, needs.maxDurationMinutes)
      + 0.15 * AvailabilityFactor(t.availableSeats)
  {
    SixFactorsShape(TransportFactor(t, needs), SeatFactor(t, needs), PriceFactor(t.price, needs.budget),
                    TimeFactor(t.departureTime, needs.departureTimeRange),
                    DurationFactor(t.durationMinutes, needs.maxDurationMinutes),
                    AvailabilityFactor(t.availableSeats));
  }

  /** With non-negative weights and factor scores in [0, 100], the total lies between 0
      and 100 times the weight sum. */
  lemma {:induction false} WeightedTotalBounds(factors: seq<Factor>)
    requires forall i :: 0 <= i < |factors| ==> factors[i].weight >= 0.0
    requires forall i :: 0 <= i < |factors| ==> 0.0 <= factors[i].score <= 100.0
    ensures 0.0 <= WeightedTotal(factors) <= 100.0 * WeightSum(factors)
  {
    if factors != [] {
      var prefix, last := factors[..|factors| - 1], factors[|factors| - 1];
      assert forall i :: 0 <= i < |prefix| ==> prefix[i] == factors[i];
      WeightedTotalBounds(prefix);
      ProductBounds(last.weight, last.score);
      assert 0.0 <= WeightedTotal(prefix) <= 100.0 * WeightSum(prefix);
      assert 0.0 <= last.weight * last.score <= last.weight * 100.0;
      SumBounds(WeightedTotal(prefix), WeightSum(prefix), last.weight * last.score, last.weight);
    }
  }

  lemma SumBounds(total: real, weights: real, contribution: real, weight: real)
    requires 0.0 <= total <= 100.0 * weights && 0.0 <= contribution <= weight * 100.0
    ensures 0.0 <= total + contribution <= 100.0 * (weights + weight)
  {
  }

  lemma ProductBounds(w: real, s: real)
    requires w >= 0.0 && 0.0 <= s <= 100.0
    ensures 0.0 <= w * s <= w * 100.0
  {
  }

  /** With a non-negative budget every factor score and the total lie in [0, 100]. */
  lemma TotalInRange(t: Ticket, needs: Needs)
    requires NonNegativeBudget(needs.budget)
    ensures forall f :: f in Factors(t, needs) ==> 0.0 <= f.score <= 100.0
    ensures 0.0 <= WeightedTotal(Factors(t, needs)) <= 100.0
  {
    var fs := Factors(t, needs);
    SixFactorsShape(fs[0].score, fs[1].score, fs[2].score, fs[3].score, fs[4].score, fs[5].score);
    WeightedTotalBounds(fs);
  }

  /** A negative maximum price breaks the bound: a ticket above it scores over 100. */
  lemma NegativeMaximumExceedsBound()
    ensures PriceFactor(10.0, BudgetRange(maxPrice := Some(-10.0))) == 300.0
  {
  }

  /** Once the price is under a set minimum, the maximum no longer matters. */
  lemma MinimumOverridesMaximum(price: real, budget: BudgetRange, otherMax: Option<real>)
    requires IsSet(budget.minPrice) && price < budget.minPrice.value
    ensures PriceFactor(price, budget) == PriceFactor(price, budget.(maxPrice := otherMax))
  {
  }

  /** Above a positive maximum (and not under the minimum), a dearer ticket never scores
      better on price. */
  lemma PriceFactorAntitone(cheaper: real, dearer: real, budget: BudgetRange)
    requires NonNegativeBudget(budget) && cheaper <= dearer
    requires !(IsSet(budget.minPrice) && cheaper < budget.minPrice.value)
    ensures PriceFactor(dearer, budget) <= PriceFactor(cheaper, budget)
  {
    if IsSet(budget.maxPrice) && cheaper > budget.maxPrice.value {
      var max := budget.maxPrice.value;
      assert (cheaper - max) / max <= (dearer - max) / max by {
        DivideMonotone(cheaper - max, dearer - max, max);
      }
    }
  }

  lemma DivideMonotone(a: real, b: real, d: real)
    requires a <= b && d > 0.0
    ensures a / d <= b / d
  {
  }

  /** A ticket with its factors and their weighted total. */
  function ScoreTicket(t: Ticket, needs: Needs): (s: ScoredTicket)
    ensures s.ticket == t && |s.factors| == 6
    ensures s.total == WeightedTotal(s.factors)
  {
    ScoredTicket(t, WeightedTotal(Factors(t, needs)), Factors(t, needs))
  }

  /** Every ticket scored, in input order. */
  function ScoreAll(tickets: seq<Ticket>, needs: Needs): (r: seq<ScoredTicket>)
    ensures |r| == |tickets|
    ensures forall i :: 0 <= i < |tickets| ==> r[i] == ScoreTicket(tickets[i], needs)
  {
    if tickets == [] then []
    else ScoreAll(tickets[..|tickets| - 1], needs) + [ScoreTicket(tickets[|tickets| - 1], needs)]
  }

  /** Ordered by total, highest first. */
  ghost predicate SortedDescending(s: seq<ScoredTicket>) {
    forall i, j :: 0 <= i < j < |s| ==> s[i].total >= s[j].total
  }

  /** The entries of `s` whose total is `v`, in their order in `s`. */
  function WithTotal(s: seq<ScoredTicket>, v: real): seq<ScoredTicket> {
    if s == [] then []
    else WithTotal(s[..|s| - 1], v) + (if s[|s| - 1].total == v then [s[|s| - 1]] else [])
  }

  lemma {:induction false} WithTotalAppend(a: seq<ScoredTicket>, b: seq<ScoredTicket>, v: real)
    ensures WithTotal(a + b, v) == WithTotal(a, v) + WithTotal(b, v)
    decreases |b|
  {
    if b == [] {
      assert a + b == a;
    } else {
      assert (a + b)[..|a + b| - 1] == a + b[..|b| - 1];
      assert (a + b)[|a + b| - 1] == b[|b| - 1];
      WithTotalAppend(a, b[..|b| - 1], v);
    }
  }

  lemma {:induction false} WithTotalNone(s: seq<ScoredTicket>, v: real)
    requires forall i :: 0 <= i < |s| ==> s[i].total != v
    ensures WithTotal(s, v) == []
  {
    if s != [] {
      WithTotalNone(s[..|s| - 1], v);
    }
  }

  /** `x` placed after the last entry of `s` whose total is at least its own. */
  function InsertByTotal(s: seq<ScoredTicket>, x: ScoredTicket): (r: seq<ScoredTicket>)
    ensures |r| == |s| + 1
  {
    if s == [] || s[|s| - 1].total >= x.total then s + [x]
    else InsertByTotal(s[..|s| - 1], x) + [s[|s| - 1]]
  }

  /** Python's stable `sort(key=total, reverse=True)`, as repeated insertion. */
  function StableSortByTotal(items: seq<ScoredTicket>): (r: seq<ScoredTicket>)
    ensures |r| == |items|
  {
    if items == [] then []
    else InsertByTotal(StableSortByTotal(items[..|items| - 1]), items[|items| - 1])
  }

  /** Where the insertion lands: after every total at least the new one, before every
      smaller one. */
  lemma {:induction false} InsertSplit(s: seq<ScoredTicket>, x: ScoredTicket) returns (k: nat)
    ensures k <= |s| && InsertByTotal(s, x) == s[..k] + [x] + s[k..]
    ensures k > 0 ==> s[k - 1].total >= x.total
    ensures forall j :: k <= j < |s| ==> s[j].total < x.total
  {
    if s == [] || s[|s| - 1].total >= x.total {
      k := |s|;
      assert s[..k] == s && s[k..] == [];
    } else {
      var front := s[..|s| - 1];
      k := InsertSplit(front, x);
      assert front[..k] == s[..k];
      assert front[k..] + [s[|s| - 1]] == s[k..];
    }
  }

  /** ... and that place is the only one with this property. */
  lemma {:induction false} InsertAt(s: seq<ScoredTicket>, x: ScoredTicket, k: nat)
    requires k <= |s|
    requires k > 0 ==> s[k - 1].total >= x.total
    requires forall j :: k <= j < |s| ==> s[j].total < x.total
    ensures InsertByTotal(s, x) == s[..k] + [x] + s[k..]
  {
    if k == |s| {
      assert s[..k] == s && s[k..] == [];
    } else {
      var front := s[..|s| - 1];
      InsertAt(front, x, k);
      assert front[..k] == s[..k];
      assert front[k..] + [s[|s| - 1]] == s[k..];
    }
  }

  /** The sort is a rearrangement, ordered by total with the highest first, and it keeps
      the input order among equal totals. */
  lemma {:induction false} StableSortByTotalCorrect(items: seq<ScoredTicket>)
    ensures multiset(StableSortByTotal(items)) == multiset(items)
    ensures SortedDescending(StableSortByTotal(items))
    ensures forall v :: WithTotal(StableSortByTotal(items), v) == WithTotal(items, v)
  {
    if items != [] {
      var front, x := items[..|items| - 1], items[|items| - 1];
      assert items == front + [x];
      StableSortByTotalCorrect(front);
      var sorted := StableSortByTotal(front);
      InsertByTotalMultiset(sorted, x);
      InsertByTotalSorted(sorted, x);
      forall v ensures WithTotal(InsertByTotal(sorted, x), v) == WithTotal(items, v) {
        InsertByTotalWithTotal(sorted, x, v);
        WithTotalAppend(front, [x], v);
      }
    }
  }

  /** One insertion adds `x` to the contents, ... */
  lemma InsertByTotalMultiset(s: seq<ScoredTicket>, x: ScoredTicket)
    ensures multiset(InsertByTotal(s, x)) == multiset(s) + multiset{x}
  {
    var k := InsertSplit(s, x);
    assert s == s[..k] + s[k..];
  }

  /** ... keeps the order, ... */
  lemma InsertByTotalSorted(s: seq<ScoredTicket>, x: ScoredTicket)
    requires SortedDescending(s)
    ensures SortedDescending(InsertByTotal(s, x))
  {
    var k := InsertSplit(s, x);
    InsertSorted(s, k, x);
  }

  /** ... and puts `x` after every entry of its own total. */
  lemma InsertByTotalWithTotal(s: seq<ScoredTicket>, x: ScoredTicket, v: real)
    ensures WithTotal(InsertByTotal(s, x), v) == WithTotal(s, v) + WithTotal([x], v)
  {
    var k := InsertSplit(s, x);
    assert s == s[..k] + s[k..];
    InsertWithTotal(s[..k], s[k..], x, v);
  }

  /** The sort, step by step: each entry is inserted after every entry whose total is at
      least its own, found by scanning back from the end. */
  method SortByTotal(items: seq<ScoredTicket>) returns (sorted: seq<ScoredTicket>)
    ensures sorted == StableSortByTotal(items)
  {
    sorted := [];
    for i := 0 to |items|
      invariant sorted == StableSortByTotal(items[..i])
    {
      var x := items[i];
      var k := |sorted|;
      while k > 0 && sorted[k - 1].total < x.total
        invariant 0 <= k <= |sorted|
        invariant forall j :: k <= j < |sorted| ==> sorted[j].total < x.total
      {
        k := k - 1;
      }
      InsertAt(sorted, x, k);
      assert items[..i + 1][..i] == items[..i];
      sorted := sorted[..k] + [x] + sorted[k..];
    }
    assert items[..|items|] == items;
  }

  /** Inserting `x` after every total at least its own and before every smaller one keeps
      the order. */
  lemma InsertSorted(s: seq<ScoredTicket>, k: nat, x: ScoredTicket)
    requires k <= |s| && SortedDescending(s)
    requires k > 0 ==> s[k - 1].total >= x.total
    requires forall j :: k <= j < |s| ==> s[j].total < x.total
    ensures SortedDescending(s[..k] + [x] + s[k..])
  {
    var r := s[..k] + [x] + s[k..];
    assert forall i :: 0 <= i < k ==> r[i] == s[i];
    assert r[k] == x;
    assert forall i :: k < i < |r| ==> r[i] == s[i - 1];
  }

  /** ... and places `x` after every entry of its own total. */
  lemma InsertWithTotal(front: seq<ScoredTicket>, back: seq<ScoredTicket>, x: ScoredTicket, v: real)
    requires forall j :: 0 <= j < |back| ==> back[j].total < x.total
    ensures WithTotal(front + [x] + back, v) == WithTotal(front + back, v) + WithTotal([x], v)
  {
    WithTotalAppend(front + [x], back, v);
    WithTotalAppend(front, [x], v);
    WithTotalAppend(front, back, v);
    if x.total == v {
      WithTotalNone(back, v);
    } else {
      WithTotalSingle(x, v);
    }
    SwapEmpty(WithTotal(front, v), WithTotal([x], v), WithTotal(back, v));
  }

  lemma SwapEmpty<T>(a: seq<T>, b: seq<T>, c: seq<T>)
    requires b == [] || c == []
    ensures a + b + c == a + c + b
  {
    if b == [] {
      assert a + b == a;
      assert a + c + b == a + c;
    } else {
      assert a + b + c == a + b;
      assert a + c == a;
    }
  }


  lemma WithTotalSingle(x: ScoredTicket, v: real)
    requires x.total != v
    ensures WithTotal([x], v) == []
  {
    assert [x][..0] == [];
  }



  /** The candidates scored and ordered by total, highest first. */
  function Ranked(tickets: seq<Ticket>, needs: Needs): (ranked: seq<ScoredTicket>)
    ensures |ranked| == |tickets|
  {
    StableSortByTotal(ScoreAll(tickets, needs))
  }

  /** The ranking holds every scored candidate once, highest total first, and candidates
      with equal totals in their input order. */
  lemma RankedCorrect(tickets: seq<Ticket>, needs: Needs)
    ensures multiset(Ranked(tickets, needs)) == multiset(ScoreAll(tickets, needs))
    ensures SortedDescending(Ranked(tickets, needs))
    ensures forall v :: WithTotal(Ranked(tickets, needs), v) == WithTotal(ScoreAll(tickets, needs), v)
  {
    StableSortByTotalCorrect(ScoreAll(tickets, needs));
  }

  /** Scores every ticket (the weighted sum of its six factors, summed in a loop) and
      sorts the scored tickets by total. */
  method RankTickets(tickets: seq<Ticket>, needs: Needs) returns (ranked: seq<ScoredTicket>)
    ensures ranked == Ranked(tickets, needs)
  {
    var scored: seq<ScoredTicket> := [];
    for i := 0 to |tickets|
      invariant scored == ScoreAll(tickets[..i], needs)
    {
      var factors := Factors(tickets[i], needs);
      var total := SumWeighted(factors);
      assert tickets[..i + 1][..i] == tickets[..i];
      scored := scored + [ScoredTicket(tickets[i], total, factors)];
    }
    assert tickets[..|tickets|] == tickets;
    ranked := SortByTotal(scored);
  }

  /** The total of one ticket: weight times score, accumulated factor by factor. */
  method SumWeighted(factors: seq<Factor>) returns (total: real)
    ensures total == WeightedTotal(factors)
  {
    total := 0.0;
    for j := 0 to |factors|
      invariant total == WeightedTotal(factors[..j])
    {
      assert factors[..j + 1][..j] == factors[..j];
      total := total + factors[j].weight * factors[j].score;
    }
    assert factors[..|factors|] == factors;
  }

  /** The departure slots used for a time-of-day preference; no preference or "any"
      gives the four default slots. */
  function TimeSlots(preference: Option<TimePreference>): (slots: seq<(int, int)>)
    ensures |slots| == 4 <==> preference.None? || preference.value == AnyTime
    ensures 3 <= |slots| <= 4
    ensures forall i :: 0 <= i < |slots| ==> 0 <= slots[i].0 < 24 && 0 <= slots[i].1 < 60
    ensures forall i, j :: 0 <= i < j < |slots| ==>
      slots[i].0 * 60 + slots[i].1 < slots[j].0 * 60 + slots[j].1
  {
    match preference
    case Some(Morning) => [(6, 0), (8, 30), (10, 0)]
    case Some(Afternoon) => [(12, 0), (14, 0), (16, 0)]
    case Some(Evening) => [(17, 0), (18, 30), (20, 0)]
    case Some(Night) => [(21, 0), (22, 30), (23, 59)]
    case _ => [(8, 0), (12, 0), (16, 0), (20, 0)]
  }

  /** The price multiplier of a seat class; every class has an entry between 0.8 and 5. */
  function PriceMultiplier(seat: SeatClass): (m: real)
    ensures 0.8 <= m <= 5.0
    ensures seat == Economy || seat == HardSeat ==> m == 1.0
  {
    match seat
    case Economy => 1.0
    case PremiumEconomy => 1.5
    case Business => 3.0
    case First => 5.0
    case HardSeat => 1.0
    case SoftSeat => 1.3
    case HardSleeper => 1.8
    case SoftSleeper => 2.5
    case Standing => 0.8
    case HighSpeedSecond => 2.0
    case HighSpeedFirst => 2.8
    case HighSpeedBusiness => 3.5
  }

  /** Within each family the dearer classes carry the larger multipliers. */
  lemma MultipliersFollowClass()
    ensures PriceMultiplier(Economy) < PriceMultiplier(PremiumEconomy)
            < PriceMultiplier(Business) < PriceMultiplier(First)
    ensures PriceMultiplier(Standing) < PriceMultiplier(HardSeat) < PriceMultiplier(SoftSeat)
            < PriceMultiplier(HardSleeper) < PriceMultiplier(SoftSleeper)
    ensures PriceMultiplier(HighSpeedSecond) < PriceMultiplier(HighSpeedFirst)
            < PriceMultiplier(HighSpeedBusiness)
  {
  }
}
