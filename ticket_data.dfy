/** Tickets: the transport offers the recommender scores and ranks. */
module TicketData {
  import opened Wrappers
  import opened Strings

  /** The mode of transport, serialised as a lower-case tag. */
  datatype TransportType = Flight | Train | Bus | Ship {
    function Tag(): (s: string)
      ensures |s| > 0 && forall i :: 0 <= i < |s| ==> 'a' <= s[i] <= 'z'
    {
      match this
      case Flight => "flight"
      case Train => "train"
      case Bus => "bus"
      case Ship => "ship"
    }
  }

  /** Seat or cabin class; the first four are aircraft cabins, the rest train seats. */
  datatype SeatClass =
    | Economy | PremiumEconomy | Business | First
    | HardSeat | SoftSeat | HardSleeper | SoftSleeper | Standing
    | HighSpeedSecond | HighSpeedFirst | HighSpeedBusiness
  {
    function Tag(): (s: string)
      ensures |s| > 0 && forall i :: 0 <= i < |s| ==> 'a' <= s[i] <= 'z' || s[i] == '_'
    {
      match this
      case Economy => "economy"
      case PremiumEconomy => "premium_economy"
      case Business => "business"
      case First => "first"
      case HardSeat => "hard_seat"
      case SoftSeat => "soft_seat"
      case HardSleeper => "hard_sleeper"
      case SoftSleeper => "soft_sleeper"
      case Standing => "standing"
      case HighSpeedSecond => "high_speed_second"
      case HighSpeedFirst => "high_speed_first"
      case HighSpeedBusiness => "high_speed_business"
    }
  }

  /** Each transport tag names exactly one mode. */
  lemma TransportTagsDistinct(a: TransportType, b: TransportType)
    ensures a.Tag() == b.Tag() <==> a == b
  {
  }

  /** Each seat tag names exactly one class. */
  lemma SeatTagsDistinct(a: SeatClass, b: SeatClass)
    ensures a.Tag() == b.Tag() <==> a == b
  {
  }

  /** A point in time, as whole minutes counted from some local midnight. */
  datatype Instant = Instant(minutes: int) {
    /** The hour of the day (Python's `datetime.hour`). */
    function Hour(): (h: int)
      ensures 0 <= h < 24
    {
      (minutes % 1440) / 60
    }
  }

  /** One entry of a transfer list or of a train's stop list. */
  datatype Stop = Stop(station: string, arrival: Instant, departure: Instant)

  /** What the two ticket subclasses add to the common ticket record. */
  datatype Vehicle =
    | FlightDetails(mealIncluded: bool, aircraftType: Option<string>)
    | TrainDetails(isHighSpeed: bool, stops: Option<seq<Stop>>)

  /** A ticket. Restrictions, additional fees and the flight's baggage allowance are
      carried by the source but read by none of the modelled code, so they are not fields. */
  datatype Ticket = Ticket(
    id: string,
    transportType: TransportType,
    departureCity: string,
    arrivalCity: string,
    departureTime: Instant,
    arrivalTime: Instant,
    price: real,
    seatClass: SeatClass,
    availableSeats: int,
    company: string,
    transportNumber: string,
    departureStation: string,
    arrivalStation: string,
    durationMinutes: int,
    transferInfo: Option<seq<Stop>>,
    vehicle: Vehicle)
  {
    /** Display text of the duration, "{hours}h {minutes}m" from `divmod(duration, 60)`. */
    function TravelDuration(): string {
      DurationText(durationMinutes)
    }

    /** A ticket is direct when it lists no transfers; a train's stops do not count. */
    predicate IsDirect() {
      transferInfo.None? || |transferInfo.value| == 0
    }
  }

  /** Python's `divmod(d, 60)` floors; so does Dafny's `/` and `%` by a positive divisor. */
  function DurationText(d: int): string {
    IntText(d / 60) + "h " + IntText(d % 60) + "m"
  }

  /** The two numbers shown are the hours and the minutes that make up the duration: any
      split of `d` into `hours` and `minutes` with 0 <= minutes < 60 is the one displayed. */
  lemma DurationParts(d: int, hours: int, minutes: int)
    requires 60 * hours + minutes == d && 0 <= minutes < 60
    ensures DurationText(d) == IntText(hours) + "h " + IntText(minutes) + "m"
    ensures d >= 0 ==> hours >= 0
  {
    assert d / 60 == hours && d % 60 == minutes;
  }

  /** Two non-negative durations with the same display text are equal: the text loses nothing. */
  lemma DurationTextInjective(d1: nat, d2: nat)
    requires DurationText(d1) == DurationText(d2)
    ensures d1 == d2
  {
    var r1, r2 := MinutesPart(d1), MinutesPart(d2);
    DigitsThenH(NatText(d1 / 60), r1, NatText(d2 / 60), r2);
    NatTextInjective(d1 / 60, d2 / 60);
    assert NatText(d1 % 60) == r1[2..|r1| - 1];
    assert NatText(d2 % 60) == r2[2..|r2| - 1];
    NatTextInjective(d1 % 60, d2 % 60);
  }

  /** The display text after the hours: "h {minutes}m". */
  function MinutesPart(d: nat): (r: string)
    ensures DurationText(d) == NatText(d / 60) + r
    ensures |r| > 0 && r[0] == 'h'
  {
    "h " + NatText(d % 60) + "m"
  }

  /** Two digit strings each followed by text starting with 'h' split equally. */
  lemma DigitsThenH(a1: string, x1: string, a2: string, x2: string)
    requires forall i :: 0 <= i < |a1| ==> IsDigit(a1[i])
    requires forall i :: 0 <= i < |a2| ==> IsDigit(a2[i])
    requires |x1| > 0 && x1[0] == 'h' && |x2| > 0 && x2[0] == 'h'
    requires a1 + x1 == a2 + x2
    ensures a1 == a2 && x1 == x2
  {
    if |a1| != |a2| {
      var k := if |a1| < |a2| then |a1| else |a2|;
      ConcatAt(a1, x1, k);
      ConcatAt(a2, x2, k);
      assert false;
    }
    assert a1 == (a1 + x1)[..|a1|] == (a2 + x2)[..|a2|] == a2;
    assert x1 == (a1 + x1)[|a1|..] == (a2 + x2)[|a2|..] == x2;
  }

  lemma ConcatAt(a: string, x: string, k: int)
    ensures 0 <= k < |a| ==> (a + x)[k] == a[k]
    ensures |a| <= k < |a| + |x| ==> (a + x)[k] == x[k - |a|]
  {
  }

  /** Directness is exactly "no transfer listed"; for a train it holds whatever its stops. */
  lemma DirectIgnoresStops(t: Ticket)
    ensures t.IsDirect() <==> t.transferInfo == None || t.transferInfo == Some([])
    ensures t.vehicle.TrainDetails? ==>
      t.IsDirect() == t.(vehicle := TrainDetails(t.vehicle.isHighSpeed, Some([Stop("", t.departureTime, t.departureTime)]))).IsDirect()
  {
  }
}
