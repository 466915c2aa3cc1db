/** The traveller's needs: the structured constraints the recommender works from. */
module UserNeeds {
  import opened Wrappers
  import opened TicketData

  datatype TimePreference = Morning | Afternoon | Evening | Night | AnyTime {
    function Tag(): string {
      match this
      case Morning => "morning"
      case Afternoon => "afternoon"
      case Evening => "evening"
      case Night => "night"
      case AnyTime => "any"
    }
  }

  datatype PriceLevel = EconomyLevel | StandardLevel | PremiumLevel | LuxuryLevel | AnyLevel {
    function Tag(): string {
      match this
      case EconomyLevel => "economy"
      case StandardLevel => "standard"
      case PremiumLevel => "premium"
      case LuxuryLevel => "luxury"
      case AnyLevel => "any"
    }
  }

  datatype TravelPriority = Price | Time | Comfort | Convenience | Reliability {
    function Tag(): string {
      match this
      case Price => "price"
      case Time => "time"
      case Comfort => "comfort"
      case Convenience => "convenience"
      case Reliability => "reliability"
    }
  }

  /** A departure or return window; every part is optional. Bounds are date-times
      (a bare time of day is not modelled). */
  datatype TimeRange = TimeRange(
    startTime: Option<Instant> := None,
    endTime: Option<Instant> := None,
    flexibleHours: Option<int> := None,
    preferredTime: Option<TimePreference> := None)

  /** The budget; the price level defaults to "any", the bounds to absent. */
  datatype BudgetRange = BudgetRange(
    minPrice: Option<real> := None,
    maxPrice: Option<real> := None,
    targetPrice: Option<real> := None,
    priceLevel: Option<PriceLevel> := Some(AnyLevel))

  /** The needs record as stored. Building it through this constructor runs no validator:
      that is what happens when an adjustment assigns a field (see `NewNeeds` for the
      validated construction). Special requirements and the historical preference are
      read by none of the modelled code and are not fields. */
  datatype Needs = Needs(
    departureCity: string,
    arrivalCity: string,
    departureTimeRange: TimeRange,
    userId: Option<string> := None,
    returnTimeRange: Option<TimeRange> := None,
    preferredTransportTypes: seq<TransportType> := [Flight, Train],
    preferredSeatClasses: Option<seq<SeatClass>> := None,
    budget: BudgetRange := BudgetRange(),
    priorities: seq<TravelPriority> := [Price],
    maxTransfers: Option<int> := None,
    maxDurationMinutes: Option<int> := None)

  /** The priorities validator: an empty list becomes [price], any other list is kept. */
  function CheckPriorities(priorities: seq<TravelPriority>): (r: seq<TravelPriority>)
    ensures priorities == [] ==> r == [Price]
    ensures priorities != [] ==> r == priorities
  {
    if priorities == [] then [Price] else priorities
  }

  /** The normalised list is never empty, and normalising again changes nothing. */
  lemma CheckPrioritiesNormalises(priorities: seq<TravelPriority>)
    ensures CheckPriorities(priorities) != []
    ensures CheckPriorities(CheckPriorities(priorities)) == CheckPriorities(priorities)
  {
  }

  /** Validated construction: the fields as given, with the priorities validator applied. */
  function NewNeeds(
    departureCity: string,
    arrivalCity: string,
    departureTimeRange: TimeRange,
    userId: Option<string> := None,
    returnTimeRange: Option<TimeRange> := None,
    preferredTransportTypes: seq<TransportType> := [Flight, Train],
    preferredSeatClasses: Option<seq<SeatClass>> := None,
    budget: BudgetRange := BudgetRange(),
    priorities: seq<TravelPriority> := [Price],
    maxTransfers: Option<int> := None,
    maxDurationMinutes: Option<int> := None): (n: Needs)
    ensures n.priorities != []
    ensures n.priorities == CheckPriorities(priorities)
    ensures n.(priorities := priorities) ==
      Needs(departureCity, arrivalCity, departureTimeRange, userId, returnTimeRange,
            preferredTransportTypes, preferredSeatClasses, budget, priorities, maxTransfers,
            maxDurationMinutes)
  {
    Needs(departureCity, arrivalCity, departureTimeRange, userId, returnTimeRange,
          preferredTransportTypes, preferredSeatClasses, budget, CheckPriorities(priorities),
          maxTransfers, maxDurationMinutes)
  }

  /** Needs built with only the required fields take the declared defaults. */
  lemma NeedsDefaults(departureCity: string, arrivalCity: string, window: TimeRange)
    ensures var n := NewNeeds(departureCity, arrivalCity, window);
      && n.preferredTransportTypes == [Flight, Train]
      && n.preferredSeatClasses == None
      && n.budget.minPrice == None && n.budget.maxPrice == None && n.budget.targetPrice == None
      && n.budget.priceLevel == Some(AnyLevel)
      && n.priorities == [Price]
      && n.maxTransfers == None && n.maxDurationMinutes == None
      && n.userId == None && n.returnTimeRange == None
  {
  }

  /** The fixed fallback extraction: whatever the text, a trip from 北京 to 上海 leaving
      from `now` with no time-of-day preference ("any"). The clock is a parameter. */
  function ExtractFromConversation(conversationText: string, now: Instant): (n: Needs)
    ensures n.departureCity == "北京" && n.arrivalCity == "上海"
    ensures n.departureTimeRange == TimeRange(startTime := Some(now), preferredTime := Some(AnyTime))
    ensures n.priorities == [Price] && n.preferredTransportTypes == [Flight, Train]
  {
    NewNeeds("北京", "上海", TimeRange(startTime := Some(now), preferredTime := Some(AnyTime)))
  }

  /** The fallback ignores the conversation text. */
  lemma ExtractIgnoresText(a: string, b: string, now: Instant)
    ensures ExtractFromConversation(a, now) == ExtractFromConversation(b, now)
  {
  }
}
