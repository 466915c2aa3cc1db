/** The refinement loop: build a recommendation from ranked tickets, evaluate it, and while
    it falls short of the score threshold reflect on it, adjust the needs and rebuild. The
    needs extraction, the candidate supply and the reflection step are capabilities the
    engine is given, not modelled behaviour. */
module ReflectionEngine {
  import opened Wrappers
  import opened Strings
  import opened TicketData
  import opened UserNeeds
  import opened Recommendations
  import opened DataProcessor
  import opened Evaluator
  import Json

  // ---------------------------------------------------------------- option building

  /** The reasons of an option: the ranking's factors, field by field. */
  function ReasonsOf(factors: seq<Factor>): (reasons: seq<Reason>)
    ensures |reasons| == |factors|
    ensures forall i :: 0 <= i < |factors| ==>
      reasons[i] == Reason(factors[i].name, factors[i].description, factors[i].weight, factors[i].score)
  {
    seq(|factors|, i requires 0 <= i < |factors| =>
      Reason(factors[i].name, factors[i].description, factors[i].weight, factors[i].score))
  }

  /** The most options a recommendation carries. */
  const MaxOptions: nat := 10

  /** The error recorded when a ranked total cannot be an option score. */
  const ScoreOutOfRange: string := "option score must lie between 0 and 100"

  /** `options` are the first ten ranked tickets as options: rank = position + 1, the total
      as score and the factors as reasons. */
  ghost predicate OptionsOf(options: seq<RecommendationOption>, ranked: seq<ScoredTicket>) {
    |options| == (if |ranked| < MaxOptions then |ranked| else MaxOptions)
    && forall i :: 0 <= i < |options| ==>
         options[i].ticket == ranked[i].ticket && options[i].score == ranked[i].total
         && options[i].rank == i + 1 && options[i].reasons == ReasonsOf(ranked[i].factors)
  }

  /** Some ticket among the first ten has a total that is no option score. */
  ghost predicate SomeScoreOutOfRange(ranked: seq<ScoredTicket>) {
    exists i :: 0 <= i < |ranked| && i < MaxOptions && !(0.0 <= ranked[i].total <= 100.0)
  }

  /** The options of a ranking whose first ten totals are all scores: those ten tickets in
      ranked order. */
  function TopOptions(ranked: seq<ScoredTicket>): (options: seq<RecommendationOption>)
    requires forall i :: 0 <= i < |ranked| && i < MaxOptions ==> 0.0 <= ranked[i].total <= 100.0
    ensures OptionsOf(options, ranked)
  {
    seq(if |ranked| < MaxOptions then |ranked| else MaxOptions,
        i requires 0 <= i < |ranked| && i < MaxOptions =>
          RecommendationOption(ranked[i].ticket, ranked[i].total, i + 1, ReasonsOf(ranked[i].factors)))
  }

  /** The option loop: the first ten ranked tickets become options, and the first total
      outside [0, 100] stops it with the validation error. */
  method BuildOptions(ranked: seq<ScoredTicket>) returns (result: Result<seq<RecommendationOption>>)
    ensures result.Failure? <==> SomeScoreOutOfRange(ranked)
    ensures result.Failure? ==> result.error == ScoreOutOfRange
    ensures result.Success? ==> result.value == TopOptions(ranked)
  {
    var count := if |ranked| < MaxOptions then |ranked| else MaxOptions;
    var options: seq<RecommendationOption> := [];
    for i := 0 to count
      invariant |options| == i
      invariant forall j :: 0 <= j < i ==> 0.0 <= ranked[j].total <= 100.0
      invariant forall j :: 0 <= j < i ==>
        options[j].ticket == ranked[j].ticket && options[j].score == ranked[j].total
        && options[j].rank == j + 1 && options[j].reasons == ReasonsOf(ranked[j].factors)
    {
      var total := ranked[i].total;
      if !(0.0 <= total <= 100.0) {
        return Failure(ScoreOutOfRange);
      }
      options := options + [RecommendationOption(ranked[i].ticket, total, i + 1, ReasonsOf(ranked[i].factors))];
    }
    assert options == TopOptions(ranked);
    result := Success(options);
  }

  /** Builds a recommendation from the candidates: status processing, all-zero scores, and
      one option for each of the first ten ranked tickets, with rank = position + 1 and the
      total and factors copied. An option score outside [0, 100] is rejected, which fails
      the whole build. */
  method GenerateRecommendations(needs: Needs, tickets: seq<Ticket>, queryText: string)
    returns (result: Result<Recommendation>)
    ensures result.Failure? <==> SomeScoreOutOfRange(Ranked(tickets, needs))
    ensures result.Failure? ==> result.error == ScoreOutOfRange
    ensures result.Success? ==>
      fresh(result.value)
      && result.value.queryText == queryText && result.value.userId == needs.userId
      && result.value.status == Processing && result.value.scores == ZeroScore
      && result.value.reflectionIterations == 0 && result.value.reflectionHistory == []
      && result.value.errorText.None?
      && result.value.options == TopOptions(Ranked(tickets, needs))
  {
    var ranked := RankTickets(tickets, needs);
    var built := BuildOptions(ranked);
    if built.Failure? {
      return Failure(built.error);
    }
    var recommendation := new Recommendation(queryText, needs.userId, ZeroScore, Processing);
    recommendation.options := built.value;
    result := Success(recommendation);
  }

  // ---------------------------------------------------------------- applying adjustments

  /** The attribute names of the needs record, of a time window and of a budget. */
  const NeedsFields: set<string> := {
    "user_id", "departure_city", "arrival_city", "departure_time_range", "return_time_range",
    "preferred_transport_types", "preferred_seat_classes", "budget", "priorities",
    "max_transfers", "max_duration_minutes", "special_requirements", "historical_preference"}
  const RangeFields: set<string> := {"start_time", "end_time", "flexible_hours", "preferred_time"}
  const BudgetFields: set<string> := {"min_price", "max_price", "target_price", "price_level"}

  /** What a dotted path has reached: the needs record, one of its two time windows, its
      budget, or a plain value (text, number, list, enum member, date or nothing), whose
      attributes are not modelled. */
  datatype Target = AtNeeds | AtDeparture | AtReturn | AtBudget | AtValue

  /** `getattr(target, name)` when `hasattr(target, name)`, and nothing otherwise. */
  function Step(needs: Needs, target: Target, name: string): (next: Option<Target>)
    ensures next.Some? <==>
      match target
      case AtNeeds => name in NeedsFields
      case AtDeparture => name in RangeFields
      case AtReturn => name in RangeFields
      case AtBudget => name in BudgetFields
      case AtValue => false
  {
    match target
    case AtNeeds =>
      if name !in NeedsFields then None
      else if name == "departure_time_range" then Some(AtDeparture)
      else if name == "return_time_range" then Some(if needs.returnTimeRange.Some? then AtReturn else AtValue)
      else if name == "budget" then Some(AtBudget)
      else Some(AtValue)
    case AtDeparture => if name in RangeFields then Some(AtValue) else None
    case AtReturn => if name in RangeFields then Some(AtValue) else None
    case AtBudget => if name in BudgetFields then Some(AtValue) else None
    case AtValue => None
  }

  /** Follows the segments from `target` for as long as each one exists, and stops at the
      first one that does not. */
  function Walk(needs: Needs, target: Target, segments: seq<string>): Target
    decreases |segments|
  {
    if segments == [] then target
    else match Step(needs, target, segments[0])
      case None => target
      case Some(next) => Walk(needs, next, segments[1..])
  }

  function TransportFromTag(tag: string): (r: Option<TransportType>)
    ensures r.Some? ==> r.value.Tag() == tag
  {
    if tag == "flight" then Some(Flight) else if tag == "train" then Some(Train)
    else if tag == "bus" then Some(Bus) else if tag == "ship" then Some(Ship) else None
  }

  function SeatFromTag(tag: string): (r: Option<SeatClass>)
    ensures r.Some? ==> r.value.Tag() == tag
  {
    if tag == "economy" then Some(Economy)
    else if tag == "premium_economy" then Some(PremiumEconomy)
    else if tag == "business" then Some(Business)
    else if tag == "first" then Some(First)
    else if tag == "hard_seat" then Some(HardSeat)
    else if tag == "soft_seat" then Some(SoftSeat)
    else if tag == "hard_sleeper" then Some(HardSleeper)
    else if tag == "soft_sleeper" then Some(SoftSleeper)
    else if tag == "standing" then Some(Standing)
    else if tag == "high_speed_second" then Some(HighSpeedSecond)
    else if tag == "high_speed_first" then Some(HighSpeedFirst)
    else if tag == "high_speed_business" then Some(HighSpeedBusiness)
    else None
  }

  function PriorityFromTag(tag: string): (r: Option<TravelPriority>)
    ensures r.Some? ==> r.value.Tag() == tag
  {
    if tag == "price" then Some(Price) else if tag == "time" then Some(Time)
    else if tag == "comfort" then Some(Comfort) else if tag == "convenience" then Some(Convenience)
    else if tag == "reliability" then Some(Reliability) else None
  }

  function TimePreferenceFromTag(tag: string): (r: Option<TimePreference>)
    ensures r.Some? ==> r.value.Tag() == tag
  {
    if tag == "morning" then Some(Morning) else if tag == "afternoon" then Some(Afternoon)
    else if tag == "evening" then Some(Evening) else if tag == "night" then Some(Night)
    else if tag == "any" then Some(AnyTime) else None
  }

  function PriceLevelFromTag(tag: string): (r: Option<PriceLevel>)
    ensures r.Some? ==> r.value.Tag() == tag
  {
    if tag == "economy" then Some(EconomyLevel) else if tag == "standard" then Some(StandardLevel)
    else if tag == "premium" then Some(PremiumLevel) else if tag == "luxury" then Some(LuxuryLevel)
    else if tag == "any" then Some(AnyLevel) else None
  }

  /** Every enum member reads back from its own tag. */
  lemma TagsRoundTrip(t: TransportType, c: SeatClass, p: TravelPriority, w: TimePreference, l: PriceLevel)
    ensures TransportFromTag(t.Tag()) == Some(t)
    ensures SeatFromTag(c.Tag()) == Some(c)
    ensures PriorityFromTag(p.Tag()) == Some(p)
    ensures TimePreferenceFromTag(w.Tag()) == Some(w)
    ensures PriceLevelFromTag(l.Tag()) == Some(l)
  {
    SeatTagsDistinct(c, Economy);
  }

  /** A list of tags decoded element by element; nothing when some element is not a
      known tag. */
  function DecodeTags<T>(items: seq<Json.Value>, decode: string -> Option<T>): (r: Option<seq<T>>)
    ensures r.Some? ==> |r.value| == |items|
    ensures r.Some? ==> forall i :: 0 <= i < |items| ==>
      items[i].Str? && decode(items[i].s) == Some(r.value[i])
  {
    if items == [] then Some([])
    else match items[0]
      case Str(tag) =>
        (match decode(tag)
         case None => None
         case Some(x) =>
           match DecodeTags(items[1..], decode)
           case None => None
           case Some(rest) => Some([x] + rest))
      case _ => None
  }

  function DecodePrice(v: Json.Value): Option<Option<real>> {
    match v
    case Null => Some(None)
    case Int(i) => Some(Some(i as real))
    case Float(r) => Some(Some(r))
    case _ => None
  }

  function DecodeWhole(v: Json.Value): Option<Option<int>> {
    match v
    case Null => Some(None)
    case Int(i) => Some(Some(i))
    case _ => None
  }

  /** An optional enum member from a tag or null. */
  function DecodeOptionalTag<T>(v: Json.Value, decode: string -> Option<T>): Option<Option<T>> {
    match v
    case Null => Some(None)
    case Str(tag) => (match decode(tag) case None => None case Some(x) => Some(Some(x)))
    case _ => None
  }

  /** `setattr` on a time window; a value that does not fit the field leaves it as it is. */
  function SetRangeField(range: TimeRange, name: string, v: Json.Value): TimeRange {
    if name == "start_time" && v == Json.Null then range.(startTime := None)
    else if name == "end_time" && v == Json.Null then range.(endTime := None)
    else if name == "flexible_hours" then
      (match DecodeWhole(v) case Some(h) => range.(flexibleHours := h) case None => range)
    else if name == "preferred_time" then
      (match DecodeOptionalTag(v, TimePreferenceFromTag)
       case Some(p) => range.(preferredTime := p) case None => range)
    else range
  }

  /** `setattr` on a budget. */
  function SetBudgetField(budget: BudgetRange, name: string, v: Json.Value): BudgetRange {
    if name == "min_price" then
      (match DecodePrice(v) case Some(p) => budget.(minPrice := p) case None => budget)
    else if name == "max_price" then
      (match DecodePrice(v) case Some(p) => budget.(maxPrice := p) case None => budget)
    else if name == "target_price" then
      (match DecodePrice(v) case Some(p) => budget.(targetPrice := p) case None => budget)
    else if name == "price_level" then
      (match DecodeOptionalTag(v, PriceLevelFromTag)
       case Some(l) => budget.(priceLevel := l) case None => budget)
    else budget
  }

  /** `setattr` on the needs record itself. Assignment runs no validator, so an empty
      priorities list is stored as it is. */
  function SetNeedsField(needs: Needs, name: string, v: Json.Value): Needs {
    if name == "user_id" then
      (match v case Null => needs.(userId := None) case Str(s) => needs.(userId := Some(s)) case _ => needs)
    else if name == "departure_city" then
      (match v case Str(s) => needs.(departureCity := s) case _ => needs)
    else if name == "arrival_city" then
      (match v case Str(s) => needs.(arrivalCity := s) case _ => needs)
    else if name == "return_time_range" && v == Json.Null then needs.(returnTimeRange := None)
    else if name == "preferred_transport_types" then
      (match v
       case List(items) =>
         (match DecodeTags(items, TransportFromTag)
          case Some(ts) => needs.(preferredTransportTypes := ts) case None => needs)
       case _ => needs)
    else if name == "preferred_seat_classes" then
      (match v
       case Null => needs.(preferredSeatClasses := None)
       case List(items) =>
         (match DecodeTags(items, SeatFromTag)
          case Some(cs) => needs.(preferredSeatClasses := Some(cs)) case None => needs)
       case _ => needs)
    else if name == "priorities" then
      (match v
       case List(items) =>
         (match DecodeTags(items, PriorityFromTag)
          case Some(ps) => needs.(priorities := ps) case None => needs)
       case _ => needs)
    else if name == "max_transfers" then
      (match DecodeWhole(v) case Some(m) => needs.(maxTransfers := m) case None => needs)
    else if name == "max_duration_minutes" then
      (match DecodeWhole(v) case Some(m) => needs.(maxDurationMinutes := m) case None => needs)
    else needs
  }

  /** Sets attribute `name` of the reached target to `v`, writing the change back into the
      needs; a plain value is left alone. */
  function SetAt(needs: Needs, target: Target, name: string, v: Json.Value): Needs {
    match target
    case AtNeeds => SetNeedsField(needs, name, v)
    case AtDeparture => needs.(departureTimeRange := SetRangeField(needs.departureTimeRange, name, v))
    case AtReturn =>
      (match needs.returnTimeRange
       case Some(range) => needs.(returnTimeRange := Some(SetRangeField(range, name, v)))
       case None => needs)
    case AtBudget => needs.(budget := SetBudgetField(needs.budget, name, v))
    case AtValue => needs
  }

  /** One adjustment: split the key on '.', walk all segments but the last, and set the
      last one on whatever was reached. */
  function ApplyOne(needs: Needs, key: string, v: Json.Value): Needs {
    var parts := Split(key, '.');
    SetAt(needs, Walk(needs, AtNeeds, parts[..|parts| - 1]), parts[|parts| - 1], v)
  }

  /** The adjustments in order; a later key overwrites what an earlier one set. */
  function ApplyAll(needs: Needs, adjusted: seq<(string, Json.Value)>): Needs
    decreases |adjusted|
  {
    if adjusted == [] then needs
    else
      var (key, v) := adjusted[|adjusted| - 1];
      ApplyOne(ApplyAll(needs, adjusted[..|adjusted| - 1]), key, v)
  }

  /** Applies the adjusted parameters to a copy of the needs, as the source's loop does:
      the needs passed in are a value and stay as they were. */
  method ApplyImprovements(needs: Needs, adjusted: seq<(string, Json.Value)>) returns (result: Needs)
    ensures result == ApplyAll(needs, adjusted)
  {
    result := needs;
    for k := 0 to |adjusted|
      invariant result == ApplyAll(needs, adjusted[..k])
    {
      var (key, v) := adjusted[k];
      var parts := Split(key, '.');
      ghost var path := parts[..|parts| - 1];
      var target := AtNeeds;
      var i := 0;
      while i < |parts| - 1
        invariant 0 <= i <= |parts| - 1
        invariant Walk(result, target, path[i..]) == Walk(result, AtNeeds, path)
      {
        assert path[i..][0] == parts[i] && path[i..][1..] == path[i + 1..];
        var next := Step(result, target, parts[i]);
        if next.None? {
          break;
        }
        target := next.value;
        i := i + 1;
      }
      assert adjusted[..k + 1][..k] == adjusted[..k];
      result := SetAt(result, target, parts[|parts| - 1], v);
    }
    assert adjusted[..|adjusted|] == adjusted;
  }

  /** Applying two batches one after the other is applying them joined. */
  lemma {:induction false} ApplyAllAppend(needs: Needs, first: seq<(string, Json.Value)>, second: seq<(string, Json.Value)>)
    ensures ApplyAll(needs, first + second) == ApplyAll(ApplyAll(needs, first), second)
    decreases |second|
  {
    if second == [] {
      assert first + second == first;
    } else {
      assert (first + second)[..|first + second| - 1] == first + second[..|second| - 1];
      ApplyAllAppend(needs, first, second[..|second| - 1]);
    }
  }

  /** A key whose last segment names no attribute of any record changes nothing. */
  lemma UnknownLastSegment(needs: Needs, key: string, v: Json.Value)
    requires var parts := Split(key, '.'); parts[|parts| - 1] !in NeedsFields + RangeFields + BudgetFields
    ensures ApplyOne(needs, key, v) == needs
  {
    var parts := Split(key, '.');
    SetAtUnknown(needs, Walk(needs, AtNeeds, parts[..|parts| - 1]), parts[|parts| - 1], v);
  }

  lemma SetAtUnknown(needs: Needs, target: Target, name: string, v: Json.Value)
    requires name !in NeedsFields + RangeFields + BudgetFields
    ensures SetAt(needs, target, name, v) == needs
  {
    match target
    case AtNeeds =>
      assert SetNeedsField(needs, name, v) == needs;
    case AtDeparture =>
      assert SetRangeField(needs.departureTimeRange, name, v) == needs.departureTimeRange;
    case AtReturn =>
      if needs.returnTimeRange.Some? {
        assert SetRangeField(needs.returnTimeRange.value, name, v) == needs.returnTimeRange.value;
      }
    case AtBudget =>
      assert SetBudgetField(needs.budget, name, v) == needs.budget;
    case AtValue =>
  }

  /** Splitting text without the separator gives the text itself. */
  lemma {:induction false} SplitWhole(s: string, sep: char)
    requires sep !in s
    ensures Split(s, sep) == [s]
  {
    if s != [] {
      assert s[0] != sep && sep !in s[1..];
      SplitWhole(s[1..], sep);
      assert [s[0]] + s[1..] == s;
    }
  }

  /** Splitting at the first separator. */
  lemma {:induction false} SplitFirst(head: string, rest: string, sep: char)
    requires sep !in head
    ensures Split(head + [sep] + rest, sep) == [head] + Split(rest, sep)
  {
    var s := head + [sep] + rest;
    if head == [] {
      assert s == [sep] + rest && s[0] == sep && s[1..] == rest;
    } else {
      assert s[0] == head[0] && head[0] != sep;
      assert s[1..] == head[1..] + [sep] + rest;
      SplitFirst(head[1..], rest, sep);
      assert [head[0]] + head[1..] == head;
    }
  }

  /** An unknown intermediate segment does not make a key a no-op: the walk stops before
      it, and the last segment is set on the record reached so far. */
  lemma UnknownSegmentSkipped(needs: Needs, unknown: string, minutes: int)
    requires '.' !in unknown && unknown !in NeedsFields
    ensures ApplyOne(needs, unknown + ".max_duration_minutes", Json.Int(minutes)).maxDurationMinutes == Some(minutes)
  {
    var name := "max_duration_minutes";
    assert unknown + ".max_duration_minutes" == unknown + "." + name;
    SplitTwo(unknown, name);
    ApplyOneParts(needs, unknown + "." + name, Json.Int(minutes), [unknown], name);
    WalkUnknown(needs, unknown);
    SetDuration(needs, minutes);
  }

  /** A first segment naming no field of the needs stops the walk at once. */
  lemma WalkUnknown(needs: Needs, unknown: string)
    requires unknown !in NeedsFields
    ensures Walk(needs, AtNeeds, [unknown]) == AtNeeds
  {
    assert Step(needs, AtNeeds, [unknown][0]).None?;
  }

  /** Setting `max_duration_minutes` on the needs to an integer stores it. */
  lemma SetDuration(needs: Needs, minutes: int)
    ensures SetAt(needs, AtNeeds, "max_duration_minutes", Json.Int(minutes)).maxDurationMinutes == Some(minutes)
  {
  }

  /** `ApplyOne` on a key whose segments are known. */
  lemma ApplyOneParts(needs: Needs, key: string, v: Json.Value, prefix: seq<string>, last: string)
    requires Split(key, '.') == prefix + [last]
    ensures ApplyOne(needs, key, v) == SetAt(needs, Walk(needs, AtNeeds, prefix), last, v)
  {
    var parts := Split(key, '.');
    assert parts[..|parts| - 1] == prefix;
  }

  lemma SplitTwo(first: string, second: string)
    requires '.' !in first && '.' !in second
    ensures Split(first + "." + second, '.') == [first, second]
  {
    assert first + "." + second == first + ['.'] + second;
    SplitFirst(first, second, '.');
    SplitWhole(second, '.');
  }

  /** The last key decides a field, whatever the earlier keys did: here the budget's maximum
      price, reached through an unknown segment that the walk stops before. */
  lemma LaterKeyWins(needs: Needs, earlier: seq<(string, Json.Value)>, unknown: string, price: real)
    requires '.' !in unknown && unknown !in BudgetFields
    ensures ApplyAll(needs, earlier + [("budget." + unknown + ".max_price", Json.Float(price))]).budget.maxPrice
            == Some(price)
  {
    var key := "budget." + unknown + ".max_price";
    var adjusted := earlier + [(key, Json.Float(price))];
    assert adjusted[..|adjusted| - 1] == earlier;
    assert key == "budget" + ['.'] + (unknown + "." + "max_price");
    SplitTwo(unknown, "max_price");
    SplitFirst("budget", unknown + "." + "max_price", '.');
    var parts := Split(key, '.');
    assert parts[..|parts| - 1] == ["budget", unknown] && parts[|parts| - 1] == "max_price";
    var before := ApplyAll(needs, earlier);
    assert Walk(before, AtNeeds, ["budget", unknown]) == AtBudget;
  }

  /** Assigning an empty priorities list bypasses the validator: the adjusted needs have no
      priorities, although construction would have supplied [price]. */
  lemma EmptyPrioritiesKept(needs: Needs)
    ensures ApplyAll(needs, [("priorities", Json.List([]))]).priorities == []
  {
    SingleSegment(needs, "priorities", Json.List([]));
    assert [("priorities", Json.List([]))][..0] == [];
  }

  /** A tag that names no member of its enum makes the whole value unusable: a tag list
      holding it, or the tag alone, leaves the field as it was. */
  lemma UnknownTagKeepsField(needs: Needs, items: seq<Json.Value>, i: int, tag: string)
    requires 0 <= i < |items| && items[i] == Json.Str(tag)
    requires TransportFromTag(tag).None? && SeatFromTag(tag).None? && PriorityFromTag(tag).None?
    requires TimePreferenceFromTag(tag).None? && PriceLevelFromTag(tag).None?
    ensures SetNeedsField(needs, "preferred_transport_types", Json.List(items)) == needs
    ensures SetNeedsField(needs, "preferred_seat_classes", Json.List(items)) == needs
    ensures SetNeedsField(needs, "priorities", Json.List(items)) == needs
    ensures SetRangeField(needs.departureTimeRange, "preferred_time", Json.Str(tag)) == needs.departureTimeRange
    ensures SetBudgetField(needs.budget, "price_level", Json.Str(tag)) == needs.budget
  {
  }

  /** A key without a dot names an attribute of the needs record itself. */
  lemma SingleSegment(needs: Needs, name: string, v: Json.Value)
    requires '.' !in name
    ensures ApplyOne(needs, name, v) == SetNeedsField(needs, name, v)
  {
    SplitWhole(name, '.');
  }

  // ---------------------------------------------------------------- strengths and weaknesses

  const NeedsStrength: string := "推荐方案很好地匹配了用户的核心需求"
  const CompletenessStrength: string := "提供了全面且多样化的选择"
  const PracticalityStrength: string := "推荐具有很高的实用性和便利性"

  /** The three strength sentences, in the order they are considered. */
  const StrengthOrder: seq<string> := [NeedsStrength, CompletenessStrength, PracticalityStrength]

  /** A strength list for the scores: the sentence of every dimension scoring 85 or more,
      each once, in the fixed order, and nothing else. */
  ghost predicate StrengthList(strengths: seq<string>, scores: Score) {
    (forall i, j :: 0 <= i < j < |strengths| ==>
       exists p, q :: 0 <= p < q < 3 && strengths[i] == StrengthOrder[p] && strengths[j] == StrengthOrder[q])
    && (NeedsStrength in strengths <==> scores.needsMatch >= 85.0)
    && (CompletenessStrength in strengths <==> scores.completeness >= 85.0)
    && (PracticalityStrength in strengths <==> scores.practicality >= 85.0)
    && (forall s :: s in strengths ==> s in StrengthOrder)
  }

  /** A suggestion is read as a weakness when it starts with "改进" or mentions "应该" or
      "需要". */
  predicate Flagged(suggestion: string) {
    StartsWith(suggestion, "改进") || Contains(suggestion, "应该") || Contains(suggestion, "需要")
  }

  /** The weakness wording: "改进" dropped, "应该" and "需要" both turned into "缺乏". */
  function Rewrite(suggestion: string): string {
    ReplaceAll(ReplaceAll(ReplaceAll(suggestion, "改进", ""), "应该", "缺乏"), "需要", "缺乏")
  }

  /** The weaknesses read from a suggestion list: the flagged suggestions, rewritten, in
      order. */
  function Weaknesses(suggestions: seq<string>): (w: seq<string>)
    ensures |w| <= |suggestions|
  {
    if suggestions == [] then []
    else
      var last := suggestions[|suggestions| - 1];
      Weaknesses(suggestions[..|suggestions| - 1]) + if Flagged(last) then [Rewrite(last)] else []
  }

  /** The weaknesses of joined lists are the weaknesses of each, joined. */
  lemma {:induction false} WeaknessesAppend(a: seq<string>, b: seq<string>)
    ensures Weaknesses(a + b) == Weaknesses(a) + Weaknesses(b)
    decreases |b|
  {
    if b == [] {
      assert a + b == a;
    } else {
      assert (a + b)[..|a + b| - 1] == a + b[..|b| - 1];
      assert (a + b)[|a + b| - 1] == b[|b| - 1];
      WeaknessesAppend(a, b[..|b| - 1]);
    }
  }

  /** A single suggestion yields its rewrite when flagged and nothing otherwise. */
  lemma WeaknessOfOne(s: string)
    ensures Weaknesses([s]) == if Flagged(s) then [Rewrite(s)] else []
  {
    assert [s][..0] == [];
  }

  /** Reads strengths off the scores and weaknesses off the suggestions. */
  method ExtractStrengthsWeaknesses(scores: Score, suggestions: seq<string>)
    returns (strengths: seq<string>, weaknesses: seq<string>)
    ensures StrengthList(strengths, scores) && |strengths| <= 3
    ensures weaknesses == Weaknesses(suggestions)
  {
    strengths := [];
    if scores.needsMatch >= 85.0 {
      strengths := strengths + [NeedsStrength];
    }
    if scores.completeness >= 85.0 {
      strengths := strengths + [CompletenessStrength];
    }
    if scores.practicality >= 85.0 {
      strengths := strengths + [PracticalityStrength];
    }
    assert StrengthOrder[0] == NeedsStrength && StrengthOrder[1] == CompletenessStrength
      && StrengthOrder[2] == PracticalityStrength;
    weaknesses := [];
    for i := 0 to |suggestions|
      invariant weaknesses == Weaknesses(suggestions[..i])
    {
      var suggestion := suggestions[i];
      assert suggestions[..i + 1][..i] == suggestions[..i];
      if StartsWith(suggestion, "改进") || Contains(suggestion, "应该") || Contains(suggestion, "需要") {
        var weakness := ReplaceAll(suggestion, "改进", "");
        weakness := ReplaceAll(weakness, "应该", "缺乏");
        weakness := ReplaceAll(weakness, "需要", "缺乏");
        weaknesses := weaknesses + [weakness];
      }
    }
    assert suggestions[..|suggestions|] == suggestions;
  }

  /** The feedback of one iteration: its number, strengths and weaknesses derived from the
      scores and suggestions, the suggestions and the adjustments. */
  method CreateReflectionFeedback(iteration: int, scores: Score, suggestions: seq<string>,
                                  adjusted: seq<(string, Json.Value)>)
    returns (feedback: ReflectionFeedback)
    ensures feedback.iteration == iteration
    ensures StrengthList(feedback.strengths, scores)
    ensures feedback.weaknesses == Weaknesses(suggestions)
    ensures feedback.improvementSuggestions == suggestions
    ensures feedback.adjustedParameters == adjusted
  {
    var strengths, weaknesses := ExtractStrengthsWeaknesses(scores, suggestions);
    feedback := ReflectionFeedback(iteration, strengths, weaknesses, suggestions, adjusted);
  }

  // ---------------------------------------------------------------- the loop

  /** The capabilities the engine relies on. The candidate supply and the reflection step
      receive the number of the call, so their answers may differ from call to call. */
  datatype Capabilities = Capabilities(
    extractNeeds: string -> Needs,
    supplyCandidates: (Needs, nat) -> seq<Ticket>,
    reflect: (nat, seq<RecommendationOption>, Needs, Score, seq<string>) -> seq<(string, Json.Value)>)

  /** The engine's settings: at most `maxIterations` evaluations, and a threshold on the
      overall score at which refinement stops. */
  datatype Engine = Engine(
    capabilities: Capabilities,
    judge: Option<Judge>,
    maxIterations: int := 3,
    scoreThreshold: real := 85.0)

  /** What one round of the loop works on: the needs in force and the options evaluated. */
  datatype Round = Round(needs: Needs, options: seq<RecommendationOption>)

  /** The round that follows `round` once it was evaluated below the threshold: the needs
      with the reflection step's adjustments applied, and the options rebuilt from the
      candidates supplied for them; nothing when the rebuild fails. */
  ghost function Advance(capabilities: Capabilities, iteration: nat, round: Round, scores: Score,
                         suggestions: seq<string>): Option<Round>
  {
    var next := ApplyAll(round.needs, capabilities.reflect(iteration, round.options, round.needs, scores, suggestions));
    var ranked := Ranked(capabilities.supplyCandidates(next, iteration + 1), next);
    if SomeScoreOutOfRange(ranked) then None else Some(Round(next, TopOptions(ranked)))
  }

  /** The round the loop evaluates `k`-th, counting from 0, when it gets that far: the run
      ends before round `k` when an earlier evaluation reached the threshold or a rebuild
      failed. */
  ghost function RoundAt(engine: Engine, start: Round, k: nat): Option<Round>
    decreases k, 1
  {
    if k == 0 then Some(start) else After(engine, start, k - 1)
  }

  /** What follows round `k`: nothing when there is no round `k` or its evaluation reached
      the threshold, otherwise the advance from it. */
  ghost function After(engine: Engine, start: Round, k: nat): Option<Round>
    decreases k, 2
  {
    match RoundAt(engine, start, k)
    case None => None
    case Some(round) =>
      var (scores, suggestions) := Assessment(round.options, round.needs, engine.judge);
      if scores.overall >= engine.scoreThreshold then None
      else Advance(engine.capabilities, k, round, scores, suggestions)
  }

  /** The outcome of the loop run from `start`: `evaluations` are the overall scores of the
      rounds evaluated, in order, at most the iteration budget. A COMPLETED result is either
      the first round to reach the threshold, with that round's scores, or, when the budget
      ran out below the threshold, the round rebuilt last, never evaluated, with all-zero
      scores. A FAILED result follows an evaluation below the threshold whose rebuild
      failed. */
  ghost predicate Outcome(engine: Engine, start: Round, evaluations: seq<real>,
                          status: RecommendationStatus, options: seq<RecommendationOption>,
                          scores: Score, userId: Option<string>)
  {
    var n := |evaluations|;
    var budget := if engine.maxIterations < 0 then 0 else engine.maxIterations;
    n <= budget
    && (forall i :: 0 <= i < n ==>
          RoundAt(engine, start, i).Some?
          && evaluations[i] == Assessment(RoundAt(engine, start, i).value.options,
                                          RoundAt(engine, start, i).value.needs, engine.judge).0.overall)
    && (forall i :: 0 <= i < n - 1 ==> evaluations[i] < engine.scoreThreshold)
    && (status == Completed || status == Failed)
    && (status == Completed ==>
          if n > 0 && evaluations[n - 1] >= engine.scoreThreshold then
            var round := RoundAt(engine, start, n - 1).value;
            options == round.options && userId == round.needs.userId
            && scores == Assessment(round.options, round.needs, engine.judge).0
          else
            n == budget && RoundAt(engine, start, n).Some?
            && options == RoundAt(engine, start, n).value.options
            && userId == RoundAt(engine, start, n).value.needs.userId && scores == ZeroScore)
    && (status == Failed ==>
          n > 0 && evaluations[n - 1] < engine.scoreThreshold && RoundAt(engine, start, n).None?)
  }

  /** `evaluations` are the overall scores of rounds 0, 1, … of the run from `start`. */
  ghost predicate Logged(engine: Engine, start: Round, evaluations: seq<real>)
    decreases |evaluations|
  {
    evaluations == []
    || (Logged(engine, start, evaluations[..|evaluations| - 1])
        && var k := |evaluations| - 1;
           RoundAt(engine, start, k).Some?
           && evaluations[k] == Assessment(RoundAt(engine, start, k).value.options,
                                           RoundAt(engine, start, k).value.needs, engine.judge).0.overall)
  }

  /** The `i`-th logged score is the overall score of round `i`. */
  lemma {:induction false} LoggedAt(engine: Engine, start: Round, evaluations: seq<real>, i: nat)
    requires Logged(engine, start, evaluations)
    requires i < |evaluations|
    ensures RoundAt(engine, start, i).Some?
    ensures evaluations[i] == Assessment(RoundAt(engine, start, i).value.options,
                                         RoundAt(engine, start, i).value.needs, engine.judge).0.overall
    decreases |evaluations|
  {
    if i < |evaluations| - 1 {
      var prefix := evaluations[..|evaluations| - 1];
      LoggedAt(engine, start, prefix, i);
      assert prefix[i] == evaluations[i];
    }
  }

  lemma LoggedAll(engine: Engine, start: Round, evaluations: seq<real>)
    requires Logged(engine, start, evaluations)
    ensures forall i :: 0 <= i < |evaluations| ==>
      RoundAt(engine, start, i).Some?
      && evaluations[i] == Assessment(RoundAt(engine, start, i).value.options,
                                      RoundAt(engine, start, i).value.needs, engine.judge).0.overall
  {
    forall i | 0 <= i < |evaluations|
      ensures RoundAt(engine, start, i).Some?
      ensures evaluations[i] == Assessment(RoundAt(engine, start, i).value.options,
                                           RoundAt(engine, start, i).value.needs, engine.judge).0.overall
    {
      LoggedAt(engine, start, evaluations, i);
    }
  }

  /** Evaluating the next round extends the log by its overall score. */
  lemma LoggedExtend(engine: Engine, start: Round, evaluations: seq<real>, round: Round, scores: Score)
    requires Logged(engine, start, evaluations)
    requires RoundAt(engine, start, |evaluations|) == Some(round)
    requires scores == Assessment(round.options, round.needs, engine.judge).0
    ensures Logged(engine, start, evaluations + [scores.overall])
  {
    assert (evaluations + [scores.overall])[..|evaluations|] == evaluations;
  }

  /** A round evaluated below the threshold is followed by its advance. */
  lemma RoundAtNext(engine: Engine, start: Round, k: nat, round: Round, scores: Score, suggestions: seq<string>)
    requires RoundAt(engine, start, k) == Some(round)
    requires (scores, suggestions) == Assessment(round.options, round.needs, engine.judge)
    requires scores.overall < engine.scoreThreshold
    ensures RoundAt(engine, start, k + 1) == Advance(engine.capabilities, k, round, scores, suggestions)
  {
    assert RoundAt(engine, start, k + 1) == After(engine, start, k);
  }

  /** The run ends at the first evaluation reaching the threshold, with that round. */
  lemma OutcomeReached(engine: Engine, start: Round, evaluations: seq<real>, round: Round,
                       status: RecommendationStatus, options: seq<RecommendationOption>,
                       scores: Score, userId: Option<string>)
    requires Logged(engine, start, evaluations)
    requires 0 < |evaluations| <= (if engine.maxIterations < 0 then 0 else engine.maxIterations)
    requires forall i :: 0 <= i < |evaluations| - 1 ==> evaluations[i] < engine.scoreThreshold
    requires RoundAt(engine, start, |evaluations| - 1) == Some(round)
    requires evaluations[|evaluations| - 1] >= engine.scoreThreshold
    requires status == Completed && options == round.options && userId == round.needs.userId
    requires scores == Assessment(round.options, round.needs, engine.judge).0
    ensures Outcome(engine, start, evaluations, status, options, scores, userId)
  {
    LoggedAll(engine, start, evaluations);
  }

  /** The run ends FAILED after an evaluation below the threshold whose rebuild failed. */
  lemma OutcomeFailed(engine: Engine, start: Round, evaluations: seq<real>, status: RecommendationStatus,
                      options: seq<RecommendationOption>, scores: Score, userId: Option<string>)
    requires Logged(engine, start, evaluations)
    requires 0 < |evaluations| <= (if engine.maxIterations < 0 then 0 else engine.maxIterations)
    requires forall i :: 0 <= i < |evaluations| ==> evaluations[i] < engine.scoreThreshold
    requires RoundAt(engine, start, |evaluations|).None?
    requires status == Failed
    ensures Outcome(engine, start, evaluations, status, options, scores, userId)
  {
    LoggedAll(engine, start, evaluations);
  }

  /** The run ends COMPLETED with the last rebuilt round when the budget runs out. */
  lemma OutcomeExhausted(engine: Engine, start: Round, evaluations: seq<real>, round: Round,
                         status: RecommendationStatus, options: seq<RecommendationOption>,
                         scores: Score, userId: Option<string>)
    requires Logged(engine, start, evaluations)
    requires |evaluations| == (if engine.maxIterations < 0 then 0 else engine.maxIterations)
    requires forall i :: 0 <= i < |evaluations| ==> evaluations[i] < engine.scoreThreshold
    requires RoundAt(engine, start, |evaluations|) == Some(round)
    requires status == Completed && options == round.options && userId == round.needs.userId
    requires scores == ZeroScore
    ensures Outcome(engine, start, evaluations, status, options, scores, userId)
  {
    LoggedAll(engine, start, evaluations);
  }

  /** `Outcome` pins the run down: the evaluations and the status are determined by the
      engine and the first round, and so is the result of a completed run. */
  lemma OutcomeDetermined(engine: Engine, start: Round,
                          e1: seq<real>, status1: RecommendationStatus, options1: seq<RecommendationOption>,
                          scores1: Score, userId1: Option<string>,
                          e2: seq<real>, status2: RecommendationStatus, options2: seq<RecommendationOption>,
                          scores2: Score, userId2: Option<string>)
    requires Outcome(engine, start, e1, status1, options1, scores1, userId1)
    requires Outcome(engine, start, e2, status2, options2, scores2, userId2)
    ensures e1 == e2 && status1 == status2
    ensures status1 == Completed ==> options1 == options2 && scores1 == scores2 && userId1 == userId2
  {
    OutcomeNotShorter(engine, start, e1, status1, options1, scores1, userId1, e2, status2, options2, scores2, userId2);
    OutcomeNotShorter(engine, start, e2, status2, options2, scores2, userId2, e1, status1, options1, scores1, userId1);
    assert forall i :: 0 <= i < |e1| ==> e1[i] == e2[i];
  }

  /** No outcome of a run is shorter than another one. */
  lemma OutcomeNotShorter(engine: Engine, start: Round,
                          e1: seq<real>, status1: RecommendationStatus, options1: seq<RecommendationOption>,
                          scores1: Score, userId1: Option<string>,
                          e2: seq<real>, status2: RecommendationStatus, options2: seq<RecommendationOption>,
                          scores2: Score, userId2: Option<string>)
    requires Outcome(engine, start, e1, status1, options1, scores1, userId1)
    requires Outcome(engine, start, e2, status2, options2, scores2, userId2)
    ensures |e2| <= |e1|
  {
    assert forall i :: 0 <= i < |e1| && i < |e2| ==> e1[i] == e2[i];
  }

  /** One evaluation, seen only through what it yields. */
  method Assess(options: seq<RecommendationOption>, needs: Needs, judge: Option<Judge>)
    returns (scores: Score, suggestions: seq<string>)
    ensures (scores, suggestions) == Assessment(options, needs, judge)
  {
    scores, suggestions := Evaluate(options, needs, judge);
  }

  /** One refinement round after an evaluation below the threshold: ask for adjustments,
      apply them to the needs, record the feedback on the recommendation that was
      evaluated, and rebuild from the candidates supplied for the adjusted needs. */
  method Refine(capabilities: Capabilities, iteration: nat, recommendation: Recommendation,
                needs: Needs, scores: Score, suggestions: seq<string>, queryText: string)
    returns (adjustedNeeds: Needs, rebuilt: Result<Recommendation>)
    modifies recommendation
    ensures var adjusted := capabilities.reflect(iteration, old(recommendation.options), needs, scores, suggestions);
      adjustedNeeds == ApplyAll(needs, adjusted)
      && |recommendation.reflectionHistory| == |old(recommendation.reflectionHistory)| + 1
      && recommendation.reflectionHistory[..|recommendation.reflectionHistory| - 1]
         == old(recommendation.reflectionHistory)
      && var feedback := recommendation.reflectionHistory[|recommendation.reflectionHistory| - 1];
         feedback.iteration == iteration + 1
         && feedback.improvementSuggestions == suggestions && feedback.adjustedParameters == adjusted
    ensures recommendation.reflectionIterations == old(recommendation.reflectionIterations) + 1
    ensures recommendation.options == old(recommendation.options)
    ensures Advance(capabilities, iteration, Round(needs, old(recommendation.options)), scores, suggestions)
      == if rebuilt.Success? then Some(Round(adjustedNeeds, rebuilt.value.options)) else None
    ensures rebuilt.Failure? ==> rebuilt.error == ScoreOutOfRange
    ensures rebuilt.Success? ==>
      fresh(rebuilt.value)
      && rebuilt.value.queryText == queryText && rebuilt.value.userId == adjustedNeeds.userId
      && rebuilt.value.status == Processing
      && rebuilt.value.scores == ZeroScore && rebuilt.value.errorText.None?
      && rebuilt.value.reflectionIterations == 0 && rebuilt.value.reflectionHistory == []
      && |rebuilt.value.options| <= MaxOptions
  {
    var adjusted := capabilities.reflect(iteration, recommendation.options, needs, scores, suggestions);
    adjustedNeeds := ApplyImprovements(needs, adjusted);
    var feedback := CreateReflectionFeedback(iteration + 1, scores, suggestions, adjusted);
    recommendation.AddReflection(feedback);
    var candidates := capabilities.supplyCandidates(adjustedNeeds, iteration + 1);
    rebuilt := GenerateRecommendations(adjustedNeeds, candidates, queryText);
  }

  /** `Refine` seen as one step of the run from `start`: the round after `iteration` is the
      rebuilt recommendation with the adjusted needs, or none when the rebuild failed. */
  method RefineRound(engine: Engine, ghost start: Round, iteration: nat, recommendation: Recommendation,
                     needs: Needs, scores: Score, suggestions: seq<string>, queryText: string)
    returns (adjustedNeeds: Needs, rebuilt: Result<Recommendation>)
    requires RoundAt(engine, start, iteration) == Some(Round(needs, recommendation.options))
    requires (scores, suggestions) == Assessment(recommendation.options, needs, engine.judge)
    requires scores.overall < engine.scoreThreshold
    modifies recommendation
    ensures RoundAt(engine, start, iteration + 1)
      == if rebuilt.Success? then Some(Round(adjustedNeeds, rebuilt.value.options)) else None
    ensures rebuilt.Failure? ==> rebuilt.error == ScoreOutOfRange
    ensures rebuilt.Success? ==>
      fresh(rebuilt.value)
      && rebuilt.value.queryText == queryText && rebuilt.value.userId == adjustedNeeds.userId
      && rebuilt.value.status == Processing
      && rebuilt.value.scores == ZeroScore && rebuilt.value.errorText.None?
      && rebuilt.value.reflectionIterations == 0 && rebuilt.value.reflectionHistory == []
      && |rebuilt.value.options| <= MaxOptions
  {
    RoundAtNext(engine, start, iteration, Round(needs, recommendation.options), scores, suggestions);
    adjustedNeeds, rebuilt := Refine(engine.capabilities, iteration, recommendation, needs, scores,
                                     suggestions, queryText);
  }

  /** How one pass of the loop ended: the evaluation reached the threshold, or the
      recommendation was rebuilt for the adjusted needs, or the rebuild failed. */
  datatype Pass = Reached | Rebuilt(needs: Needs, next: Recommendation) | Broken(error: string)

  /** One pass of the loop over round `iteration`: evaluate the recommendation and record the
      scores on it, then stop when they reach the threshold, or else reflect, adjust the
      needs and rebuild. */
  method Cycle(engine: Engine, ghost start: Round, iteration: nat, recommendation: Recommendation,
               needs: Needs, queryText: string, ghost evaluations: seq<real>)
    returns (scores: Score, pass: Pass)
    requires RoundAt(engine, start, iteration) == Some(Round(needs, recommendation.options))
    requires Logged(engine, start, evaluations) && |evaluations| == iteration
    modifies recommendation
    ensures scores == Assessment(old(recommendation.options), needs, engine.judge).0
    ensures Logged(engine, start, evaluations + [scores.overall])
    ensures pass.Reached? <==> scores.overall >= engine.scoreThreshold
    ensures pass.Reached? ==>
      recommendation.scores == scores && recommendation.options == old(recommendation.options)
      && recommendation.status == old(recommendation.status)
      && recommendation.errorText == old(recommendation.errorText)
      && recommendation.reflectionIterations == old(recommendation.reflectionIterations)
      && recommendation.reflectionHistory == old(recommendation.reflectionHistory)
    ensures pass.Broken? ==> pass.error == ScoreOutOfRange && RoundAt(engine, start, iteration + 1).None?
    ensures pass.Rebuilt? ==>
      RoundAt(engine, start, iteration + 1) == Some(Round(pass.needs, pass.next.options))
      && fresh(pass.next) && pass.next.queryText == queryText && pass.next.userId == pass.needs.userId
      && pass.next.status == Processing && pass.next.scores == ZeroScore && pass.next.errorText.None?
      && pass.next.reflectionIterations == 0 && pass.next.reflectionHistory == []
      && |pass.next.options| <= MaxOptions
  {
    ghost var round := Round(needs, recommendation.options);
    var suggestions;
    scores, suggestions := Assess(recommendation.options, needs, engine.judge);
    recommendation.scores := scores;
    LoggedExtend(engine, start, evaluations, round, scores);
    if scores.overall >= engine.scoreThreshold {
      return scores, Reached;
    }
    var adjusted, built := RefineRound(engine, start, iteration, recommendation, needs, scores,
                                       suggestions, queryText);
    pass := if built.Success? then Rebuilt(adjusted, built.value) else Broken(built.error);
  }

  /** The state of the loop before evaluating round `iteration`: an unevaluated recommendation
      of round `iteration` for the needs `current`, and one score below the threshold logged
      per earlier round. */
  ghost predicate Midway(engine: Engine, start: Round, queryText: string, iteration: nat,
                         evaluations: seq<real>, cycles: nat, recommendation: Recommendation, current: Needs)
    reads recommendation
  {
    recommendation.queryText == queryText && recommendation.userId == current.userId
    && (recommendation.status == Processing || recommendation.status == Refined)
    && recommendation.scores == ZeroScore && recommendation.errorText.None?
    && recommendation.reflectionIterations == 0 && recommendation.reflectionHistory == []
    && |recommendation.options| <= MaxOptions
    && RoundAt(engine, start, iteration) == Some(Round(current, recommendation.options))
    && |evaluations| == iteration && cycles == iteration
    && (forall i :: 0 <= i < |evaluations| ==> evaluations[i] < engine.scoreThreshold)
    && Logged(engine, start, evaluations)
  }

  /** What the loop run from `start` leaves: the `Outcome` of the run, COMPLETED with no error
      and no reflection history or FAILED with the score error, no options, all-zero scores
      and the original user; `cycles` counts the rebuilds, one fewer than the evaluations when
      the last one reached the threshold. */
  ghost predicate Finished(engine: Engine, start: Round, queryText: string, evaluations: seq<real>,
                           cycles: nat, r: Recommendation)
    reads r
  {
    var n := |evaluations|;
    r.queryText == queryText
    && Outcome(engine, start, evaluations, r.status, r.options, r.scores, r.userId)
    && cycles <= n
    && (r.status == Completed || (r.status == Failed && r.errorText == Some(ScoreOutOfRange)))
    && (r.status == Failed ==>
          r.scores == ZeroScore && r.options == [] && cycles == n && r.userId == start.needs.userId)
    && (r.status == Completed ==>
          r.errorText.None? && r.reflectionIterations == 0 && r.reflectionHistory == []
          && |r.options| <= MaxOptions
          && if n > 0 && evaluations[n - 1] >= engine.scoreThreshold
             then r.scores.overall == evaluations[n - 1] && cycles == n - 1
             else r.scores == ZeroScore && cycles == n)
  }

  /** One iteration of the loop: evaluate round `iteration` and either stop with the final
      recommendation (threshold reached, or the rebuild failed) or go on with the rebuilt one,
      marked refined. */
  method Iterate(engine: Engine, ghost start: Round, userId: Option<string>, iteration: nat,
                 recommendation: Recommendation, current: Needs, queryText: string,
                 ghost evaluations: seq<real>, ghost cycles: nat)
    returns (next: Recommendation, nextNeeds: Needs, stop: bool,
             ghost nextEvaluations: seq<real>, ghost nextCycles: nat)
    requires Midway(engine, start, queryText, iteration, evaluations, cycles, recommendation, current)
    requires userId == start.needs.userId
    requires iteration < (if engine.maxIterations < 0 then 0 else engine.maxIterations)
    modifies recommendation
    ensures next == recommendation || fresh(next)
    ensures stop ==> Finished(engine, start, queryText, nextEvaluations, nextCycles, next)
    ensures !stop ==>
      Midway(engine, start, queryText, iteration + 1, nextEvaluations, nextCycles, next, nextNeeds)
  {
    ghost var round := Round(current, recommendation.options);
    var scores, pass := Cycle(engine, start, iteration, recommendation, current, queryText, evaluations);
    nextEvaluations, nextCycles, nextNeeds := evaluations + [scores.overall], cycles, current;
    if pass.Reached? {
      recommendation.status := Completed;
      OutcomeReached(engine, start, nextEvaluations, round, recommendation.status,
                     recommendation.options, recommendation.scores, recommendation.userId);
      return recommendation, current, true, nextEvaluations, nextCycles;
    }
    nextCycles := cycles + 1;
    if pass.Broken? {
      next := new Recommendation(queryText, userId, ZeroScore, Failed, Some(pass.error));
      OutcomeFailed(engine, start, nextEvaluations, next.status, next.options, next.scores, next.userId);
      return next, current, true, nextEvaluations, nextCycles;
    }
    next, nextNeeds, stop := pass.next, pass.needs, false;
    next.status := Refined;
  }

  /** The end of the loop once the budget is spent: the last rebuilt recommendation, never
      evaluated, is marked completed. */
  method Conclude(engine: Engine, ghost start: Round, queryText: string, recommendation: Recommendation,
                  current: Needs, ghost evaluations: seq<real>, ghost cycles: nat)
    requires Midway(engine, start, queryText, (if engine.maxIterations < 0 then 0 else engine.maxIterations),
                    evaluations, cycles, recommendation, current)
    modifies recommendation
    ensures Finished(engine, start, queryText, evaluations, cycles, recommendation)
  {
    ghost var last := Round(current, recommendation.options);
    if recommendation.status != Completed {
      recommendation.status := Completed;
    }
    OutcomeExhausted(engine, start, evaluations, last, recommendation.status, recommendation.options,
                     recommendation.scores, recommendation.userId);
  }

  /** The full flow: extract the needs, fetch candidates (failing with all-zero scores when
      there are none), build a recommendation, and refine it. `evaluations` lists the
      overall score of every evaluation; `cycles` counts reflect-adjust-rebuild rounds. */
  method Recommend(engine: Engine, conversationText: string)
    returns (r: Recommendation, ghost evaluations: seq<real>, ghost cycles: nat)
    ensures fresh(r)
    ensures r.queryText == conversationText
    ensures r.status == Completed || r.status == Failed
    ensures |evaluations| <= (if engine.maxIterations < 0 then 0 else engine.maxIterations)
    ensures cycles <= |evaluations|
    ensures forall i :: 0 <= i < |evaluations| - 1 ==> evaluations[i] < engine.scoreThreshold
    ensures var needs := engine.capabilities.extractNeeds(conversationText);
      engine.capabilities.supplyCandidates(needs, 0) == [] <==> (r.status == Failed && r.errorText.None?)
    ensures var needs := engine.capabilities.extractNeeds(conversationText);
      var candidates := engine.capabilities.supplyCandidates(needs, 0);
      var ranked := Ranked(candidates, needs);
      candidates != [] && SomeScoreOutOfRange(ranked) ==> r.status == Failed && evaluations == []
    ensures var needs := engine.capabilities.extractNeeds(conversationText);
      var candidates := engine.capabilities.supplyCandidates(needs, 0);
      var ranked := Ranked(candidates, needs);
      candidates != [] && !SomeScoreOutOfRange(ranked) ==>
        Outcome(engine, Round(needs, TopOptions(ranked)), evaluations, r.status, r.options, r.scores, r.userId)
    ensures r.status == Failed ==>
      r.scores == ZeroScore && r.options == [] && cycles == |evaluations|
      && r.userId == engine.capabilities.extractNeeds(conversationText).userId
    ensures r.errorText.Some? ==> r.status == Failed && r.errorText.value == ScoreOutOfRange
    ensures r.status == Completed ==>
      r.errorText.None? && r.reflectionIterations == 0 && r.reflectionHistory == []
      && |r.options| <= MaxOptions
      && if |evaluations| > 0 && evaluations[|evaluations| - 1] >= engine.scoreThreshold
         then r.scores.overall == evaluations[|evaluations| - 1] && cycles == |evaluations| - 1
         else r.scores == ZeroScore && cycles == |evaluations|
  {
    evaluations, cycles := [], 0;
    var needs := engine.capabilities.extractNeeds(conversationText);
    var candidates := engine.capabilities.supplyCandidates(needs, 0);
    if candidates == [] {
      r := new Recommendation(conversationText, needs.userId, ZeroScore, Failed);
      return;
    }
    var built := GenerateRecommendations(needs, candidates, conversationText);
    if built.Failure? {
      r := new Recommendation(conversationText, needs.userId, ZeroScore, Failed, Some(built.error));
      return;
    }
    r, evaluations, cycles := RefineLoop(engine, needs, built.value, conversationText);
  }

  /** The reflection loop of the full flow: up to `maxIterations` times evaluate the
      recommendation, stop once the overall score reaches the threshold, or else reflect,
      adjust the needs, record feedback on the current recommendation and rebuild; a
      recommendation still below the threshold at the end is marked completed as well. */
  method RefineLoop(engine: Engine, needs: Needs, first: Recommendation, queryText: string)
    returns (r: Recommendation, ghost evaluations: seq<real>, ghost cycles: nat)
    requires first.queryText == queryText && first.userId == needs.userId && first.status == Processing
    requires first.scores == ZeroScore && first.errorText.None?
    requires first.reflectionIterations == 0 && first.reflectionHistory == []
    requires |first.options| <= MaxOptions
    modifies first
    ensures r == first || fresh(r)
    ensures Finished(engine, Round(needs, old(first.options)), queryText, evaluations, cycles, r)
  {
    evaluations, cycles := [], 0;
    ghost var start := Round(needs, first.options);
    var recommendation, current := first, needs;
    var rounds := if engine.maxIterations < 0 then 0 else engine.maxIterations;
    for iteration := 0 to rounds
      invariant recommendation == first || fresh(recommendation)
      invariant Midway(engine, start, queryText, iteration, evaluations, cycles, recommendation, current)
    {
      var stop;
      recommendation, current, stop, evaluations, cycles :=
        Iterate(engine, start, needs.userId, iteration, recommendation, current, queryText, evaluations, cycles);
      if stop {
        return recommendation, evaluations, cycles;
      }
    }
    Conclude(engine, start, queryText, recommendation, current, evaluations, cycles);
    r := recommendation;
  }

}
