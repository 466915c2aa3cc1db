/** The rule-based quality evaluator: three dimension scores for a recommendation and the
    improvement suggestions that follow from them. An optional judge stands for the
    language-model client, whose answers are not modelled. */
module Evaluator {
  import opened Wrappers
  import opened Strings
  import opened TicketData
  import opened UserNeeds
  import opened Recommendations
  import opened DataProcessor

  /** `max(0, min(100, x))`. */
  function Clamp(x: real): (r: Percent)
    ensures 0.0 <= x <= 100.0 ==> r == x
    ensures x < 0.0 ==> r == 0.0
    ensures x > 100.0 ==> r == 100.0
  {
    if x < 0.0 then 0.0 else if x > 100.0 then 100.0 else x
  }

  // ---------------------------------------------------------------- needs match

  /** The first `min(3, n)` options, the only ones the needs-match rules look at. */
  function TopThree(options: seq<RecommendationOption>): (top: seq<RecommendationOption>)
    ensures |top| == if |options| < 3 then |options| else 3
    ensures top == options[..|top|]
  {
    options[..if |options| < 3 then |options| else 3]
  }

  predicate ModeMatch(top: seq<RecommendationOption>, needs: Needs) {
    exists i | 0 <= i < |top| :: top[i].ticket.transportType in needs.preferredTransportTypes
  }

  predicate SeatMatch(top: seq<RecommendationOption>, needs: Needs) {
    needs.preferredSeatClasses.Some?
    && exists i | 0 <= i < |top| :: top[i].ticket.seatClass in needs.preferredSeatClasses.value
  }

  predicate WithinMaxPrice(top: seq<RecommendationOption>, maxPrice: real) {
    forall i | 0 <= i < |top| :: top[i].ticket.price <= maxPrice
  }

  predicate DepartsInside(top: seq<RecommendationOption>, start: Instant, end: Instant) {
    exists i | 0 <= i < |top| ::
      start.minutes <= top[i].ticket.departureTime.minutes <= end.minutes
  }

  /** Needs match: 80, then +5/-10 for a preferred mode among the top options, +5/-5 for a
      preferred seat class when a seat preference is set, +10/-15 for every top option
      within the maximum price when one is set, +10/-15 for a top option departing inside
      the window when both ends are set; clamped to [0, 100]. */
  function NeedsMatch(options: seq<RecommendationOption>, needs: Needs): (r: Percent)
    ensures 35.0 <= r <= 100.0
  {
    var top := TopThree(options);
    var window := needs.departureTimeRange;
    var mode := if ModeMatch(top, needs) then 5.0 else -10.0;
    var seat := if !SeatPreferenceSet(needs) then 0.0 else if SeatMatch(top, needs) then 5.0 else -5.0;
    var price :=
      if !IsSet(needs.budget.maxPrice) then 0.0
      else if WithinMaxPrice(top, needs.budget.maxPrice.value) then 10.0 else -15.0;
    var time :=
      if window.startTime.None? || window.endTime.None? then 0.0
      else if DepartsInside(top, window.startTime.value, window.endTime.value) then 10.0 else -15.0;
    Clamp(80.0 + mode + seat + price + time)
  }

  /** Options after the third never change the needs-match score. */
  lemma NeedsMatchTopThree(options: seq<RecommendationOption>, more: seq<RecommendationOption>, needs: Needs)
    requires |options| >= 3
    ensures NeedsMatch(options + more, needs) == NeedsMatch(options, needs)
  {
    assert TopThree(options + more) == TopThree(options);
  }

  /** With no seat preference, no maximum price and an open window, only the mode rule
      counts: 85 when a top option has a preferred mode, 70 otherwise. */
  lemma NeedsMatchModeOnly(options: seq<RecommendationOption>, needs: Needs)
    requires !SeatPreferenceSet(needs) && !IsSet(needs.budget.maxPrice)
    requires needs.departureTimeRange.startTime.None?
    ensures NeedsMatch(options, needs) == if ModeMatch(TopThree(options), needs) then 85.0 else 70.0
  {
  }

  /** A score of 100 needs a preferred mode among the top options and, where they apply,
      the price and time rules satisfied; a failed seat rule alone still allows 100. */
  lemma NeedsMatchFullNeedsAllRules(options: seq<RecommendationOption>, needs: Needs)
    requires NeedsMatch(options, needs) == 100.0
    ensures ModeMatch(TopThree(options), needs)
    ensures IsSet(needs.budget.maxPrice) ==> WithinMaxPrice(TopThree(options), needs.budget.maxPrice.value)
    ensures needs.departureTimeRange.startTime.Some? && needs.departureTimeRange.endTime.Some? ==>
      DepartsInside(TopThree(options), needs.departureTimeRange.startTime.value,
                    needs.departureTimeRange.endTime.value)
  {
  }

  // ---------------------------------------------------------------- completeness

  /** The distinct transport modes among the options. */
  function Modes(options: seq<RecommendationOption>): set<TransportType> {
    set i | 0 <= i < |options| :: options[i].ticket.transportType
  }

  /** The distinct departure hours among the options. */
  function Hours(options: seq<RecommendationOption>): set<int> {
    set i | 0 <= i < |options| :: options[i].ticket.departureTime.Hour()
  }

  function PriceSum(options: seq<RecommendationOption>): real {
    if options == [] then 0.0 else PriceSum(options[..|options| - 1]) + options[|options| - 1].ticket.price
  }

  function HighestPrice(options: seq<RecommendationOption>): (m: real)
    requires options != []
    ensures forall i :: 0 <= i < |options| ==> options[i].ticket.price <= m
    ensures exists i :: 0 <= i < |options| && options[i].ticket.price == m
  {
    if |options| == 1 then options[0].ticket.price
    else
      var m := HighestPrice(options[..|options| - 1]);
      var p := options[|options| - 1].ticket.price;
      if p > m then p else m
  }

  function LowestPrice(options: seq<RecommendationOption>): (m: real)
    requires options != []
    ensures forall i :: 0 <= i < |options| ==> m <= options[i].ticket.price
    ensures exists i :: 0 <= i < |options| && options[i].ticket.price == m
  {
    if |options| == 1 then options[0].ticket.price
    else
      var m := LowestPrice(options[..|options| - 1]);
      var p := options[|options| - 1].ticket.price;
      if p < m then p else m
  }

  /** The spread of prices is moderate: positive and at most half the mean price. */
  predicate ModeratePriceRange(options: seq<RecommendationOption>) {
    |options| > 1
    && var spread := HighestPrice(options) - LowestPrice(options);
       0.0 < spread <= PriceSum(options) / (|options| as real) * 0.5
  }

  /** Completeness: 0 without options; otherwise 75, then +10 for five or more options,
      +5 for three or four, -10 for a single one, +5 per distinct mode up to +10, +5 for a
      moderate price range and +5 for three or more distinct departure hours; clamped. */
  function Completeness(options: seq<RecommendationOption>): (r: Percent)
    ensures options == [] <==> r == 0.0
    ensures options != [] ==> 70.0 <= r <= 100.0
  {
    var n := |options|;
    if n == 0 then 0.0
    else
      assert options[0].ticket.transportType in Modes(options);
      var count := if n >= 5 then 10.0 else if n >= 3 then 5.0 else if n == 1 then -10.0 else 0.0;
      var diversity := if 5 * |Modes(options)| < 10 then (5 * |Modes(options)|) as real else 10.0;
      var price := if ModeratePriceRange(options) then 5.0 else 0.0;
      var hours := if |Hours(options)| >= 3 then 5.0 else 0.0;
      Clamp(75.0 + count + diversity + price + hours)
  }

  /** A single option always scores exactly 70: -10 for the count, +5 for its one mode,
      and neither the price nor the hours bonus can apply. */
  lemma SingleOptionCompleteness(option: RecommendationOption)
    ensures Completeness([option]) == 70.0
  {
    var options := [option];
    assert Modes(options) == {option.ticket.transportType};
    assert Hours(options) == {option.ticket.departureTime.Hour()};
  }

  /** Five or more options score at least 90. */
  lemma ManyOptionsCompleteness(options: seq<RecommendationOption>)
    requires |options| >= 5
    ensures Completeness(options) >= 90.0
  {
    assert options[0].ticket.transportType in Modes(options);
  }

  // ---------------------------------------------------------------- practicality

  /** The number of options with at least one seat left. */
  function CountAvailable(options: seq<RecommendationOption>): (c: nat)
    ensures c <= |options|
    ensures c == 0 <==> forall i :: 0 <= i < |options| ==> options[i].ticket.availableSeats <= 0
  {
    if options == [] then 0
    else
      var rest := options[..|options| - 1];
      assert forall i :: 0 <= i < |rest| ==> rest[i] == options[i];
      CountAvailable(rest) + if options[|options| - 1].ticket.availableSeats > 0 then 1 else 0
  }

  /** The number of direct options. */
  function CountDirect(options: seq<RecommendationOption>): (c: nat)
    ensures c <= |options|
    ensures c == 0 <==> forall i :: 0 <= i < |options| ==> !options[i].ticket.IsDirect()
  {
    if options == [] then 0
    else
      var rest := options[..|options| - 1];
      assert forall i :: 0 <= i < |rest| ==> rest[i] == options[i];
      CountDirect(rest) + if options[|options| - 1].ticket.IsDirect() then 1 else 0
  }

  /** A reasonable duration: within the maximum when one is set (zero counts as unset);
      otherwise at most 240 minutes by air or 480 by rail, never by bus or ship. */
  predicate Reasonable(t: Ticket, maxDuration: Option<int>) {
    if IsSetInt(maxDuration) then t.durationMinutes <= maxDuration.value
    else ((t.transportType == Flight && t.durationMinutes <= 240)
          || (t.transportType == Train && t.durationMinutes <= 480))
  }

  function CountReasonable(options: seq<RecommendationOption>, maxDuration: Option<int>): (c: nat)
    ensures c <= |options|
    ensures c == 0 <==> forall i :: 0 <= i < |options| ==> !Reasonable(options[i].ticket, maxDuration)
  {
    if options == [] then 0
    else
      var rest := options[..|options| - 1];
      assert forall i :: 0 <= i < |rest| ==> rest[i] == options[i];
      CountReasonable(rest, maxDuration)
        + if Reasonable(options[|options| - 1].ticket, maxDuration) then 1 else 0
  }

  /** The bonus for reasonable durations: +5 each, at most +15. */
  function DurationBonus(reasonable: nat): (b: real)
    ensures 0.0 <= b <= 15.0 && (b == 0.0 <==> reasonable == 0)
  {
    if 5 * reasonable < 15 then (5 * reasonable) as real else 15.0
  }

  /** The bonus for bookable options: -50 when none has seats, otherwise ten times the
      share of options that have seats. */
  function SeatsBonus(available: nat, n: nat): (b: real)
    requires available <= n
    ensures available == 0 ==> b == -50.0
    ensures available > 0 ==> 0.0 < b <= 10.0
  {
    if available == 0 then -50.0
    else
      FractionBounds(available as real, n as real);
      (available as real) / (n as real) * 10.0
  }

  lemma FractionBounds(part: real, whole: real)
    requires 0.0 < part <= whole
    ensures 0.0 < part / whole <= 1.0
  {
    assert part / whole * whole == part;
  }

  /** Practicality: 70, then the seats bonus, +10 when some option is direct, and the
      duration bonus; clamped. */
  function Practicality(options: seq<RecommendationOption>, needs: Needs): (r: Percent)
    ensures 20.0 <= r <= 100.0
  {
    var direct := if CountDirect(options) > 0 then 10.0 else 0.0;
    Clamp(70.0 + SeatsBonus(CountAvailable(options), |options|) + direct
          + DurationBonus(CountReasonable(options, needs.maxDurationMinutes)))
  }

  /** Bookability decides which side of 70 practicality lands on: above 70 exactly when
      some option has seats, and at most 45 when none has. */
  lemma PracticalityBookable(options: seq<RecommendationOption>, needs: Needs)
    ensures Practicality(options, needs) > 70.0
      <==> exists i :: 0 <= i < |options| && options[i].ticket.availableSeats > 0
    ensures (forall i :: 0 <= i < |options| ==> options[i].ticket.availableSeats <= 0)
      ==> Practicality(options, needs) <= 45.0
  {
    var a := CountAvailable(options);
    if a == 0 {
      assert forall i :: 0 <= i < |options| ==> options[i].ticket.availableSeats <= 0;
    } else {
      assert !(forall i :: 0 <= i < |options| ==> options[i].ticket.availableSeats <= 0);
    }
  }

  /** The practicality rule as the source runs it: the bookable and direct options counted
      by generator sums, and the reasonable durations counted in a loop. */
  method EvaluatePracticality(options: seq<RecommendationOption>, needs: Needs) returns (score: Percent)
    ensures score == Practicality(options, needs)
  {
    var available := CountAvailable(options);
    var direct := CountDirect(options);
    var reasonable := 0;
    for i := 0 to |options|
      invariant reasonable == CountReasonable(options[..i], needs.maxDurationMinutes)
    {
      assert options[..i + 1][..i] == options[..i];
      if Reasonable(options[i].ticket, needs.maxDurationMinutes) {
        reasonable := reasonable + 1;
      }
    }
    assert options[..|options|] == options;
    var raw := 70.0;
    if available == 0 {
      raw := raw - 50.0;
    } else {
      raw := raw + SeatsBonus(available, |options|);
    }
    if direct > 0 {
      raw := raw + 10.0;
    }
    if reasonable > 0 {
      raw := raw + DurationBonus(reasonable);
    }
    score := Clamp(raw);
  }

  // ---------------------------------------------------------------- suggestions

  /** The improvement suggestions the rules can make, in the order the rules run. */
  datatype Directive =
    | FocusCoreNeeds | StayWithinBudget | MatchTimePreference
    | MoreOptions | CoverAllModes
    | MoreBookable | AddDirect
    | AddDistinctiveFeatures
    | AlreadyExcellent | RaiseOverallQuality
  {
    function Rank(): (k: nat)
      ensures k < 10
    {
      match this
      case FocusCoreNeeds => 0
      case StayWithinBudget => 1
      case MatchTimePreference => 2
      case MoreOptions => 3
      case CoverAllModes => 4
      case MoreBookable => 5
      case AddDirect => 6
      case AddDistinctiveFeatures => 7
      case AlreadyExcellent => 8
      case RaiseOverallQuality => 9
    }

    /** The sentence shown to the traveller; the budget and time sentences quote the
        maximum price and the preferred time of the needs. */
    function Text(needs: Needs): string {
      match this
      case FocusCoreNeeds => "重点关注用户的核心需求，特别是交通方式和价格预算"
      case StayWithinBudget =>
        "提供更多符合用户预算(最高" + PriceText(needs.budget.maxPrice.GetOr(0.0)) + ")的选项"
      case MatchTimePreference =>
        "更好地匹配用户的"
        + (match needs.departureTimeRange.preferredTime case Some(p) => p.Tag() case None => "")
        + "时间偏好"
      case MoreOptions => "增加更多样化的推荐选项，至少提供3个不同的选择"
      case CoverAllModes => "尝试覆盖用户偏好的所有交通方式"
      case MoreBookable => "提供更多可立即预订的选项"
      case AddDirect => "尝试提供一些直达选项，减少中转次数"
      case AddDistinctiveFeatures => "整体推荐质量良好，可以尝试提供一些特色服务或独特优势来进一步提升"
      case AlreadyExcellent => "当前推荐已经非常优秀，可以适当增加一些个性化的细节"
      case RaiseOverallQuality => "全面提升推荐方案的质量，确保更好地满足用户需求"
    }
  }

  lemma RankInjective(a: Directive, b: Directive)
    ensures a.Rank() == b.Rank() ==> a == b
  {
  }

  /** The single suggestion made when there is nothing to evaluate. */
  const NoOptionsText: string := "没有找到匹配的推荐选项"

  /** A price as Python prints a float with at most one decimal digit: the whole part, a
      point and the tenths digit. */
  function PriceText(p: real): (s: string)
    ensures |s| >= 3 && s[|s| - 2] == '.'
  {
    var a := if p < 0.0 then -p else p;
    var whole := a.Floor;
    var tenth := ((a - whole as real) * 10.0).Floor;
    (if p < 0.0 then "-" else "") + NatText(whole) + "." + [DigitChar(tenth)]
  }

  /** A whole price prints with a trailing ".0", as 800.0 does. */
  lemma PriceTextWhole(n: nat)
    ensures PriceText(n as real) == NatText(n) + ".0"
  {
    assert (n as real).Floor == n;
  }

  /** The rules other than the two defaults. */
  predicate RuleFires(d: Directive, options: seq<RecommendationOption>, needs: Needs, scores: Score) {
    match d
    case FocusCoreNeeds => scores.needsMatch < 60.0
    case StayWithinBudget =>
      scores.needsMatch < 80.0 && IsSet(needs.budget.maxPrice)
      && HighPriceCount(options, needs.budget.maxPrice.value) > 0
    case MatchTimePreference =>
      scores.needsMatch < 80.0 && needs.departureTimeRange.preferredTime.Some?
    case MoreOptions => scores.completeness < 70.0 && |options| < 3
    case CoverAllModes =>
      scores.completeness < 70.0 && |Modes(options)| < |needs.preferredTransportTypes|
    case MoreBookable =>
      scores.practicality < 80.0 && (CountAvailable(options) as real) < (|options| as real) / 2.0
    case AddDirect =>
      scores.practicality < 80.0 && CountDirect(options) == 0 && |options| > 0
    case AddDistinctiveFeatures =>
      scores.needsMatch >= 80.0 && scores.completeness >= 80.0 && scores.practicality >= 80.0
      && scores.overall < 90.0
    case AlreadyExcellent => false
    case RaiseOverallQuality => false
  }

  /** Some rule other than the two defaults fires. */
  ghost predicate AnyRuleFires(options: seq<RecommendationOption>, needs: Needs, scores: Score) {
    exists d: Directive :: d.Rank() < 8 && RuleFires(d, options, needs, scores)
  }

  /** When a suggestion is made: a rule when its condition holds; a default only when no
      rule fired, "already excellent" at an overall of 90 or more, "raise the overall
      quality" below it. */
  ghost predicate Fires(d: Directive, options: seq<RecommendationOption>, needs: Needs, scores: Score) {
    match d
    case AlreadyExcellent => !AnyRuleFires(options, needs, scores) && scores.overall >= 90.0
    case RaiseOverallQuality => !AnyRuleFires(options, needs, scores) && scores.overall < 90.0
    case _ => RuleFires(d, options, needs, scores)
  }

  /** A suggestion list as the rules produce it: every firing suggestion once, in rule
      order, and nothing else. */
  ghost predicate RuleList(ds: seq<Directive>, options: seq<RecommendationOption>, needs: Needs, scores: Score) {
    (forall i, j :: 0 <= i < j < |ds| ==> ds[i].Rank() < ds[j].Rank())
    && (forall d :: d in ds <==> Fires(d, options, needs, scores))
  }

  /** The rule list is never empty: either a rule fires or one of the defaults does. */
  lemma RuleListNonEmpty(ds: seq<Directive>, options: seq<RecommendationOption>, needs: Needs, scores: Score)
    requires RuleList(ds, options, needs, scores)
    ensures ds != []
  {
    if AnyRuleFires(options, needs, scores) {
      var d: Directive :| d.Rank() < 8 && RuleFires(d, options, needs, scores);
      assert d in ds;
    } else if scores.overall >= 90.0 {
      assert AlreadyExcellent in ds;
    } else {
      assert RaiseOverallQuality in ds;
    }
  }

  /** The rule list is determined by the inputs: two lists that both qualify are equal. */
  lemma {:induction false} RuleListUnique(a: seq<Directive>, b: seq<Directive>,
                                         options: seq<RecommendationOption>, needs: Needs, scores: Score)
    requires RuleList(a, options, needs, scores) && RuleList(b, options, needs, scores)
    ensures a == b
  {
    RankedSameElements(a, b);
  }

  /** Two lists strictly increasing in rank with the same elements are equal. */
  lemma {:induction false} RankedSameElements(a: seq<Directive>, b: seq<Directive>)
    requires forall i, j :: 0 <= i < j < |a| ==> a[i].Rank() < a[j].Rank()
    requires forall i, j :: 0 <= i < j < |b| ==> b[i].Rank() < b[j].Rank()
    requires forall d :: d in a <==> d in b
    ensures a == b
    decreases |a| + |b|
  {
    if a == [] || b == [] {
      Member(a, 0);
      Member(b, 0);
    } else {
      FirstHasLowestRank(a, b[0]);
      FirstHasLowestRank(b, a[0]);
      forall d
        ensures d in a[1..] <==> d in b[1..]
      {
        if d in a[1..] {
          assert d in b;
          var j :| 0 <= j < |b| && b[j] == d;
          assert d != b[0] by {
            var i :| 1 <= i < |a| && a[i] == d;
          }
          assert b[1..][j - 1] == d;
        }
        if d in b[1..] {
          assert d in a;
          var i :| 0 <= i < |a| && a[i] == d;
          assert d != a[0] by {
            var j :| 1 <= j < |b| && b[j] == d;
          }
          assert a[1..][i - 1] == d;
        }
      }
      RankedSameElements(a[1..], b[1..]);
      assert a == [a[0]] + a[1..];
      assert b == [b[0]] + b[1..];
    }
  }

  lemma Member<T>(s: seq<T>, k: int)
    ensures 0 <= k < |s| ==> s[k] in s
  {
  }

  /** In a list strictly increasing in rank, every element is the first or ranks above it. */
  lemma FirstHasLowestRank(s: seq<Directive>, d: Directive)
    requires forall i, j :: 0 <= i < j < |s| ==> s[i].Rank() < s[j].Rank()
    ensures d in s ==> d == s[0] || s[0].Rank() < d.Rank()
  {
    if d in s {
      var i :| 0 <= i < |s| && s[i] == d;
    }
  }

  /** The rule-based suggestions, appended rule by rule as the source does. */
  method ImprovementSuggestions(options: seq<RecommendationOption>, needs: Needs, scores: Score)
    returns (ds: seq<Directive>)
    ensures RuleList(ds, options, needs, scores)
    ensures ds != []
  {
    ds := [];
    if scores.needsMatch < 60.0 {
      ds := ds + [FocusCoreNeeds];
    }
    assert ds == Fired(1, options, needs, scores);
    if scores.needsMatch < 80.0 {
      if IsSet(needs.budget.maxPrice) {
        var highPrice := HighPriceCount(options, needs.budget.maxPrice.value);
        if highPrice > 0 {
          ds := ds + [StayWithinBudget];
        }
      }
      assert ds == Fired(2, options, needs, scores);
      if needs.departureTimeRange.preferredTime.Some? {
        ds := ds + [MatchTimePreference];
      }
    }
    assert ds == Fired(3, options, needs, scores);
    if scores.completeness < 70.0 {
      if |options| < 3 {
        ds := ds + [MoreOptions];
      }
      assert ds == Fired(4, options, needs, scores);
      if |Modes(options)| < |needs.preferredTransportTypes| {
        ds := ds + [CoverAllModes];
      }
    }
    assert ds == Fired(5, options, needs, scores);
    if scores.practicality < 80.0 {
      if (CountAvailable(options) as real) < (|options| as real) / 2.0 {
        ds := ds + [MoreBookable];
      }
      assert ds == Fired(6, options, needs, scores);
      if CountDirect(options) == 0 && |options| > 0 {
        ds := ds + [AddDirect];
      }
    }
    assert ds == Fired(7, options, needs, scores);
    if scores.needsMatch >= 80.0 && scores.completeness >= 80.0 && scores.practicality >= 80.0
       && scores.overall < 90.0 {
      ds := ds + [AddDistinctiveFeatures];
    }
    var k := 8;
    assert ds == Fired(k, options, needs, scores);
    ghost var rules := ds;
    if ds == [] {
      if scores.overall >= 90.0 {
        ds := [AlreadyExcellent];
      } else {
        ds := [RaiseOverallQuality];
      }
    }
    Completed(k, rules, ds, options, needs, scores);
  }

  /** The directive of a given rank. */
  function OfRank(k: nat): (d: Directive)
    requires k < 10
    ensures d.Rank() == k
  {
    match k
    case 0 => FocusCoreNeeds
    case 1 => StayWithinBudget
    case 2 => MatchTimePreference
    case 3 => MoreOptions
    case 4 => CoverAllModes
    case 5 => MoreBookable
    case 6 => AddDirect
    case 7 => AddDistinctiveFeatures
    case 8 => AlreadyExcellent
    case _ => RaiseOverallQuality
  }

  /** The first `k` ranks of the rule list are in place. */
  ghost predicate Stage(ds: seq<Directive>, k: nat, options: seq<RecommendationOption>, needs: Needs, scores: Score) {
    (forall i, j :: 0 <= i < j < |ds| ==> ds[i].Rank() < ds[j].Rank())
    && (forall d :: d in ds ==> d.Rank() < k)
    && (forall d :: d in ds <==> RuleFires(d, options, needs, scores) && d.Rank() < k)
  }

  /** The firing rules among the first `k` ranks, in rank order. */
  ghost function Fired(k: nat, options: seq<RecommendationOption>, needs: Needs, scores: Score): seq<Directive>
    requires k <= 8
  {
    if k == 0 then []
    else if RuleFires(OfRank(k - 1), options, needs, scores) then
      Fired(k - 1, options, needs, scores) + [OfRank(k - 1)]
    else Fired(k - 1, options, needs, scores)
  }

  lemma {:induction false} FiredStage(k: nat, options: seq<RecommendationOption>, needs: Needs, scores: Score)
    requires k <= 8
    ensures Stage(Fired(k, options, needs, scores), k, options, needs, scores)
  {
    if k > 0 {
      FiredStage(k - 1, options, needs, scores);
      var d := OfRank(k - 1);
      forall e
        ensures e in Fired(k, options, needs, scores)
            <==> RuleFires(e, options, needs, scores) && e.Rank() < k
      {
        RankInjective(d, e);
      }
    }
  }

  /** After the last rule, adding a default exactly when the list is empty completes it. */
  lemma Completed(k: nat, rules: seq<Directive>, ds: seq<Directive>,
                  options: seq<RecommendationOption>, needs: Needs, scores: Score)
    requires k == 8 && rules == Fired(k, options, needs, scores)
    requires rules != [] ==> ds == rules
    requires rules == [] ==> ds == if scores.overall >= 90.0 then [AlreadyExcellent] else [RaiseOverallQuality]
    ensures RuleList(ds, options, needs, scores) && ds != []
  {
    FiredStage(k, options, needs, scores);
    CompletedStage(rules, ds, options, needs, scores);
  }

  lemma CompletedStage(rules: seq<Directive>, ds: seq<Directive>,
                       options: seq<RecommendationOption>, needs: Needs, scores: Score)
    requires Stage(rules, 8, options, needs, scores)
    requires rules != [] ==> ds == rules
    requires rules == [] ==> ds == if scores.overall >= 90.0 then [AlreadyExcellent] else [RaiseOverallQuality]
    ensures RuleList(ds, options, needs, scores) && ds != []
  {
    if AnyRuleFires(options, needs, scores) {
      var d: Directive :| d.Rank() < 8 && RuleFires(d, options, needs, scores);
      assert d in rules;
    }
    if rules != [] {
      assert rules[0] in rules;
    }
  }

  /** Some suggestion list obeys the rules: the firing rules in order, or the default. */
  lemma RuleListExists(options: seq<RecommendationOption>, needs: Needs, scores: Score)
    ensures exists ds :: RuleList(ds, options, needs, scores)
  {
    var k := 8;
    var rules := Fired(k, options, needs, scores);
    var ds := if rules != [] then rules
              else if scores.overall >= 90.0 then [AlreadyExcellent] else [RaiseOverallQuality];
    Completed(k, rules, ds, options, needs, scores);
  }

  /** The suggestion list the rules determine (unique by `RuleListUnique`). */
  ghost function RuleSuggestions(options: seq<RecommendationOption>, needs: Needs, scores: Score): (ds: seq<Directive>)
    ensures RuleList(ds, options, needs, scores)
  {
    RuleListExists(options, needs, scores);
    var ds :| RuleList(ds, options, needs, scores); ds
  }

  /** The number of options dearer than the maximum price. */
  function HighPriceCount(options: seq<RecommendationOption>, maxPrice: real): (c: nat)
    ensures c == 0 <==> forall i :: 0 <= i < |options| ==> options[i].ticket.price <= maxPrice
  {
    if options == [] then 0
    else
      var rest := options[..|options| - 1];
      assert forall i :: 0 <= i < |rest| ==> rest[i] == options[i];
      HighPriceCount(rest, maxPrice) + if options[|options| - 1].ticket.price > maxPrice then 1 else 0
  }

  /** The sentences of a suggestion list. */
  function Texts(ds: seq<Directive>, needs: Needs): (texts: seq<string>)
    ensures |texts| == |ds|
    ensures forall i :: 0 <= i < |ds| ==> texts[i] == ds[i].Text(needs)
  {
    seq(|ds|, i requires 0 <= i < |ds| => ds[i].Text(needs))
  }

  /** With options present, the rule-based completeness is at least 70, so neither
      completeness suggestion can fire in rule mode. */
  lemma RuleModeSkipsCompleteness(options: seq<RecommendationOption>, needs: Needs)
    requires options != []
    ensures
      var s := NewScore(NeedsMatch(options, needs), Completeness(options), Practicality(options, needs), None);
      !Fires(MoreOptions, options, needs, s) && !Fires(CoverAllModes, options, needs, s)
  {
  }

  // ---------------------------------------------------------------- evaluation

  /** The language-model client's answers: one score per dimension, each already clamped
      to [0, 100], and a list of suggestions. */
  datatype Judge = Judge(
    needsMatch: (seq<RecommendationOption>, Needs) -> Percent,
    completeness: (seq<RecommendationOption>, Needs) -> Percent,
    practicality: (seq<RecommendationOption>, Needs) -> Percent,
    suggestions: (seq<RecommendationOption>, Needs, Score) -> seq<string>)

  /** What an evaluation yields: all zero and the "nothing found" sentence without options;
      otherwise the judge's or the rules' dimension scores with the overall computed, and
      the judge's suggestions or the sentences of the rule list. */
  ghost function Assessment(options: seq<RecommendationOption>, needs: Needs, judge: Option<Judge>): (Score, seq<string>)
  {
    if options == [] then (ZeroScore, [NoOptionsText])
    else match judge
      case Some(j) =>
        var s := NewScore(j.needsMatch(options, needs), j.completeness(options, needs),
                          j.practicality(options, needs), None);
        (s, j.suggestions(options, needs, s))
      case None =>
        var s := NewScore(NeedsMatch(options, needs), Completeness(options), Practicality(options, needs), None);
        (s, Texts(RuleSuggestions(options, needs, s), needs))
  }

  /** Evaluates a recommendation's options: all zero and the single "nothing found"
      suggestion without options; otherwise the three dimensions (from the judge when
      there is one, from the rules otherwise), an overall computed from them, and the
      suggestions for those scores. */
  method Evaluate(options: seq<RecommendationOption>, needs: Needs, judge: Option<Judge>)
    returns (scores: Score, suggestions: seq<string>)
    ensures options == [] ==> scores == ZeroScore && suggestions == [NoOptionsText]
    ensures options != [] && judge.None? ==>
      scores == NewScore(NeedsMatch(options, needs), Completeness(options), Practicality(options, needs), None)
      && suggestions != []
      && exists ds :: RuleList(ds, options, needs, scores) && suggestions == Texts(ds, needs)
    ensures options != [] && judge.Some? ==>
      scores == NewScore(judge.value.needsMatch(options, needs), judge.value.completeness(options, needs),
                         judge.value.practicality(options, needs), None)
      && suggestions == judge.value.suggestions(options, needs, scores)
    ensures (scores, suggestions) == Assessment(options, needs, judge)
  {
    if options == [] {
      return ZeroScore, [NoOptionsText];
    }
    match judge {
      case Some(j) =>
        scores := NewScore(j.needsMatch(options, needs), j.completeness(options, needs),
                           j.practicality(options, needs), None);
        suggestions := j.suggestions(options, needs, scores);
      case None =>
        var practicality := EvaluatePracticality(options, needs);
        scores := NewScore(NeedsMatch(options, needs), Completeness(options), practicality, None);
        var ds := ImprovementSuggestions(options, needs, scores);
        RuleListUnique(ds, RuleSuggestions(options, needs, scores), options, needs, scores);
        suggestions := Texts(ds, needs);
    }
  }
}
