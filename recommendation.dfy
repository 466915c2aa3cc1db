/** The recommendation record: options, quality scores, status and reflection history. */
module Recommendations {
  import opened Wrappers
  import opened TicketData
  import Json

  /** A score constrained to [0, 100], as every score field of the record is. */
  type Percent = r: real | 0.0 <= r <= 100.0

  /** One factor of an option's score: its name, description, weight and factor score. */
  datatype Reason = Reason(factor: string, description: string, weight: real, score: real)

  /** The three quality dimensions and the overall score. */
  datatype Score = Score(needsMatch: Percent, completeness: Percent, practicality: Percent, overall: Percent)

  /** Rounding to one decimal place, halves rounded up. */
  function RoundTenth(x: real): (r: real)
    ensures x - 0.05 < r <= x + 0.05
    ensures 0.0 <= x <= 100.0 ==> 0.0 <= r <= 100.0
  {
    (x * 10.0 + 0.5).Floor as real / 10.0
  }

  /** The default weighting of the three dimensions: 0.5, 0.3 and 0.2. */
  function WeightedOverall(needsMatch: real, completeness: real, practicality: real): real {
    0.5 * needsMatch + 0.3 * completeness + 0.2 * practicality
  }

  /** The weighted overall lies between the lowest and the highest dimension score. */
  lemma WeightedOverallBetween(needsMatch: real, completeness: real, practicality: real, lo: real, hi: real)
    requires lo <= needsMatch <= hi && lo <= completeness <= hi && lo <= practicality <= hi
    ensures lo <= WeightedOverall(needsMatch, completeness, practicality) <= hi
  {
  }

  /** Building a score record, with the overall-score validator: an overall given as a
      non-zero value is kept; an absent or zero overall is replaced by the weighted sum
      of the three dimensions rounded to one decimal, which stays within [0, 100]. */
  function NewScore(needsMatch: Percent, completeness: Percent, practicality: Percent,
                    overall: Option<Percent>): (s: Score)
    ensures s.needsMatch == needsMatch && s.completeness == completeness && s.practicality == practicality
    ensures overall.Some? && overall.value != 0.0 ==> s.overall == overall.value
    ensures overall.None? || overall.value == 0.0 ==>
      var w := WeightedOverall(needsMatch, completeness, practicality);
      w - 0.05 < s.overall <= w + 0.05 && s.overall == RoundTenth(w)
  {
    var computed := RoundTenth(WeightedOverall(needsMatch, completeness, practicality));
    var o: Percent := if overall.Some? && overall.value != 0.0 then overall.value else computed;
    Score(needsMatch, completeness, practicality, o)
  }

  /** The all-zero score used for empty and failed recommendations. */
  const ZeroScore: Score := NewScore(0.0, 0.0, 0.0, Some(0.0))

  lemma ZeroScoreIsZero()
    ensures ZeroScore == Score(0.0, 0.0, 0.0, 0.0)
  {
  }

  /** One recommended ticket with its score, its rank (1 for the best) and the reasons. */
  datatype RecommendationOption = RecommendationOption(
    ticket: Ticket, score: Percent, rank: int, reasons: seq<Reason>)

  datatype RecommendationStatus = Pending | Processing | Completed | Failed | Refined {
    function Tag(): string {
      match this
      case Pending => "pending"
      case Processing => "processing"
      case Completed => "completed"
      case Failed => "failed"
      case Refined => "refined"
    }
  }

  /** What one reflection iteration found and changed. */
  datatype ReflectionFeedback = ReflectionFeedback(
    iteration: int,
    strengths: seq<string>,
    weaknesses: seq<string>,
    improvementSuggestions: seq<string>,
    adjustedParameters: seq<(string, Json.Value)>)

  /** The position of the option a stable descending sort by score puts first: a highest
      score, and no earlier option has that score. */
  function BestIndex(options: seq<RecommendationOption>): (k: nat)
    requires |options| > 0
    ensures k < |options|
    ensures forall j :: 0 <= j < |options| ==> options[j].score <= options[k].score
    ensures forall j :: 0 <= j < k ==> options[j].score < options[k].score
  {
    if |options| == 1 then 0
    else
      var k := BestIndex(options[..|options| - 1]);
      if options[|options| - 1].score > options[k].score then |options| - 1 else k
  }

  /** A recommendation; the source updates its status, scores and history in place. */
  class Recommendation {
    const queryText: string
    const userId: Option<string>
    var status: RecommendationStatus
    var options: seq<RecommendationOption>
    var scores: Score
    var reflectionIterations: int
    var reflectionHistory: seq<ReflectionFeedback>
    /** The "error" entry of the metadata, present on a recommendation built after a fault. */
    var errorText: Option<string>

    /** A fresh recommendation: status pending unless given, no options, no reflections. */
    constructor (queryText: string, userId: Option<string>, scores: Score,
                 status: RecommendationStatus := Pending, errorText: Option<string> := None)
      ensures this.queryText == queryText && this.userId == userId && this.scores == scores
      ensures this.status == status && this.errorText == errorText
      ensures options == [] && reflectionIterations == 0 && reflectionHistory == []
    {
      this.queryText := queryText;
      this.userId := userId;
      this.scores := scores;
      this.status := status;
      this.errorText := errorText;
      options := [];
      reflectionIterations := 0;
      reflectionHistory := [];
    }

    /** The top option: none when there are no options, otherwise the first option (in
        list order) whose score is maximal. */
    function GetTopRecommendation(): (top: Option<RecommendationOption>)
      reads this
      ensures top.None? <==> options == []
      ensures top.Some? ==>
        (exists k :: 0 <= k < |options| && options[k] == top.value
           && (forall j :: 0 <= j < |options| ==> options[j].score <= top.value.score)
           && (forall j :: 0 <= j < k ==> options[j].score < top.value.score))
    {
      if options == [] then None else Some(options[BestIndex(options)])
    }

    /** Appends the feedback to the history and counts one more iteration; options, scores
        and status stay as they were. */
    method AddReflection(feedback: ReflectionFeedback)
      modifies this
      ensures reflectionHistory == old(reflectionHistory) + [feedback]
      ensures reflectionIterations == old(reflectionIterations) + 1
      ensures options == old(options) && scores == old(scores) && status == old(status)
      ensures errorText == old(errorText)
    {
      reflectionHistory := reflectionHistory + [feedback];
      reflectionIterations := reflectionIterations + 1;
    }
  }
}
