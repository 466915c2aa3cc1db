# Reflective travel-ticket recommender — a Dafny model

This project models the rule-based core of a travel-ticket recommender. The recommender is
given a conversation and does the following:

- It extracts the traveller's needs.
- It scores every candidate ticket on six weighted factors and ranks the tickets by total.
- It turns the best ten into a recommendation.
- It then runs a bounded reflection loop. Each round evaluates the recommendation on three
  dimensions: needs match, completeness and practicality. A round stops once the overall
  score reaches a threshold. Below the threshold, it asks for parameter adjustments, applies
  them to the needs along dotted attribute paths, records feedback and rebuilds.

Modules, one per source file, plus three helpers:

| module | file | models |
|---|---|---|
| `TicketData` | `ticket_data.dfy` | `src/models/ticket_data.py`: transport and seat enums, the ticket record, `travel_duration`, `is_direct` |
| `UserNeeds` | `user_needs.dfy` | `src/models/user_needs.py`: enums, time window, budget, needs record, priorities validator, defaults, fixed extraction fallback |
| `Recommendations` | `recommendation.dfy` | `src/models/recommendation.py`: scores and the overall-score validator, options, status, feedback, the `Recommendation` class |
| `DataProcessor` | `data_processor.dfy` | `src/core/data_processor.py`: the six factor rules, `rank_tickets` and its stable descending sort, the time-slot and price-multiplier tables |
| `Evaluator` | `evaluator.dfy` | `src/core/evaluator.py`: `evaluate`, the rule branches of the three dimension scorers, the improvement-suggestion rules |
| `ReflectionEngine` | `reflection_engine.dfy` | `src/core/reflection_engine.py`: option building, `apply_improvements`, strengths/weaknesses, feedback, the `recommend` loop |
| `Wrappers`, `Strings`, `Json` | `wrappers.dfy`, `strings.dfy`, `json.dfy` | `Option`/`Result`; digit text, `startswith`/`in`/`replace`/`split` on text; the JSON values an adjustment may carry |

Modelling conventions:

- **Instants.** An instant is a whole number of minutes. Its `.hour` is `(minutes % 1440) / 60`.
- **Reals.** Prices, weights and scores are `real`. A score field constrained by
  `Field(ge=0, le=100)` has the subset type `Percent`.
- **Rounding.** Python's `round(x, 1)` is half-up rounding to tenths (`RoundTenth`). Its
  error is proved to be at most 0.05.
- **Classes and values.** `Recommendation` is a class, because the loop updates its
  `scores`, `status` and `options` and `add_reflection` changes it in place. Every other
  record is a datatype.
- **Imperative source.** The explicit loops of the source are methods with loop
  invariants: the ranking, the practicality count, the suggestion list, the option
  builder, the adjustment loop, the weakness loop and the reflection loop. Each method is
  proved equal to a specification function, or to satisfy a predicate, about which the
  properties are proved as lemmas.
- **Capabilities.** The services the engine depends on are function-valued parameters:
  needs extraction, the candidate supply, the reflection step and the optional language-model
  judge. The candidate supply and the reflection step receive the number of the call, so
  their answers may change from round to round.

Two places where the code does something its design evidently does not intend:

- `recommend` records each round's feedback with `add_reflection` on the recommendation it
  is about to replace (`src/core/reflection_engine.py:355-359`). The object returned
  therefore always has zero reflection iterations and an empty history. The model follows
  the code here.
- `RecommendationScore(...)` is built in `evaluate` without an `overall_score`
  (`src/core/evaluator.py:58-62`), and that field has no default
  (`src/models/recommendation.py:32`). Pydantic therefore rejects the construction before
  the `always=True` validator runs, and `recommend` fails on every non-empty
  recommendation. The model departs from the code on purpose: it reads the missing value
  as the validator's "zero or absent" case, so the overall becomes the rounded weighted
  sum. "## Left out" lists this under `Evaluator.Evaluate`.

## Model

| member | source | states |
|---|---|---|
| TicketData.TransportType.Tag | src/models/ticket_data.py:14-19 | each transport tag is a non-empty lower-case word |
| TicketData.SeatClass.Tag | src/models/ticket_data.py:22-38 | each seat tag is non-empty, lower-case letters and underscores |
| TicketData.TransportTagsDistinct | src/models/ticket_data.py:14-19 | two transport types share a tag exactly when they are equal |
| TicketData.SeatTagsDistinct | src/models/ticket_data.py:22-38 | the twelve seat classes have twelve distinct tags |
| TicketData.Instant.Hour | src/core/evaluator.py:161 | the hour of day of an instant lies in 0..23 |
| TicketData.DurationParts | src/models/ticket_data.py:72-75 | any split of a duration into hours and 0 ≤ minutes < 60 is the one its text shows; the hours are non-negative for a non-negative duration |
| TicketData.DurationTextInjective | src/models/ticket_data.py:72-75 | two non-negative durations with the same text are equal, so the text loses nothing |
| TicketData.MinutesPart | src/models/ticket_data.py:75 | the duration text is the hours' digits followed by a part starting with 'h' |
| TicketData.DigitsThenH | src/models/ticket_data.py:75 | a digit run followed by 'h' splits only one way |
| TicketData.DirectIgnoresStops | src/models/ticket_data.py:77-80 | a ticket is direct iff its transfer list is absent or empty; a train's stop list does not change directness |
| UserNeeds.CheckPriorities | src/models/user_needs.py:94-99 | an empty priority list becomes `[PRICE]`; a non-empty one is returned unchanged |
| UserNeeds.CheckPrioritiesNormalises | src/models/user_needs.py:94-99 | the normalised list is never empty, and normalising twice equals normalising once |
| UserNeeds.NewNeeds | src/models/user_needs.py:66-99 | construction applies the priorities validator (result non-empty, equal to the validated list) and keeps every other field as given |
| UserNeeds.NeedsDefaults | src/models/user_needs.py:51-90 | defaults: modes `[FLIGHT, TRAIN]`, no seat preference, budget bounds unset with level ANY, priorities `[PRICE]`, no transfer or duration limits |
| UserNeeds.ExtractFromConversation | src/models/user_needs.py:108-120 | the fallback is always 北京 → 上海, leaving from the given clock time with time preference ANY, default priorities and modes |
| UserNeeds.ExtractIgnoresText | src/models/user_needs.py:108-120 | the fallback's result does not depend on the conversation text |
| Recommendations.RoundTenth | src/models/recommendation.py:53 | rounding to one decimal moves a value by at most 0.05 and keeps [0, 100] values inside [0, 100] |
| Recommendations.WeightedOverallBetween | src/models/recommendation.py:27-53 | the 0.5/0.3/0.2 weighted sum lies between any common lower and upper bound of the three sub-scores |
| Recommendations.NewScore | src/models/recommendation.py:34-53 | a non-zero overall is kept; a zero or absent overall becomes the weighted sum rounded to a tenth, within 0.05 of it; the sub-scores are stored as given |
| Recommendations.ZeroScoreIsZero | src/models/recommendation.py:27-32 | the all-zero score record really is all zero (an explicit 0 overall is recomputed from zero sub-scores) |
| Recommendations.BestIndex | src/models/recommendation.py:119-124 | the chosen index holds a maximal score and every earlier option scores strictly less |
| Recommendations.Recommendation.constructor | src/models/recommendation.py:88-107 | a new recommendation has the given query, user, scores, status (PENDING by default) and error, no options, 0 iterations and an empty history |
| Recommendations.Recommendation.GetTopRecommendation | src/models/recommendation.py:119-124 | none iff there are no options; otherwise the earliest option with maximal score (what a stable descending sort puts first) |
| Recommendations.Recommendation.AddReflection | src/models/recommendation.py:126-130 | the feedback becomes the last history entry, iterations grow by exactly 1, options, scores, status and error are unchanged |
| DataProcessor.Floor0 | src/core/data_processor.py:250 | `max(0, x)`: non-negative, at least x, and either x or 0 |
| DataProcessor.TransportFactor | src/core/data_processor.py:237 | 100 iff the ticket's mode is preferred, 50 otherwise |
| DataProcessor.SeatFactor | src/core/data_processor.py:241-243 | 100 iff no seat preference is set (None or empty) or the seat class is preferred, 60 otherwise |
| DataProcessor.PriceFactor | src/core/data_processor.py:247-253 | never negative; with non-negative bounds at most 100, and 100 exactly when neither set bound is violated |
| DataProcessor.TimeFactor | src/core/data_processor.py:257-265 | in [0, 100], and 100 iff the window is not fully set or the departure lies inside it |
| DataProcessor.DurationFactor | src/core/data_processor.py:269-272 | in [0, 100], and 100 iff no set maximum is exceeded |
| DataProcessor.AvailabilityFactor | src/core/data_processor.py:276 | in [0, 100]; 0 iff no seats are left, 100 iff at least ten are |
| DataProcessor.AvailabilityMonotone | src/core/data_processor.py:276 | more seats never lower the availability factor |
| DataProcessor.SixFactorsShape | src/core/data_processor.py:237-277 | six reasons named transport_type, seat_class, price, departure_time, duration, availability with weights 0.15, 0.1, 0.2, 0.25, 0.15, 0.15 summing to 1 |
| DataProcessor.TotalFormula | src/core/data_processor.py:237-282 | a ticket's total is 0.15·transport + 0.1·seat + 0.2·price + 0.25·time + 0.15·duration + 0.15·availability |
| DataProcessor.WeightedTotalBounds | src/core/data_processor.py:280-282 | with non-negative weights and factor scores in [0, 100], the weighted sum lies in [0, 100 · weight sum] |
| DataProcessor.TotalInRange | src/core/data_processor.py:247-282 | with non-negative budget bounds every factor and the total lie in [0, 100] |
| DataProcessor.NegativeMaximumExceedsBound | src/core/data_processor.py:248-250 | a negative maximum price gives a price factor above 100 (300 for price 10, maximum −10) |
| DataProcessor.MinimumOverridesMaximum | src/core/data_processor.py:248-253 | below a set minimum price, the maximum-price branch has no effect on the price factor |
| DataProcessor.PriceFactorAntitone | src/core/data_processor.py:247-253 | at or above the minimum, a dearer ticket never gets a higher price factor |
| DataProcessor.ScoreTicket | src/core/data_processor.py:234-284 | a scored ticket keeps its ticket, carries six factors and its total is their weighted sum |
| DataProcessor.ScoreAll | src/core/data_processor.py:232-284 | one scored ticket per input ticket, in input order |
| DataProcessor.InsertSplit | src/core/data_processor.py:287 | inserting into a list puts the element after every entry with a total at least as high and before the strictly lower ones |
| DataProcessor.InsertAt | src/core/data_processor.py:287 | the insertion place is unique: any split of that shape is the insertion |
| DataProcessor.InsertByTotalMultiset | src/core/data_processor.py:287 | insertion adds exactly the one element |
| DataProcessor.InsertByTotalSorted | src/core/data_processor.py:287 | insertion keeps a list sorted by total, descending |
| DataProcessor.InsertByTotalWithTotal | src/core/data_processor.py:287 | insertion places the new element after all earlier entries with the same total |
| DataProcessor.StableSortByTotalCorrect | src/core/data_processor.py:287 | the sort is a permutation, sorted by total descending, and entries with equal totals keep their input order |
| DataProcessor.SortByTotal | src/core/data_processor.py:287 | the in-place stable descending sort produces the stable sort of its input |
| DataProcessor.Ranked | src/core/data_processor.py:230-289 | the ranking has one entry per ticket |
| DataProcessor.RankedCorrect | src/core/data_processor.py:230-289 | the ranking is a permutation of the scored tickets, descending by total, stable among equal totals; an empty input gives an empty output |
| DataProcessor.RankTickets | src/core/data_processor.py:216-289 | the scoring loop followed by the sort yields exactly the ranking |
| DataProcessor.SumWeighted | src/core/data_processor.py:280-282 | the accumulating loop computes the weighted sum of the factors |
| DataProcessor.TimeSlots | src/core/data_processor.py:165-184 | four slots exactly for no preference or ANY, three otherwise; each slot is a valid time of day and the slots ascend |
| DataProcessor.PriceMultiplier | src/core/data_processor.py:186-214 | every multiplier lies in [0.8, 5.0]; economy and hard seat are the 1.0 base |
| DataProcessor.MultipliersFollowClass | src/core/data_processor.py:196-212 | within flights and within trains, a higher class costs a larger multiplier |
| Evaluator.Clamp | src/core/evaluator.py:116 | `max(0, min(100, x))`: x inside [0, 100], 0 below, 100 above |
| Evaluator.TopThree | src/core/evaluator.py:91 | the first min(3, n) options |
| Evaluator.NeedsMatch | src/core/evaluator.py:88-116 | the rule-based needs-match score lies in [35, 100] |
| Evaluator.NeedsMatchTopThree | src/core/evaluator.py:91 | options after the third never change the needs-match score |
| Evaluator.NeedsMatchModeOnly | src/core/evaluator.py:93-113 | with no seat, price or window constraint the score is 85 with a mode match among the top three and 70 without |
| Evaluator.NeedsMatchFullNeedsAllRules | src/core/evaluator.py:93-116 | a score of 100 means a mode match, all top three within a set maximum price and one departing inside a set window |
| Evaluator.HighestPrice | src/core/evaluator.py:154 | the maximum price of a non-empty option list |
| Evaluator.LowestPrice | src/core/evaluator.py:154 | the minimum price of a non-empty option list |
| Evaluator.Completeness | src/core/evaluator.py:134-166 | 0 iff there are no options; otherwise in [70, 100] |
| Evaluator.SingleOptionCompleteness | src/core/evaluator.py:137-163 | a single option scores exactly 70 |
| Evaluator.ManyOptionsCompleteness | src/core/evaluator.py:137-149 | five or more options score at least 90 |
| Evaluator.CountAvailable | src/core/evaluator.py:187 | at most n, and 0 iff no option has seats |
| Evaluator.CountDirect | src/core/evaluator.py:195 | at most n, and 0 iff no option is direct |
| Evaluator.CountReasonable | src/core/evaluator.py:200-210 | at most n, and 0 iff no option has a reasonable duration (the set maximum, or 240 min by air, 480 by rail, never by bus or ship) |
| Evaluator.DurationBonus | src/core/evaluator.py:212-213 | in [0, 15], and 0 iff no duration is reasonable |
| Evaluator.SeatsBonus | src/core/evaluator.py:187-192 | −50 with no bookable option, otherwise a bonus in (0, 10] |
| Evaluator.Practicality | src/core/evaluator.py:184-216 | the rule-based practicality lies in [20, 100] |
| Evaluator.PracticalityBookable | src/core/evaluator.py:186-197 | practicality exceeds 70 iff some option has seats, and is at most 45 when none has |
| Evaluator.EvaluatePracticality | src/core/evaluator.py:184-216 | the scorer with its counting loop computes the practicality rule |
| Evaluator.Directive.Rank | src/core/evaluator.py:242-286 | each suggestion has a position in rule order below 10 |
| Evaluator.RankInjective | src/core/evaluator.py:242-286 | distinct suggestions have distinct positions |
| Evaluator.PriceText | src/core/evaluator.py:249 | a price prints as digits, a point and one decimal |
| Evaluator.PriceTextWhole | src/core/evaluator.py:249 | a whole price prints with a trailing ".0" |
| Evaluator.RuleListNonEmpty | src/core/evaluator.py:281-286 | a suggestion list that obeys the rules is never empty |
| Evaluator.RuleListUnique | src/core/evaluator.py:238-288 | the rules determine the suggestion list uniquely |
| Evaluator.RankedSameElements | src/core/evaluator.py:238-288 | two rank-ordered lists with the same elements are equal |
| Evaluator.FirstHasLowestRank | src/core/evaluator.py:238-288 | the head of a rank-ordered list ranks below its other elements |
| Evaluator.ImprovementSuggestions | src/core/evaluator.py:238-288 | the rule steps yield every firing rule once, in rule order, nothing else, and a default when no rule fires: 90+ gives "already excellent", below 90 "raise quality"; never empty |
| Evaluator.OfRank | src/core/evaluator.py:242-286 | the suggestion at each rule position |
| Evaluator.FiredStage | src/core/evaluator.py:242-279 | after the first k rules the list holds exactly the firing rules among them, in order |
| Evaluator.Completed | src/core/evaluator.py:281-286 | the firing rules plus the default rule form the rule list |
| Evaluator.CompletedStage | src/core/evaluator.py:281-286 | after all eight rules, adding the default when the list is empty gives a valid, non-empty list |
| Evaluator.HighPriceCount | src/core/evaluator.py:247 | 0 iff every option is within the maximum price |
| Evaluator.Texts | src/core/evaluator.py:242-286 | each suggestion is rendered as its sentence, in order |
| Evaluator.RuleModeSkipsCompleteness | src/core/evaluator.py:134-166 | with options present, neither completeness suggestion can fire on rule-based scores |
| Evaluator.Evaluate | src/core/evaluator.py:30-68 | no options: all-zero scores and the single "nothing found" suggestion; otherwise the three dimension scores (judge or rules), overall computed, and, in rule mode, a non-empty rule-conforming suggestion list; the pair returned is `Assessment` of the options, needs and judge |
| Evaluator.RuleListExists | src/core/evaluator.py:238-288 | the suggestion rules determine a list for every options, needs and scores |
| Evaluator.RuleSuggestions | src/core/evaluator.py:238-288 | the list the rules determine, as a function of options, needs and scores |
| ReflectionEngine.ReasonsOf | src/core/reflection_engine.py:120-128 | one reason per ranking factor, with the same name, description, weight and score |
| ReflectionEngine.TopOptions | src/core/reflection_engine.py:118-137 | the first min(10, n) ranked tickets as options, in order, ranked from 1, with copied score and reasons |
| ReflectionEngine.BuildOptions | src/core/reflection_engine.py:118-137 | the first min(10, n) ranked tickets become options in order with rank = position + 1 and copied score and reasons, which is `TopOptions`; fails iff one of those totals lies outside [0, 100] |
| ReflectionEngine.GenerateRecommendations | src/core/reflection_engine.py:82-145 | a fresh PROCESSING recommendation with zero scores, the needs' user and the query, whose options are `TopOptions` of the ranking; fails iff an option score would be out of range |
| ReflectionEngine.Step | src/core/reflection_engine.py:213-217 | a path step exists exactly when the name is an attribute of the record reached so far (the needs, a time window or the budget); a plain value has no attributes |
| ReflectionEngine.TransportFromTag | src/models/ticket_data.py:14-19 | a decoded transport type has the decoded tag |
| ReflectionEngine.SeatFromTag | src/models/ticket_data.py:22-38 | a decoded seat class has the decoded tag |
| ReflectionEngine.PriorityFromTag | src/models/user_needs.py:34-40 | a decoded priority has the decoded tag |
| ReflectionEngine.TimePreferenceFromTag | src/models/user_needs.py:16-22 | a decoded time preference has the decoded tag |
| ReflectionEngine.PriceLevelFromTag | src/models/user_needs.py:25-31 | a decoded price level has the decoded tag |
| ReflectionEngine.TagsRoundTrip | src/models/user_needs.py:16-40 | every enum member decodes back from its own tag |
| ReflectionEngine.DecodeTags | src/core/reflection_engine.py:222 | a decoded list has one member per element, each decoded from that element |
| ReflectionEngine.ApplyImprovements | src/core/reflection_engine.py:187-224 | the loop over the adjusted parameters computes the ordered application of each key to a copy of the needs |
| ReflectionEngine.ApplyAllAppend | src/core/reflection_engine.py:207-222 | applying two batches in turn equals applying them joined |
| ReflectionEngine.UnknownLastSegment | src/core/reflection_engine.py:220-222 | a key whose last segment is no attribute changes nothing |
| ReflectionEngine.SetAtUnknown | src/core/reflection_engine.py:221-222 | setting an unknown attribute on any reached object changes nothing |
| ReflectionEngine.SplitWhole | src/core/reflection_engine.py:209 | text without a dot splits into itself |
| ReflectionEngine.SplitFirst | src/core/reflection_engine.py:209 | splitting cuts at the first dot |
| ReflectionEngine.SplitTwo | src/core/reflection_engine.py:209 | "a.b" with dot-free parts splits into [a, b] |
| ReflectionEngine.UnknownSegmentSkipped | src/core/reflection_engine.py:213-222 | an unknown intermediate segment stops the walk and the last segment is set on the needs itself: `x.max_duration_minutes` still sets the maximum duration |
| ReflectionEngine.LaterKeyWins | src/core/reflection_engine.py:207-222 | whatever the earlier keys did, a final `budget.<unknown>.max_price` key decides the maximum price |
| ReflectionEngine.EmptyPrioritiesKept | src/core/reflection_engine.py:222 | assigning an empty priorities list bypasses the validator: the adjusted needs have no priorities |
| ReflectionEngine.UnknownTagKeepsField | src/core/reflection_engine.py:222 | a tag list holding a tag that names no member, or such a single tag, leaves the transport, seat-class, priority, preferred-time and price-level fields unchanged (a departure from Python, which stores the raw value) |
| ReflectionEngine.SingleSegment | src/core/reflection_engine.py:209-222 | a key without a dot sets that attribute of the needs record |
| ReflectionEngine.Weaknesses | src/core/reflection_engine.py:279-284 | never more weaknesses than suggestions |
| ReflectionEngine.WeaknessesAppend | src/core/reflection_engine.py:280-284 | the weaknesses of joined suggestion lists are the joined weaknesses, so order is kept |
| ReflectionEngine.WeaknessOfOne | src/core/reflection_engine.py:281-284 | one suggestion yields its rewrite when it starts with "改进" or contains "应该" or "需要", and nothing otherwise |
| ReflectionEngine.ExtractStrengthsWeaknesses | src/core/reflection_engine.py:255-286 | strengths: the fixed sentence of each dimension scoring 85 or more, in the order needs, completeness, practicality, each once, at most three; weaknesses: the flagged suggestions, rewritten, in order |
| ReflectionEngine.CreateReflectionFeedback | src/core/reflection_engine.py:226-253 | the feedback carries the iteration, the derived strengths and weaknesses, the suggestions and the adjustments |
| ReflectionEngine.Refine | src/core/reflection_engine.py:344-359 | one round: the needs become the adjustments applied in order; the evaluated recommendation gains one feedback entry numbered iteration + 1 with the suggestions and adjustments, and one iteration; its options are untouched; the rebuild is `Advance` of the round: a fresh PROCESSING, zero-scored recommendation for the adjusted needs' user whose options are the top ten of the new ranking, or the score error exactly when that ranking has an out-of-range total |
| ReflectionEngine.LoggedAt | src/core/reflection_engine.py:330-335 | the i-th logged evaluation is the overall score `evaluate` gives round i |
| ReflectionEngine.LoggedAll | src/core/reflection_engine.py:330-335 | every logged evaluation is the overall score of its round |
| ReflectionEngine.LoggedExtend | src/core/reflection_engine.py:333-335 | evaluating the next round appends its overall score to the log |
| ReflectionEngine.RoundAtNext | src/core/reflection_engine.py:338-359 | after an evaluation below the threshold, the next round is the advance from this one |
| ReflectionEngine.OutcomeReached | src/core/reflection_engine.py:338-341 | a run whose latest evaluation is the first to reach the threshold ends COMPLETED with that round's options, user and scores |
| ReflectionEngine.OutcomeFailed | src/core/reflection_engine.py:357-359 | a run whose rebuild after an evaluation below the threshold fails ends FAILED |
| ReflectionEngine.OutcomeExhausted | src/core/reflection_engine.py:364-367 | a run that spends the budget below the threshold ends COMPLETED with the last rebuilt round, never evaluated, and zero scores |
| ReflectionEngine.OutcomeDetermined | src/core/reflection_engine.py:330-367 | the engine and the first round determine the evaluations, the status and, when COMPLETED, the options, scores and user of the outcome |
| ReflectionEngine.OutcomeNotShorter | src/core/reflection_engine.py:330-341 | no outcome of a run stops before another one |
| ReflectionEngine.Assess | src/core/reflection_engine.py:334 | the evaluation of a round is its `Assessment` |
| ReflectionEngine.RefineRound | src/core/reflection_engine.py:344-359 | `Refine` after an evaluation below the threshold yields the next round of the run, or none exactly when the rebuild fails |
| ReflectionEngine.Cycle | src/core/reflection_engine.py:333-359 | one pass: the scores are the round's evaluation, stored on the recommendation and logged; it stops iff they reach the threshold, with the recommendation otherwise unchanged; otherwise the next round is the rebuilt recommendation, or none with the score error |
| ReflectionEngine.Iterate | src/core/reflection_engine.py:330-362 | one iteration: either the run is `Finished` with the recommendation returned, or the rebuilt recommendation, marked REFINED, is the next round's `Midway` state |
| ReflectionEngine.Conclude | src/core/reflection_engine.py:364-367 | a spent budget marks the last rebuilt recommendation COMPLETED and the run is `Finished` |
| ReflectionEngine.RefineLoop | src/core/reflection_engine.py:330-367 | the run is `Finished`: the logged evaluations are the overall scores `evaluate` gives rounds 0, 1, … in turn, each round being the needs after the adjustments so far with the top ten of their ranking; at most `max_iterations` of them, all but the last below the threshold; COMPLETED at the first threshold hit with that round's options and scores, or with the last rebuilt round, never evaluated, and zero scores once the budget is spent; FAILED with the score error when a rebuild fails; zero iterations and empty history |
| ReflectionEngine.Recommend | src/core/reflection_engine.py:288-390 | a fresh recommendation for the query, COMPLETED or FAILED; FAILED without error iff the first candidate fetch is empty; an out-of-range first ranking fails before any evaluation; otherwise the run's `Outcome` from the first ranking's top ten; FAILED means zero scores and no options; the only error is the option-score error; every evaluation but the last is below the threshold |

## Left out

- The language-model client is not part of this model: its network calls, prompts and
  response scraping. Its answers are function parameters: `Capabilities.extractNeeds`,
  `Capabilities.reflect` and the optional `Judge`. `reflect_and_improve` is a direct call
  of `Capabilities.reflect`.
- Ticket generation (`fetch_matching_tickets`, `_generate_mock_tickets`) uses random numbers
  and the clock. It is the parameter `Capabilities.supplyCandidates`. The time-slot and
  multiplier tables it reads are modelled.
- Not modelled: UUIDs, timestamps (`created_at`, `updated_at`, the `updated_at` write in
  `add_reflection`), `processing_time_ms`, logging, the HTTP API, JSON encoders and
  `metadata` beyond the error text.
- The async structure is not modelled; the calls run in sequence, as they do within one
  request.
- Floating point is not modelled; reals are exact. `round(x, 1)` is half-up rounding to
  tenths, where Python rounds the binary value half-to-even.
- Evaluator.PriceText: renders a price exactly only when it has at most one decimal digit.
  Python's shortest float representation is not modelled. An integer `max_price` set by an
  adjustment, such as 800, stays an int in Python and prints as "800"; the model's prices
  are real, so it prints "800.0".
- The exception path of `recommend` is modelled for one exception only: an option score
  outside [0, 100] failing validation. The error text is the fixed `ScoreOutOfRange`, not
  pydantic's message. The model's needs cannot hold the values, and the model skips the
  assignments, behind the source's other exceptions (see `ReflectionEngine.Recommend` below). Exceptions raised inside the
  capabilities are not modelled.
- ReflectionEngine.ApplyImprovements: a value of the right JSON kind is decoded into the
  field's type. A time-preference tag becomes a `TimePreference` and an integer price becomes
  a real. Python's `setattr` is not validated and stores the raw value: a string
  `preferred_time` stays a string and an int `max_price` stays an int. A tag that names no
  enum member is not decoded either: a transport, seat-class or priority list holding one,
  or an unknown `preferred_time` or `price_level` tag, leaves the field unchanged
  (`UnknownTagKeepsField`). Python stores the list or the string as given. Since the enums
  are `str` enums, a known tag in that list still matches with `in` and an unknown one never
  does, in the transport and seat factors (`src/core/data_processor.py:237`, `:243`) and
  the mode and seat match (`src/core/evaluator.py:94`, `:99`); the cover-all-modes rule
  counts the stored list's length (`src/core/evaluator.py:261`). The model keeps the old
  list instead, so these scores can differ.
- ReflectionEngine.Recommend: any value the model's needs cannot hold, and any assignment
  the model skips, can make the source raise later; every such exception makes `recommend`
  return FAILED, where the model's run goes on. The paths include these five. A raw string
  `preferred_time` set by an adjustment makes `src/core/evaluator.py:252-253` raise
  AttributeError (`.value` on a string) once the needs-match score is below 80. A window
  bound may be a time of day (`src/models/user_needs.py:45-46`); the factor rule skips that
  case (`src/core/data_processor.py:259`), but `src/core/evaluator.py:108-110` compares it
  with a ticket's datetime and raises TypeError. A raw string stored in `budget.max_price`
  or `budget.min_price` (for example `{"budget.max_price": "800"}`) makes the next ranking
  compare a float with a string at `src/core/data_processor.py:249` or `:252` and raise
  TypeError. A raw string `max_duration_minutes` fails the same way at
  `src/core/data_processor.py:271`. A last segment naming a method of the record, such as
  `budget.copy`, passes `hasattr`, and the assignment then raises ValueError, since the
  record declares no such field (see the `hasattr` line below). The model's window bounds
  are instants only, and it leaves the field unchanged in the other cases.
- Evaluator.Evaluate: computes the overall as the rounded weighted sum. Python raises a
  validation error instead, since `overall_score` is required and not passed (see the
  second departure above).
- Pydantic coercion is not modelled. An adjusted value whose JSON kind does not fit the
  field leaves the field unchanged; Python would store the raw value, since assignment is
  not validated, and a later comparison may then raise (see `ReflectionEngine.Recommend`). Dates and whole sub-records are not assignable values: an adjustment can clear a
  window end or the return window, but cannot set a date, replace the departure window or
  the budget as a whole, or set special_requirements or historical_preference.
- `hasattr` is modelled for the declared fields only. Method names and built-in attributes
  (such as `copy` or `__class__`) count as absent, so `UnknownLastSegment` changes nothing
  for them. In Python, `hasattr` is true for a method name, and setting it on a pydantic
  record that declares no such field raises ValueError, so `recommend` returns FAILED.
- The adjusted parameters are a list of key/value pairs with distinct keys in insertion
  order, as a Python dict iterates.
- ReflectionEngine.Refine: the ensures does not restate the strengths and weaknesses of
  the recorded feedback; `CreateReflectionFeedback` proves them.
- The special-requirements and historical-preference fields of the needs, and a ticket's
  restrictions, additional fees and baggage allowance, are not modelled: none of the
  modelled code reads them.
