# Work-item scoring pipeline of the Azure DevOps CLI tool, in Dafny

The tool pulls work items from Azure DevOps, or from a Logic App result set, and scores
them. It then rolls the scores up into per-developer KPIs. This project models the
computational core of that pipeline and proves what it promises:

- **Per-item scorer** (`classes/efficiency_calculator.py`). Modules `CalculatorConfig`,
  `Scoring`, `OfficeCalendar` and `RevisionEstimate` cover:
  - the default configuration and its recursive override merge;
  - estimate resolution and active-hours capping at 1.2 times the estimate;
  - traditional and fair efficiency under the efficiency cap, and the completion bonus;
  - the tiered early/late delivery table and the weighted developer score;
  - the canned "no data" and "ignored" records;
  - the office-hours and office-day counters;
  - the most recent positive estimate in a revision history.
- **Developer aggregator** (`classes/WorkItemOperations.py`):
  - `DeveloperKpi`: one developer's counters, rates, confidence factor and delivery-timing
    buckets.
  - `KpiReport`: grouping by assignee, the overall summary and the top-5 bottleneck states.
  - `LogicAppIntake`: the deduplication of Logic App rows.
  - `Wiql`: the WIQL query builder and the two readers of a WIQL response.
- **Identity resolution** (`helpers/email_mapping.py`). Module `EmailMapping` covers the
  structural validation of the name-to-email mapping and the resolution of names and
  addresses to emails.

Shared helpers:

- `Wrappers` holds `Option` and `Completion`, the outcome of a step that can raise
  `AttributeError` (a string method called on `None`).
- `Text` models Python's `strip`, `lower`, `join`, `startswith` and substring test.
  `Lower` maps only `A`-`Z`. That is exact where the core lowers text: the
  closed/done/resolved test and the `"not found"` test compare against ASCII words,
  and the only non-ASCII character Python lowers into ASCII is U+212A KELVIN SIGN,
  which becomes `k`, a letter none of those words has.
- `Sorting` is a stable descending insertion sort that stands for `sorted(..., reverse=True)`.

Representation choices:

- Hours and scores are `real`.
- An instant is an integer number of minutes from a Monday 00:00, so weekday = day mod 7.
- A date that parses or fails is an `Option`.
- A Python dictionary whose order matters is a sequence of pairs in insertion order.
- A `.get(key, default)` read distinguishes a missing key, `None` and a present value.
  Where the source calls `lower` or `strip` on a value that may be `None`, the model
  returns `AttributeErrorRaised` exactly when the source raises.
- The state-transition stack of `classes/state_transition_stack.py` is not part of this
  model. Its result enters the scorer as an input record.

Where the source loops or mutates, the model is imperative:

- `merge_dicts`, the two calendar counters, the revision scan, the developer counting loop,
  the grouping and bottleneck loops, the Logic App dedup loop, the WIQL builder and both
  email loops are Dafny methods with loop invariants.
- Each method is proved equal to a specification function, and the properties are lemmas
  about that function.
- `EfficiencyCalculator` is a class whose `config` field is updated in place.

## Verifying

From this directory:

    dafny verify --resource-limit 2000000 --verification-time-limit 0 *.dfy

## Model

| member | source | states |
|---|---|---|
| CalculatorConfig.Merge | classes/efficiency_calculator.py:75-82 | the merged tree has exactly the keys of the base and of the update |
| CalculatorConfig.MergeInto | classes/efficiency_calculator.py:75-82 | the recursive loop over the update's items produces the merge |
| CalculatorConfig.MergeEmptyUpdate | classes/efficiency_calculator.py:75-82 | an empty update leaves the configuration unchanged |
| CalculatorConfig.MergeSelf | classes/efficiency_calculator.py:75-82 | merging a tree into itself gives the same tree |
| CalculatorConfig.MergeIdempotent | classes/efficiency_calculator.py:75-82 | applying the same update twice equals applying it once |
| CalculatorConfig.UpdateWins | classes/efficiency_calculator.py:77-80 | a non-section value at a path of the update is the merged value at that path |
| CalculatorConfig.UntouchedKept | classes/efficiency_calculator.py:76-80 | a path the update does not reach keeps the base value |
| CalculatorConfig.DefaultsRead | classes/efficiency_calculator.py:23-67 | the default tree reads as the typed default configuration |
| CalculatorConfig.DefaultScalarsRead | classes/efficiency_calculator.py:24-26 | the defaults hold bonus 0.20, cap 150 and 8 hours per day |
| CalculatorConfig.DefaultSectionsFound | classes/efficiency_calculator.py:27-60 | each default table is a section of the default tree with the literal values |
| CalculatorConfig.DefaultSectionsRead | classes/efficiency_calculator.py:27-60 | each default table reads as its typed record |
| CalculatorConfig.FromTree | classes/efficiency_calculator.py:162-531 | defines the typed configuration the scorer reads from the tree: the three scalars and the six tables, none when one is missing or not numeric |
| CalculatorConfig.EfficiencyCalculator.constructor | classes/efficiency_calculator.py:15-71 | the configuration is the defaults, merged with a non-empty user configuration when one is given |
| CalculatorConfig.EfficiencyCalculator.UpdateConfig | classes/efficiency_calculator.py:73-82 | the new configuration is the old one merged with the user values |
| Scoring.CompletedStateIgnoresCase | classes/efficiency_calculator.py:161 | the closed/done/resolved test ignores letter case |
| Scoring.EstimatedHours | classes/efficiency_calculator.py:225-238 | the estimate is never negative; it is positive exactly when `original_estimate` is present and positive, and then equals it |
| Scoring.CapActiveHours | classes/efficiency_calculator.py:143-155 | no estimate gives 0 hours with the exclusion reason; otherwise active = min(raw, 1.2 x estimate), "no capping" exactly when raw <= 1.2 x estimate, and 0 <= active <= raw for raw >= 0 |
| Scoring.TraditionalEfficiency | classes/efficiency_calculator.py:169-173 | 0 unless both hours are positive; within [0, cap]; never above estimate/active x 100, and equal to it below the cap, so exactly min(estimate/active x 100, cap) |
| Scoring.FairEfficiency | classes/efficiency_calculator.py:177-184 | 0 for a non-positive denominator; at most the cap; not negative for a non-negative numerator; never above numerator/denominator x 100, and equal to it below the cap, so exactly min(ratio, cap) for a positive denominator |
| Scoring.FairEfficiencyMonotone | classes/efficiency_calculator.py:177-184 | for a fixed non-negative numerator, a larger mitigation never raises fair efficiency |
| Scoring.CompletionBonus | classes/efficiency_calculator.py:161-162 | the bonus is estimate x percentage for a closed/done/resolved state, else 0 |
| Scoring.DaysDifference | classes/efficiency_calculator.py:459 | the difference times the minutes of a day is closed minus target; positive exactly when late, zero exactly when on the target instant |
| Scoring.EarlyDeliveryBonus | classes/efficiency_calculator.py:476-500 | the early tiers in order, each with its score and a bonus of abs(d) x rate; mitigation always 0 |
| Scoring.LateDeliveryPenalty | classes/efficiency_calculator.py:502-525 | the late tiers at 3, 7 and 14 days, each with its score and mitigation; bonus always 0 |
| Scoring.DeliveryTiming | classes/efficiency_calculator.py:442-474 | a missing date gives (100, 0, 0, 0); on time or early never has mitigation, late never has a bonus |
| Scoring.DefaultDeliveryTable | classes/efficiency_calculator.py:482-518 | with the defaults, the eight tiers give 130/120/110/100 with bonus -d, -d x 0.5, -d x 0.25, 0, and 90/80/70/60 with mitigation 2/4/6/8 |
| Scoring.DefaultTiersOrdered | classes/efficiency_calculator.py:27-54 | the default thresholds are ordered and the scores fall tier by tier |
| Scoring.DeliveryScoreMonotone | classes/efficiency_calculator.py:442-525 | with ordered tiers, closing later never raises the delivery score |
| Scoring.DeveloperScore | classes/efficiency_calculator.py:528-540 | the weighted sum with on-time clipped at 100 is not negative for non-negative weights and inputs |
| Scoring.DeveloperScoreMonotone | classes/efficiency_calculator.py:528-540 | with non-negative weights, the weighted score is monotone in each input |
| Scoring.DefaultDeveloperScoreBounds | classes/efficiency_calculator.py:528-540 | with the default weights and inputs in their ranges the score lies in [0, 127.5] |
| Scoring.EmptyEfficiencyMetrics | classes/efficiency_calculator.py:542-564 | all quantities are 0, the estimate is kept, not ignored, reason "no_data" |
| Scoring.IgnoredWorkItemMetrics | classes/efficiency_calculator.py:566-588 | all quantities are 0, the estimate is kept, ignored, reason "ignored_item" |
| Scoring.CannedRecordsAgree | classes/efficiency_calculator.py:542-588 | the two canned records differ only in the ignore flag and the reason |
| Scoring.FairEfficiencyMetrics | classes/efficiency_calculator.py:102-206 | fewer than 2 history entries gives the empty record and an ignored stack the ignored record; otherwise active hours and the capping reason are those of `CapActiveHours` on the estimate and productive hours, the traditional efficiency is `TraditionalEfficiency` of them, the fair score is `FairEfficiency` of active hours + completion bonus over estimate + late mitigation, and the bonus and delivery values are those of the item |
| Scoring.ScorerFairWithinCap | classes/efficiency_calculator.py:177-184 | with a non-negative cap and bonus percentage and non-negative productive hours, every scorer record's fair score lies in [0, cap] |
| OfficeCalendar.WindowHours | classes/efficiency_calculator.py:410-433 | an empty window gives 0; otherwise at most its length in hours and at most the day cap |
| OfficeCalendar.DayHours | classes/efficiency_calculator.py:403-438 | weekends give 0, every day gives at most the cap, and a weekday strictly inside the span gives exactly the cap |
| OfficeCalendar.BusinessHours | classes/efficiency_calculator.py:392-440 | defines the business hours of a span: 0 for an empty span, else the day hours summed from the first to the last day |
| OfficeCalendar.OfficeDays | classes/efficiency_calculator.py:314-342 | defines the office days of a span: 0 for an empty span, else the weekdays from the first to the last day |
| OfficeCalendar.BusinessHoursBetween | classes/efficiency_calculator.py:392-440 | the day-by-day loop computes the business hours of the span |
| OfficeCalendar.OfficeDaysBetween | classes/efficiency_calculator.py:314-342 | the day-by-day loop counts the weekdays of the span |
| OfficeCalendar.EmptySpan | classes/efficiency_calculator.py:396-397 | start >= end gives 0 hours and 0 days |
| OfficeCalendar.HoursOverBounded | classes/efficiency_calculator.py:403-438 | the hours over a range of days lie between 0 and cap x the weekdays in it |
| OfficeCalendar.BusinessHoursBounded | classes/efficiency_calculator.py:396-438 | the business hours lie between 0 and (weekdays in the span) x cap |
| OfficeCalendar.FiveWeekdaysPerWeek | classes/efficiency_calculator.py:335 | every seven consecutive days hold five weekdays |
| OfficeCalendar.InnerDaysAreFull | classes/efficiency_calculator.py:434-436 | the days strictly between the first and the last contribute the cap per weekday |
| OfficeCalendar.InnerWeekIsFiveDays | classes/efficiency_calculator.py:434-436 | an inner full week contributes five times the cap |
| OfficeCalendar.SameDaySpan | classes/efficiency_calculator.py:410-417 | a span inside one weekday's office window gives min(its hours, cap) |
| RevisionEstimate.FirstPositive | classes/efficiency_calculator.py:373-379 | the first positive value among the names, none exactly when no name holds one |
| RevisionEstimate.EstimateOf | classes/efficiency_calculator.py:360-388 | the `fields` values are tried before the top-level ones; none exactly when no estimate name holds a positive value in either |
| RevisionEstimate.FirstPositiveIn | classes/efficiency_calculator.py:373-379 | the field-name loop returns the first positive value |
| RevisionEstimate.GetEstimateFromRevisions | classes/efficiency_calculator.py:344-390 | 0 exactly when no revision has an estimate; otherwise the estimate of a revision with the highest number among those that have one |
| Sorting.SortDescending | classes/WorkItemOperations.py:906 | the result is sorted non-increasing by the key and is a permutation of the input |
| DeveloperKpi.OrDefault | classes/WorkItemOperations.py:960-961 | `.get(key, default)`: a missing key reads as the default, `None` and values as themselves |
| DeveloperKpi.HasDataIffScored | classes/WorkItemOperations.py:967-968 | an item has data exactly when its efficiency is a scorer record, the canned ones included; `{}` and a missing efficiency never do |
| DeveloperKpi.DataOf | classes/WorkItemOperations.py:967-968 | the scorer record is read exactly for the items that have data |
| DeveloperKpi.BucketCountsOnce | classes/WorkItemOperations.py:991-1006 | each item with data lands in exactly one timing bucket, in early or on-time exactly when d <= 0 |
| DeveloperKpi.CountStepConsistent | classes/WorkItemOperations.py:967-980 | one item keeps with-efficiency <= with-estimated <= with-data and the timing sum equal to with-data |
| DeveloperKpi.CountStepGrowsByOne | classes/WorkItemOperations.py:958-969 | one item adds at most one to the data and completed counts |
| DeveloperKpi.TallyConsistent | classes/WorkItemOperations.py:958-1006 | the counters of a whole list satisfy the nesting and the bucket partition |
| DeveloperKpi.TallyWithinLength | classes/WorkItemOperations.py:958-1006 | the data and completed counts never exceed the number of items |
| DeveloperKpi.TallyOf | classes/WorkItemOperations.py:958-1006 | defines the counters, sums, types and projects after the loop, one `Step` per item in order |
| DeveloperKpi.Summarize | classes/WorkItemOperations.py:1008-1061 | defines the record built from the counters: rates, confidence-adjusted fair average, means and breakdown |
| DeveloperKpi.DeveloperMetricsOf | classes/WorkItemOperations.py:934-1061 | defines a developer's record: the canned empty record for no items, else the summary of their tally |
| DeveloperKpi.EmptyDeveloperMetrics | classes/WorkItemOperations.py:1063-1088 | the total is `total_assigned_items or 0`; every other count, rate, average, total and the confidence are 0, the type and project sets are empty and every timing bucket is 0 |
| DeveloperKpi.CountTiming | classes/WorkItemOperations.py:991-1006 | the bucket chain increments the bucket of the item's days |
| DeveloperKpi.CalculateDeveloperMetrics | classes/WorkItemOperations.py:923-1061 | raises `AttributeError` exactly when some item's state is `None`; otherwise returns `DeveloperMetricsOf` the items |
| DeveloperKpi.CountItems | classes/WorkItemOperations.py:958-1006 | the counting loop raises exactly when some item's state is `None`, else computes `TallyOf` the items |
| DeveloperKpi.CountItem | classes/WorkItemOperations.py:959-1006 | one loop body raises exactly on a `None` state, else applies `CountStep` and `SumStep` to the counters and sums |
| DeveloperKpi.CompletedCountsCompletedStates | classes/WorkItemOperations.py:963-964 | `completed_items` is the number of items whose state lower-cases to closed/done/resolved |
| DeveloperKpi.EmptyIsZeroSummary | classes/WorkItemOperations.py:1063-1088 | the empty record is the summary of no items |
| DeveloperKpi.ConfidenceInUnitInterval | classes/WorkItemOperations.py:1012-1019 | with efficiency items, the confidence and its factor lie in (0, 1] |
| DeveloperKpi.SummaryRatesWithin | classes/WorkItemOperations.py:1025-1029 | the on-time and reopened percentages lie in [0, 100] |
| DeveloperKpi.OnTimeRateWithin | classes/WorkItemOperations.py:1026 | the on-time percentage of any item list lies in [0, 100] |
| DeveloperKpi.ReopenedRateWithin | classes/WorkItemOperations.py:1029 | the reopened rate of any item list lies in [0, 100] |
| DeveloperKpi.CompletionRateAtMostHundred | classes/WorkItemOperations.py:1009 | when the total is at least the number of items, the completion rate lies in [0, 100] |
| DeveloperKpi.FairTotalBounded | classes/WorkItemOperations.py:978-980 | with each fair score within the cap, the sum is within cap x its count |
| DeveloperKpi.AverageFairWithinCap | classes/WorkItemOperations.py:1012-1019 | the confidence-adjusted average fair efficiency lies in [0, cap] |
| DeveloperKpi.ScorerRecordsWithinCap | classes/WorkItemOperations.py:978-980 | items whose efficiency records come from the scorer meet `FairWithinCap` for the scorer's cap |
| DeveloperKpi.SummaryFairWithin | classes/WorkItemOperations.py:1012-1022 | the average fair efficiency of a consistent tally lies in [0, cap] |
| DeveloperKpi.TimingPartition | classes/WorkItemOperations.py:991-1006 | the six buckets sum to the items with data, early + on-time is the on-time count, and the denominators nest |
| DeveloperKpi.NoDataNoAverages | classes/WorkItemOperations.py:1030-1034 | with no item with data, every mean and rate is 0 |
| DeveloperKpi.NoDataTally | classes/WorkItemOperations.py:967-969 | items without efficiency data are never counted as having data |
| DeveloperKpi.BlockedTimeAlwaysZero | classes/WorkItemOperations.py:1702-1705 | the basic times always report 0 blocked hours |
| DeveloperKpi.ExtractBasicTimes | classes/WorkItemOperations.py:1702-1705 | defines the basic times: the record's active hours, and 0 blocked hours since the record has no such key |
| KpiReport.DistinctAssigneesExact | classes/WorkItemOperations.py:862-867 | the groups are keyed by the distinct assignees, in first-seen order |
| KpiReport.ItemsOfMembers | classes/WorkItemOperations.py:862-867 | a group holds exactly the items with that assignee |
| KpiReport.GroupsPartitionItems | classes/WorkItemOperations.py:862-867 | the group sizes add up to the number of items |
| KpiReport.GroupByAssignee | classes/WorkItemOperations.py:862-867 | the grouping loop builds one group per distinct assignee, holding its items in order |
| KpiReport.TotalAssigned | classes/WorkItemOperations.py:879 | the assigned count is the developer's entry when counts are given and list them, else none |
| KpiReport.AddPairsAppend | classes/WorkItemOperations.py:889-895 | counting breakdown entries in two runs is counting them in one |
| KpiReport.AddPairsRecords | classes/WorkItemOperations.py:889-895 | each state's tally is its number of occurrences and its total hours |
| KpiReport.NoOccurrencesNoHours | classes/WorkItemOperations.py:894-895 | a state that never occurs has no hours |
| KpiReport.CandidatesReport | classes/WorkItemOperations.py:897-905 | one bottleneck per state, with its average time and occurrences |
| KpiReport.CollectCandidates | classes/WorkItemOperations.py:898-905 | the loop over the state tally builds the bottleneck candidates |
| KpiReport.TopBottlenecks | classes/WorkItemOperations.py:906-920 | at most 5 candidates, sorted by average time, none left out that beats one kept |
| KpiReport.SortedPrefixIsTop | classes/WorkItemOperations.py:906-920 | the first five of the sorted candidates are the top five |
| KpiReport.TotalsFromLines | classes/WorkItemOperations.py:884-886 | the summary totals are the sums over the developer lines |
| KpiReport.CollectStates | classes/WorkItemOperations.py:889-895 | the loop over a developer's items counts their breakdown entries |
| KpiReport.CountBreakdown | classes/WorkItemOperations.py:891-895 | the loop over one breakdown adds its entries to the tally |
| KpiReport.CalculateComprehensiveKpi | classes/WorkItemOperations.py:837-921 | raises `AttributeError` exactly when some item's state is `None`; otherwise no items gives the empty report, and a non-empty list gives `SummaryOf` the items, one line per distinct assignee holding `MetricsOf` its group, and the top 5 of `Candidates` of `StatesOf` the items |
| KpiReport.VisitDeveloper | classes/WorkItemOperations.py:877-895 | raises exactly when the developer's group has a `None` state; otherwise the developer's metrics, and its items' breakdown entries added to the tally |
| KpiReport.VisitDevelopers | classes/WorkItemOperations.py:877-895 | raises exactly when some visited group has a `None` state; otherwise one line per developer and the tally of the visited entries |
| KpiReport.VisitNext | classes/WorkItemOperations.py:877-895 | one pass of the loop raises exactly when the new group has a `None` state, and otherwise extends the lines and the tally to one more developer |
| KpiReport.NullStateGrouped | classes/WorkItemOperations.py:862-881 | some item has a `None` state exactly when some developer's group has one |
| KpiReport.SummaryOf | classes/WorkItemOperations.py:908-914 | defines the overall summary: item and developer counts, the mean fair and delivery averages over developers and the total active hours |
| KpiReport.StatesOf | classes/WorkItemOperations.py:877-895 | defines `all_state_occurrences`: the breakdown entries of every group, tallied in visiting order |
| KpiReport.Candidates | classes/WorkItemOperations.py:897-905 | defines the bottleneck candidates, one per tallied state in first-seen order |
| KpiReport.SummaryCounts | classes/WorkItemOperations.py:909-911 | the summary counts all items and between 1 and that many developers |
| KpiReport.VisitedPairsArePairs | classes/WorkItemOperations.py:877-895 | visiting the groups counts every item's breakdown exactly once |
| KpiReport.StatesAreTheItemsStates | classes/WorkItemOperations.py:889-895 | the tallied states are exactly those occurring in some breakdown |
| KpiReport.CandidateLines | classes/WorkItemOperations.py:897-905 | one candidate per distinct state, each with positive occurrences and average x occurrences = total hours |
| KpiReport.TotalsFairBounded | classes/WorkItemOperations.py:884 | with fair scores within the cap, the summed averages are within cap x developers |
| KpiReport.SummaryFairWithinCap | classes/WorkItemOperations.py:912 | the overall average fair efficiency lies in [0, cap] |
| LogicAppIntake.Convert | classes/WorkItemOperations.py:1386-1402 | the item has the row's key, a non-zero id and non-blank assignee, is Fabric-enriched, and has no project exactly when the stripped project name is blank |
| LogicAppIntake.ProcessLogicAppWorkItems | classes/WorkItemOperations.py:1354-1406 | raises `AttributeError` exactly when `Raises` holds of the rows (a null assignee, or a null project on a row that would be kept); otherwise returns `Kept` the rows |
| LogicAppIntake.Kept | classes/WorkItemOperations.py:1372-1404 | defines the output: each eligible row whose key no earlier eligible row had, converted, in input order |
| LogicAppIntake.RaisesPrefix | classes/WorkItemOperations.py:1372-1386 | once a prefix of the rows raises, the whole result set raises |
| LogicAppIntake.NullAssigneeRaises | classes/WorkItemOperations.py:1374 | a null `AssignedToUser` in any row raises, whatever the other rows hold |
| LogicAppIntake.NoNullsNoRaise | classes/WorkItemOperations.py:1374-1386 | rows without a null assignee or project never raise |
| LogicAppIntake.KeptKeys | classes/WorkItemOperations.py:1369-1404 | `seen_keys` is exactly the kept items' keys, no key repeats, and the output is no longer than the input |
| LogicAppIntake.SeenKeysExact | classes/WorkItemOperations.py:1376-1383 | a key is seen exactly when some eligible row has it |
| LogicAppIntake.KeptAreFirsts | classes/WorkItemOperations.py:1379-1404 | every kept item is the conversion of the first row of its key |
| LogicAppIntake.FirstsAreKept | classes/WorkItemOperations.py:1379-1404 | the first row of every key is kept |
| LogicAppIntake.KeptPrefix | classes/WorkItemOperations.py:1372-1404 | input order is kept: a prefix of the rows yields a prefix of the output |
| LogicAppIntake.IneligibleDropped | classes/WorkItemOperations.py:1376-1377 | a row with no id or a blank assignee changes nothing |
| LogicAppIntake.RepeatDropped | classes/WorkItemOperations.py:1380-1382 | a row repeating a seen key changes nothing |
| Wiql.WithoutStates | classes/WorkItemOperations.py:261 | removes exactly the conditions that start with `[System.State]` |
| Wiql.BuildWiqlQuery | classes/WorkItemOperations.py:152-284 | the builder produces `Query` of the parameters |
| Wiql.Query | classes/WorkItemOperations.py:175-282 | defines the query text: the header, the conditions joined by AND or `1=1`, and the ORDER BY |
| Wiql.CollectListConditions | classes/WorkItemOperations.py:185-198 | the type, assignee and state filters are appended in that order, as `ListConditions` defines them |
| Wiql.CollectDateConditions | classes/WorkItemOperations.py:201-256 | the target-date and closed-date alternatives are built as `DateConditions` defines them |
| Wiql.CollectTargetCondition | classes/WorkItemOperations.py:208-235 | the state-and-date alternative is built as `TargetCondition` defines it |
| Wiql.CollectClosedParts | classes/WorkItemOperations.py:239-253 | the closed-date fallback parts are built as `ClosedParts` defines them |
| Wiql.AddFilterConditions | classes/WorkItemOperations.py:268-276 | one condition is appended per additional filter |
| Wiql.QueryFrame | classes/WorkItemOperations.py:175-282 | the query starts with the SELECT header and ends with " ORDER BY [System.Id]" |
| Wiql.FilterConditionsLength | classes/WorkItemOperations.py:268-276 | one condition per additional filter |
| Wiql.NoConditionsIff | classes/WorkItemOperations.py:183-278 | there are no conditions exactly when there are no types, assignees, states or additional filters |
| Wiql.TargetConditionWithDates | classes/WorkItemOperations.py:209-235 | with dates and states, the state-and-date alternative is always present |
| Wiql.DefaultCondition | classes/WorkItemOperations.py:278-282 | with no conditions the query is the header, "1=1" and the ORDER BY |
| Wiql.AdditionalFiltersLast | classes/WorkItemOperations.py:268-276 | the additional filters follow the base conditions, in order |
| Wiql.FilterConditionsInOrder | classes/WorkItemOperations.py:268-276 | the i-th filter condition is the condition of the i-th filter |
| Wiql.DatesHideStateFilter | classes/WorkItemOperations.py:196-262 | with a start or end date, no base condition starts with `[System.State]` |
| Wiql.NoDatesKeepsStateFilter | classes/WorkItemOperations.py:196-198 | without dates the state list is a base condition |
| Wiql.DatesWithStates | classes/WorkItemOperations.py:201-262 | with dates and states there are one or two alternatives, two exactly when the closed fallback applies, joined by OR as the last base condition |
| Wiql.DatesWithoutStates | classes/WorkItemOperations.py:201-262 | with dates and no states no date condition is added |
| Wiql.HasExpandedData | classes/WorkItemOperations.py:441-456 | true exactly when there are work items and the first has one of the expanded keys |
| Wiql.ExtractIds | classes/WorkItemOperations.py:458-461 | the ids are the truthy ids of the entries, none zero, no more of them than entries |
| Wiql.ExtractIdsAppend | classes/WorkItemOperations.py:461 | ids are taken in entry order |
| EmailMapping.AddressHasOneAt | helpers/email_mapping.py:69 | an address matching the pattern holds exactly one `@` |
| EmailMapping.CollectInvalidEntries | helpers/email_mapping.py:68-77 | the loop collects the message of every bad entry, in order |
| EmailMapping.ValidateMapping | helpers/email_mapping.py:60-82 | the structural checks give `ValidateDocument` of the document |
| EmailMapping.ValidateDocument | helpers/email_mapping.py:60-82 | defines the validation of a parsed document: not an object, empty, invalid entries with their messages, or valid with the entries |
| EmailMapping.ValidateMappingFile | helpers/email_mapping.py:16-82 | defines the validation of the file: missing, unreadable, blank or unparseable with its message, else the document's validation |
| EmailMapping.InvalidEntriesEmptyIff | helpers/email_mapping.py:68-79 | no message is collected exactly when every entry is valid |
| EmailMapping.ValidIff | helpers/email_mapping.py:60-82 | valid exactly for a non-empty object whose entries are all valid; an invalid one returns `{}` and a message |
| EmailMapping.EntryValidMeans | helpers/email_mapping.py:71-77 | an entry is valid exactly when its name is not blank and its email is a non-blank string matching the pattern |
| EmailMapping.ValidReturnedUnchanged | helpers/email_mapping.py:79-82 | a valid mapping is returned entry for entry as read |
| EmailMapping.Values | helpers/email_mapping.py:164 | the values of the mapping in order |
| EmailMapping.ResolveIdentifiers | helpers/email_mapping.py:167-184 | the loop resolves each identifier and lists the unknown ones |
| EmailMapping.ResolveEmails | helpers/email_mapping.py:133-194 | the function returns `ResolutionOf` its inputs, which raises the intended exception (`FailureFor`), not the one the source picks from the message text |
| EmailMapping.ResolutionOf | helpers/email_mapping.py:133-194 | defines the outcome with the intended classification: the failure for an invalid mapping, `[]` without `fail_on_error`, all emails for no identifiers, else the resolved ones |
| EmailMapping.ResolutionAsWritten | helpers/email_mapping.py:133-194 | defines the outcome as the source writes it, the exception picked by `FailureAsWritten` |
| EmailMapping.FailureFor | helpers/email_mapping.py:155-158 | defines the intended failure: `FileNotFoundError` for a missing file, `ValueError` with the message otherwise |
| EmailMapping.FailureAsWritten | helpers/email_mapping.py:155-158 | defines the failure as written: `FileNotFoundError` whenever the lowered message contains "not found" |
| EmailMapping.AsWrittenAgreesOtherwise | helpers/email_mapping.py:155-158 | the source and the intended outcome agree unless an invalid mapping of an existing file has a message that says "not found" |
| EmailMapping.LookupFound | helpers/email_mapping.py:178-180 | a known name's email is an entry of the mapping |
| EmailMapping.LookupUnique | helpers/email_mapping.py:178-180 | with distinct names, as `json.loads` yields them, a name's lookup is the email of the one entry with that name |
| EmailMapping.EveryIdentifierAccounted | helpers/email_mapping.py:170-184 | every identifier is resolved or unknown, never both, so the output is no longer than the input |
| EmailMapping.ResolvedAppend | helpers/email_mapping.py:170-184 | the output follows the input order |
| EmailMapping.ResolveSingle | helpers/email_mapping.py:170-184 | a stripped identifier with `@` passes through verbatim, a known name gives its email, an unknown name nothing |
| EmailMapping.ResolvedFromRequests | helpers/email_mapping.py:170-194 | every email returned is a requested address or the mapped email of a requested name |
| EmailMapping.AllEmailsByDefault | helpers/email_mapping.py:161-164 | no identifiers gives all of the mapping's emails |
| EmailMapping.InvalidWithoutFailure | helpers/email_mapping.py:155-159 | an invalid mapping without `fail_on_error` gives `[]` |
| EmailMapping.FailureKinds | helpers/email_mapping.py:155-158 | in the intended outcome, only a missing file raises `FileNotFoundError`; other failures raise `ValueError` with the message |
| EmailMapping.MissingFileSaysNotFound | helpers/email_mapping.py:33 | the missing-file message passes the "not found" test |
| EmailMapping.MisclassifiedEntryError | helpers/email_mapping.py:156-157 | an existing, parsed file with a bad entry named "not found" is reported as not found by the source and with `ValueError` by the intended outcome |

## Left out

- Float rounding: `round(x, 2)`, `round(d, 1)` and the `:.2f` text are not modelled. The model keeps exact reals. The capping reason is an enumeration that carries the raw and capped hours.
- Instants are whole minutes. Seconds, time zones and ISO-8601 parsing are not modelled; a date that fails to parse is `None`.
- The state-transition stack (`classes/state_transition_stack.py`) is not part of this model. Its result is an input record of productive, paused and total hours, the state breakdown, the paused-state breakdown and the flags. The scorer copies the paused-state breakdown into its record; the nested `stack_summary` is not carried.
- Neither `config_loader.should_include_work_item_with_history` nor `ProjectDiscovery` is part of this model.
- The configuration tree holds numbers, other scalars and sections. Reading it into the typed configuration is all or nothing: one missing or non-numeric default gives none.
- Values that are not numbers where the source does arithmetic are not modelled. Python would raise on them.
- Scoring.FairEfficiencyMetrics: the work item's state is text. A `None` state makes `lower()` raise at classes/efficiency_calculator.py:161; the caller catches it and stores `{}` (classes/WorkItemOperations.py:1476-1490), which the aggregator's `NoEfficiency` represents.
- EmailMapping.ResolveEmails: it implements the intended classification of a failure (`FailureFor`). The source as written is `ResolutionAsWritten`, and `AsWrittenAgreesOtherwise` shows where the two differ; see "## Findings".
- Sorting.SortDescending: it is a stable insertion sort, but stability is not stated. The contracts state sortedness and permutation only.
- RevisionEstimate.GetEstimateFromRevisions: among revisions with the same highest number, which one wins is not stated.
- KpiReport.TopBottlenecks: the order among equal averages is not stated.
- Dead code `_adjust_dates_for_timeframe` and `_adjust_estimate_for_timeframe` is not modelled; its only call is commented out.
- Network, HTTP, pagination, threads, CSV export, the orchestration methods, CLI parsing, environment lookup, `print` and logging are not modelled.
- In `resolve_emails`, the printed report of unknown names and of an invalid file is not modelled. The unknown names are still computed.
- Email validation: reading the file and `json.loads` are not modelled. The file is an input that is missing, unreadable, blank, unparseable with its message, or a parsed document.
- The email pattern is a direct definition of the language the regular expression accepts under `re.match`, including the final newline that `$` lets through.
- EmailMapping.Repr: Python's `repr` is modelled as the text in single quotes, without its choice of quote or its escapes.
- A JSON object is its list of items. `json.loads` never yields two items with one name; the model does not forbid them, and `LookupUnique` states the lookup for distinct names.
- The calculator and the KPI loops are split into helper methods (one per source loop body or inner loop) so each proof stays small. In `calculate_comprehensive_kpi_per_developer`, the three summary totals are summed over the developer lines right after the developer loop rather than inside it. The sums and their order are the same.
- A missing `Title` in a Logic App row reads as ""; a null one is kept as `None`, as the source does.
- In the WIQL builder, `None` lists and dates are the empty list and "", since both are only tested for truth. A response without `workItems` is one with an empty list.
- Dictionaries with insertion order (`additional_filters`, `state_breakdown`, the mapping) are sequences of pairs.
- The `default_work_item_hours` table is part of the defaults but nothing in the core reads it.

## Findings

| source | as written | input that shows it | evidently intended | confidence | as-written member | corrected member |
|---|---|---|---|---|---|---|
| helpers/email_mapping.py:156-157 | the exception is chosen by `"not found" in error_msg.lower()`, and the invalid-entries message quotes the user's names | a mapping file that exists and parses as `{"not found": "x"}` raises `FileNotFoundError("Email mapping file not found: ...")` although the file is there | `FileNotFoundError` only when the file is missing, `ValueError` for every invalid mapping | medium, not executed | EmailMapping.FailureAsWritten (counterexample EmailMapping.MisclassifiedEntryError) | EmailMapping.FailureFor (proved by EmailMapping.FailureKinds) |
