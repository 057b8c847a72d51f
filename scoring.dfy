/** The per-item scorer of the efficiency calculator: estimate resolution, active-hours
    capping, traditional and fair efficiency, the completion bonus, the tiered delivery
    timing, the weighted developer score and the canned empty and ignored records. */
module Scoring {
  import opened Wrappers
  import opened Text
  import opened CalculatorConfig

  const MinutesPerDay: int := 1440

  /** What the state-transition stack reports for one item. Its internals are not part
      of this model, so the scorer receives it as an input. */
  datatype StackSummary = StackSummary(
    productiveHours: real,
    pausedHours: real,
    totalHours: real,
    stateDurations: seq<(string, real)>,
    pausedDurations: seq<(string, real)>,
    wasReopened: bool,
    activeAfterReopenHours: real,
    isCompleted: bool,
    shouldIgnore: bool)

  /** The fields of a work item that the scorer reads. A date is an instant in minutes;
      `None` stands for a date that is missing, empty or fails to parse. */
  datatype WorkItem = WorkItem(
    originalEstimate: Option<real>,
    state: string,
    targetDate: Option<int>,
    closedDate: Option<int>)

  /** The `capping_applied` field. The capped case stands for the text
      "capped_at_1.2x_estimate_<raw>_to_<cap>". */
  datatype CappingReason =
    | NoEstimateExclusion
    | CappedAtEstimate(rawHours: real, capHours: real)
    | NoCappingNeeded
    | NoData
    | IgnoredItem

  function CappingText(reason: CappingReason): string {
    match reason
    case NoEstimateExclusion => "no_estimate_exclusion"
    case CappedAtEstimate(_, _) => "capped_at_1.2x_estimate_"
    case NoCappingNeeded => "no_capping_needed"
    case NoData => "no_data"
    case IgnoredItem => "ignored_item"
  }

  datatype DeliveryMetrics = DeliveryMetrics(
    deliveryScore: real,
    timingBonusHours: real,
    latePenaltyMitigation: real,
    daysDifference: real)

  /** The record `calculate_fair_efficiency_metrics` returns. */
  datatype EfficiencyMetrics = EfficiencyMetrics(
    activeTimeHours: real,
    rawActiveTimeHours: real,
    pausedTimeHours: real,
    totalTimeHours: real,
    estimatedTimeHours: real,
    efficiencyPercentage: real,
    fairEfficiencyScore: real,
    deliveryScore: real,
    completionBonus: real,
    deliveryTimingBonus: real,
    daysAheadBehind: real,
    stateBreakdown: seq<(string, real)>,
    pausedStateBreakdown: seq<(string, real)>,
    wasReopened: bool,
    activeAfterReopen: real,
    isCompleted: bool,
    shouldIgnore: bool,
    cappingApplied: CappingReason)

  function Min(a: real, b: real): real {
    if a <= b then a else b
  }

  function Abs(x: real): real {
    if x < 0.0 then -x else x
  }

  /** The hard-coded list of completed states, compared after lower-casing. */
  predicate IsCompletedState(state: string) {
    Lower(state) in ["closed", "done", "resolved"]
  }

  lemma CompletedStateIgnoresCase(state: string)
    ensures IsCompletedState(state) <==> IsCompletedState(Lower(state))
  {
    LowerIdempotent(state);
  }

  /** `_calculate_estimated_time_from_work_item`: the original estimate when it is
      present and positive, else 0. The query timeframe never scales it. */
  function EstimatedHours(item: WorkItem): (r: real)
    ensures r >= 0.0
    ensures r > 0.0 <==> item.originalEstimate.Some? && item.originalEstimate.value > 0.0
    ensures r > 0.0 ==> r == item.originalEstimate.value
  {
    match item.originalEstimate
    case Some(e) => if e > 0.0 then e else 0.0
    case None => 0.0
  }

  datatype Capped = Capped(activeHours: real, reason: CappingReason)

  /** Active hours after the 1.2x-estimate cap; an item without an estimate counts
      no active time at all. */
  function CapActiveHours(estimate: real, raw: real): (r: Capped)
    ensures estimate <= 0.0 ==> r == Capped(0.0, NoEstimateExclusion)
    ensures estimate > 0.0 ==> r.activeHours == Min(raw, estimate * 1.2)
    ensures estimate > 0.0 ==> (r.reason == NoCappingNeeded <==> raw <= estimate * 1.2)
    ensures estimate > 0.0 && raw > estimate * 1.2 ==> r.reason == CappedAtEstimate(raw, estimate * 1.2)
    ensures raw >= 0.0 ==> 0.0 <= r.activeHours <= raw
    ensures estimate > 0.0 ==> (r.activeHours == raw <==> r.reason == NoCappingNeeded)
  {
    if estimate <= 0.0 then Capped(0.0, NoEstimateExclusion)
    else
      var maxAllowed := estimate * 1.2;
      if raw > maxAllowed then Capped(maxAllowed, CappedAtEstimate(raw, maxAllowed))
      else Capped(raw, NoCappingNeeded)
  }

  /** Estimated over active hours, as a capped percentage: 100 means exactly on
      estimate and more than 100 means faster than estimated. */
  function TraditionalEfficiency(cap: real, estimate: real, active: real): (r: real)
    ensures !(active > 0.0 && estimate > 0.0) ==> r == 0.0
    ensures cap >= 0.0 ==> 0.0 <= r <= cap
    ensures r > 100.0 ==> 0.0 < active < estimate
    ensures active > 0.0 && estimate > 0.0 && r < cap ==> r * active == estimate * 100.0
    ensures active > 0.0 && estimate > 0.0 ==> r * active <= estimate * 100.0
  {
    if active > 0.0 && estimate > 0.0 then
      var ratio := estimate / active * 100.0;
      RatioAboveHundred(estimate, active);
      Min(ratio, cap)
    else 0.0
  }

  lemma RatioAboveHundred(estimate: real, active: real)
    requires active > 0.0
    ensures (estimate / active * 100.0) * active == estimate * 100.0
    ensures estimate / active * 100.0 > 100.0 ==> active < estimate
  {
    var q := estimate / active;
    assert q * active == estimate;
    if q * 100.0 > 100.0 {
      assert q > 1.0;
      assert (q - 1.0) * active > 0.0;
    }
  }

  /** (active + bonus) / (estimate + mitigation) as a capped percentage, 0 when the
      denominator is not positive. */
  function FairEfficiency(cap: real, numerator: real, denominator: real): (r: real)
    ensures denominator <= 0.0 ==> r == 0.0
    ensures r <= cap || denominator <= 0.0
    ensures cap >= 0.0 && numerator >= 0.0 ==> r >= 0.0
    ensures denominator > 0.0 && r < cap ==> r * denominator == numerator * 100.0
    ensures denominator > 0.0 ==> r * denominator <= numerator * 100.0
  {
    if denominator > 0.0 then
      var ratio := numerator / denominator * 100.0;
      assert ratio * denominator == numerator * 100.0;
      Min(ratio, cap)
    else 0.0
  }

  lemma DivisionShrinks(n: real, d1: real, d2: real)
    requires n >= 0.0 && 0.0 < d1 <= d2
    ensures n / d2 <= n / d1
  {
    var q1, q2 := n / d1, n / d2;
    assert q1 * d1 == n && q2 * d2 == n;
    assert q2 >= 0.0;
    assert q2 * d1 <= q2 * d2;
    assert q2 * d1 <= q1 * d1;
  }

  /** For a fixed non-negative numerator, a larger late-penalty mitigation never raises
      the fair efficiency score. */
  lemma FairEfficiencyMonotone(cap: real, numerator: real, estimate: real, m1: real, m2: real)
    requires numerator >= 0.0
    requires estimate + m1 > 0.0
    requires m1 <= m2
    ensures FairEfficiency(cap, numerator, estimate + m2) <= FairEfficiency(cap, numerator, estimate + m1)
  {
    DivisionShrinks(numerator, estimate + m1, estimate + m2);
  }

  /** The completion bonus: a share of the estimate for an item whose current state is
      closed, done or resolved, in any letter case. */
  function CompletionBonus(c: Config, state: string, estimate: real): (r: real)
    ensures IsCompletedState(state) ==> r == estimate * c.completionBonusPercentage
    ensures !IsCompletedState(state) ==> r == 0.0
  {
    if IsCompletedState(state) then estimate * c.completionBonusPercentage else 0.0
  }

  /** `(closed - target).total_seconds() / 86400`: positive when late. */
  function DaysDifference(target: int, closed: int): (r: real)
    ensures r * MinutesPerDay as real == (closed - target) as real
    ensures r > 0.0 <==> closed > target
    ensures r == 0.0 <==> closed == target
  {
    (closed - target) as real / MinutesPerDay as real
  }

  /** `_calculate_early_delivery_bonus`; the bonus grows with the number of days early. */
  function EarlyDeliveryBonus(c: Config, d: real): (r: DeliveryMetrics)
    ensures r.latePenaltyMitigation == 0.0 && r.daysDifference == d
    ensures d <= -c.thresholds.veryEarlyDays ==>
      r.deliveryScore == c.earlyScores.veryEarly && r.timingBonusHours == Abs(d) * c.earlyBonuses.veryEarly
    ensures -c.thresholds.veryEarlyDays < d <= -c.thresholds.earlyDays ==>
      r.deliveryScore == c.earlyScores.early && r.timingBonusHours == Abs(d) * c.earlyBonuses.early
    ensures -c.thresholds.veryEarlyDays < d && -c.thresholds.earlyDays < d <= -c.thresholds.slightlyEarlyDays ==>
      r.deliveryScore == c.earlyScores.slightlyEarly && r.timingBonusHours == Abs(d) * c.earlyBonuses.slightlyEarly
    ensures d > -c.thresholds.veryEarlyDays && d > -c.thresholds.earlyDays && d > -c.thresholds.slightlyEarlyDays ==>
      r.deliveryScore == c.earlyScores.onTime && r.timingBonusHours == 0.0
  {
    var magnitude := Abs(d);
    if d <= -c.thresholds.veryEarlyDays then
      DeliveryMetrics(c.earlyScores.veryEarly, magnitude * c.earlyBonuses.veryEarly, 0.0, d)
    else if d <= -c.thresholds.earlyDays then
      DeliveryMetrics(c.earlyScores.early, magnitude * c.earlyBonuses.early, 0.0, d)
    else if d <= -c.thresholds.slightlyEarlyDays then
      DeliveryMetrics(c.earlyScores.slightlyEarly, magnitude * c.earlyBonuses.slightlyEarly, 0.0, d)
    else
      DeliveryMetrics(c.earlyScores.onTime, 0.0, 0.0, d)
  }

  /** `_calculate_late_delivery_penalty`, for a positive difference. Its day thresholds
      3, 7 and 14 are fixed, unlike the early ones. */
  function LateDeliveryPenalty(c: Config, d: real): (r: DeliveryMetrics)
    ensures r.timingBonusHours == 0.0 && r.daysDifference == d
    ensures d <= 3.0 ==> r.deliveryScore == c.lateScores.late1To3 && r.latePenaltyMitigation == c.lateMitigation.late1To3
    ensures 3.0 < d <= 7.0 ==> r.deliveryScore == c.lateScores.late4To7 && r.latePenaltyMitigation == c.lateMitigation.late4To7
    ensures 7.0 < d <= 14.0 ==> r.deliveryScore == c.lateScores.late8To14 && r.latePenaltyMitigation == c.lateMitigation.late8To14
    ensures 14.0 < d ==> r.deliveryScore == c.lateScores.late15Plus && r.latePenaltyMitigation == c.lateMitigation.late15Plus
  {
    if d <= 3.0 then DeliveryMetrics(c.lateScores.late1To3, 0.0, c.lateMitigation.late1To3, d)
    else if d <= 7.0 then DeliveryMetrics(c.lateScores.late4To7, 0.0, c.lateMitigation.late4To7, d)
    else if d <= 14.0 then DeliveryMetrics(c.lateScores.late8To14, 0.0, c.lateMitigation.late8To14, d)
    else DeliveryMetrics(c.lateScores.late15Plus, 0.0, c.lateMitigation.late15Plus, d)
  }

  /** `_calculate_delivery_timing`. Without both dates it is the neutral record. */
  function DeliveryTiming(c: Config, item: WorkItem): (r: DeliveryMetrics)
    ensures item.targetDate.None? || item.closedDate.None? ==> r == DeliveryMetrics(100.0, 0.0, 0.0, 0.0)
    ensures item.targetDate.Some? && item.closedDate.Some? ==>
      r.daysDifference == DaysDifference(item.targetDate.value, item.closedDate.value)
    ensures r.daysDifference <= 0.0 ==> r.latePenaltyMitigation == 0.0
    ensures r.daysDifference > 0.0 ==> r.timingBonusHours == 0.0
  {
    if item.targetDate.None? || item.closedDate.None? then DeliveryMetrics(100.0, 0.0, 0.0, 0.0)
    else
      var d := DaysDifference(item.targetDate.value, item.closedDate.value);
      if d <= 0.0 then EarlyDeliveryBonus(c, d) else LateDeliveryPenalty(c, d)
  }

  /** With the default configuration the delivery tiers are the documented table. */
  lemma DefaultDeliveryTable(d: real)
    ensures var r := if d <= 0.0 then EarlyDeliveryBonus(DefaultConfig(), d)
                     else LateDeliveryPenalty(DefaultConfig(), d);
      && (d <= -7.0 ==> r.deliveryScore == 130.0 && r.timingBonusHours == -d)
      && (-7.0 < d <= -3.0 ==> r.deliveryScore == 120.0 && r.timingBonusHours == -d * 0.5)
      && (-3.0 < d <= -1.0 ==> r.deliveryScore == 110.0 && r.timingBonusHours == -d * 0.25)
      && (-1.0 < d <= 0.0 ==> r.deliveryScore == 100.0 && r.timingBonusHours == 0.0)
      && (0.0 < d <= 3.0 ==> r.deliveryScore == 90.0 && r.latePenaltyMitigation == 2.0)
      && (3.0 < d <= 7.0 ==> r.deliveryScore == 80.0 && r.latePenaltyMitigation == 4.0)
      && (7.0 < d <= 14.0 ==> r.deliveryScore == 70.0 && r.latePenaltyMitigation == 6.0)
      && (14.0 < d ==> r.deliveryScore == 60.0 && r.latePenaltyMitigation == 8.0)
  {
  }

  /** Tiers are ordered: thresholds grow, scores fall from very early to very late. */
  predicate OrderedTiers(c: Config) {
    && 0.0 <= c.thresholds.slightlyEarlyDays <= c.thresholds.earlyDays <= c.thresholds.veryEarlyDays
    && c.earlyScores.veryEarly >= c.earlyScores.early >= c.earlyScores.slightlyEarly >= c.earlyScores.onTime
    && c.earlyScores.onTime >= c.lateScores.late1To3 >= c.lateScores.late4To7
    && c.lateScores.late4To7 >= c.lateScores.late8To14 >= c.lateScores.late15Plus
  }

  lemma DefaultTiersOrdered()
    ensures OrderedTiers(DefaultConfig())
  {
  }

  /** Delivering later never earns a higher delivery score, when the tiers are ordered. */
  lemma DeliveryScoreMonotone(c: Config, target: int, closed1: int, closed2: int)
    requires OrderedTiers(c)
    requires closed1 <= closed2
    ensures DeliveryTiming(c, WorkItem(None, "", Some(target), Some(closed2))).deliveryScore
         <= DeliveryTiming(c, WorkItem(None, "", Some(target), Some(closed1))).deliveryScore
  {
    var d1 := DaysDifference(target, closed1);
    var d2 := DaysDifference(target, closed2);
    assert d1 <= d2;
  }

  /** `calculate_developer_score`: the weighted sum, with the on-time percentage
      clipped at 100. */
  function DeveloperScore(w: Weights, completionRate: real, avgFairEfficiency: real,
                          avgDeliveryScore: real, onTimeDelivery: real): (r: real)
    ensures NonNegativeWeights(w) ==>
              completionRate >= 0.0 && avgFairEfficiency >= 0.0 && avgDeliveryScore >= 0.0 && onTimeDelivery >= 0.0 ==>
                r >= 0.0
  {
    avgFairEfficiency * w.fairEfficiency
    + avgDeliveryScore * w.deliveryScore
    + completionRate * w.completionRate
    + Min(100.0, onTimeDelivery) * w.onTimeDelivery
  }

  predicate NonNegativeWeights(w: Weights) {
    w.fairEfficiency >= 0.0 && w.deliveryScore >= 0.0 && w.completionRate >= 0.0 && w.onTimeDelivery >= 0.0
  }

  /** With non-negative weights, improving any one input never lowers the score. */
  lemma DeveloperScoreMonotone(w: Weights, c1: real, f1: real, d1: real, o1: real,
                               c2: real, f2: real, d2: real, o2: real)
    requires NonNegativeWeights(w)
    requires c1 <= c2 && f1 <= f2 && d1 <= d2 && o1 <= o2
    ensures DeveloperScore(w, c1, f1, d1, o1) <= DeveloperScore(w, c2, f2, d2, o2)
  {
    var m1, m2 := Min(100.0, o1), Min(100.0, o2);
    ScaleMonotone(f1, f2, w.fairEfficiency);
    ScaleMonotone(d1, d2, w.deliveryScore);
    ScaleMonotone(c1, c2, w.completionRate);
    ScaleMonotone(m1, m2, w.onTimeDelivery);
    SumMonotone(f1 * w.fairEfficiency, d1 * w.deliveryScore, c1 * w.completionRate, m1 * w.onTimeDelivery,
                f2 * w.fairEfficiency, d2 * w.deliveryScore, c2 * w.completionRate, m2 * w.onTimeDelivery);
    assert DeveloperScore(w, c1, f1, d1, o1)
        == f1 * w.fairEfficiency + d1 * w.deliveryScore + c1 * w.completionRate + m1 * w.onTimeDelivery;
    assert DeveloperScore(w, c2, f2, d2, o2)
        == f2 * w.fairEfficiency + d2 * w.deliveryScore + c2 * w.completionRate + m2 * w.onTimeDelivery;
  }

  lemma SumMonotone(a1: real, b1: real, e1: real, g1: real, a2: real, b2: real, e2: real, g2: real)
    requires a1 <= a2 && b1 <= b2 && e1 <= e2 && g1 <= g2
    ensures a1 + b1 + e1 + g1 <= a2 + b2 + e2 + g2
  {
  }

  lemma ScaleMonotone(a: real, b: real, k: real)
    requires a <= b && k >= 0.0
    ensures a * k <= b * k
  {
    assert b * k - a * k == (b - a) * k;
  }

  /** With the default weights and inputs in their ranges, the score stays within
      0 and 127.5, however high the on-time percentage. */
  lemma DefaultDeveloperScoreBounds(completionRate: real, avgFair: real, avgDelivery: real, onTime: real)
    requires 0.0 <= completionRate <= 100.0 && 0.0 <= avgFair <= 150.0
    requires 0.0 <= avgDelivery <= 130.0 && 0.0 <= onTime
    ensures 0.0 <= DeveloperScore(DefaultConfig().weights, completionRate, avgFair, avgDelivery, onTime) <= 127.5
  {
  }

  /** Every quantitative field is zero and no state breakdown is reported. */
  predicate ZeroQuantities(m: EfficiencyMetrics) {
    && m.activeTimeHours == 0.0 && m.rawActiveTimeHours == 0.0 && m.pausedTimeHours == 0.0
    && m.totalTimeHours == 0.0 && m.efficiencyPercentage == 0.0 && m.fairEfficiencyScore == 0.0
    && m.deliveryScore == 0.0 && m.completionBonus == 0.0 && m.deliveryTimingBonus == 0.0
    && m.daysAheadBehind == 0.0 && m.stateBreakdown == [] && m.pausedStateBreakdown == []
    && !m.wasReopened && m.activeAfterReopen == 0.0 && !m.isCompleted
  }

  /** `_empty_efficiency_metrics`: the record for an item with too little history. */
  function EmptyEfficiencyMetrics(estimate: real): (r: EfficiencyMetrics)
    ensures ZeroQuantities(r) && r.estimatedTimeHours == estimate
    ensures !r.shouldIgnore && r.cappingApplied == NoData
  {
    EfficiencyMetrics(0.0, 0.0, 0.0, 0.0, estimate, 0.0, 0.0, 0.0, 0.0, 0.0, 0.0, [], [],
                      false, 0.0, false, false, NoData)
  }

  /** `_ignored_work_item_metrics`: the record for an item the stack says to ignore. */
  function IgnoredWorkItemMetrics(estimate: real): (r: EfficiencyMetrics)
    ensures ZeroQuantities(r) && r.estimatedTimeHours == estimate
    ensures r.shouldIgnore && r.cappingApplied == IgnoredItem
  {
    EfficiencyMetrics(0.0, 0.0, 0.0, 0.0, estimate, 0.0, 0.0, 0.0, 0.0, 0.0, 0.0, [], [],
                      false, 0.0, false, true, IgnoredItem)
  }

  /** The two canned records differ only in the ignore flag and the capping reason. */
  lemma CannedRecordsAgree(estimate: real)
    ensures EmptyEfficiencyMetrics(estimate).(shouldIgnore := true, cappingApplied := IgnoredItem)
         == IgnoredWorkItemMetrics(estimate)
  {
  }

  /** `calculate_fair_efficiency_metrics`, given the length of the revision history
      and what the state-transition stack made of it. */
  function FairEfficiencyMetrics(c: Config, item: WorkItem, historyLength: nat, stack: StackSummary)
    : (r: EfficiencyMetrics)
    ensures r.estimatedTimeHours == EstimatedHours(item)
    ensures historyLength < 2 ==> r == EmptyEfficiencyMetrics(EstimatedHours(item))
    ensures historyLength >= 2 && stack.shouldIgnore ==> r == IgnoredWorkItemMetrics(EstimatedHours(item))
    ensures historyLength >= 2 && !stack.shouldIgnore ==>
      && !r.shouldIgnore
      && r.rawActiveTimeHours == stack.productiveHours
      && r.cappingApplied != NoData && r.cappingApplied != IgnoredItem
      && (EstimatedHours(item) <= 0.0 ==> r.activeTimeHours == 0.0 && r.efficiencyPercentage == 0.0)
      && (EstimatedHours(item) > 0.0 ==> r.activeTimeHours <= EstimatedHours(item) * 1.2)
      && (stack.productiveHours >= 0.0 ==> 0.0 <= r.activeTimeHours <= r.rawActiveTimeHours)
      && (c.maxEfficiencyCap >= 0.0 ==> r.efficiencyPercentage <= c.maxEfficiencyCap)
      && (c.maxEfficiencyCap >= 0.0 ==> r.fairEfficiencyScore <= c.maxEfficiencyCap || EstimatedHours(item) + DeliveryTiming(c, item).latePenaltyMitigation <= 0.0)
      && r.completionBonus == CompletionBonus(c, item.state, EstimatedHours(item))
      && r.deliveryScore == DeliveryTiming(c, item).deliveryScore
      && r.deliveryTimingBonus == DeliveryTiming(c, item).timingBonusHours
      && r.daysAheadBehind == DeliveryTiming(c, item).daysDifference
      && r.activeTimeHours == CapActiveHours(EstimatedHours(item), stack.productiveHours).activeHours
      && r.cappingApplied == CapActiveHours(EstimatedHours(item), stack.productiveHours).reason
      && r.efficiencyPercentage == TraditionalEfficiency(c.maxEfficiencyCap, EstimatedHours(item), r.activeTimeHours)
      && r.fairEfficiencyScore == FairEfficiency(c.maxEfficiencyCap, r.activeTimeHours + r.completionBonus,
                                                 EstimatedHours(item) + DeliveryTiming(c, item).latePenaltyMitigation)
  {
    var estimate := EstimatedHours(item);
    if historyLength < 2 then EmptyEfficiencyMetrics(estimate)
    else if stack.shouldIgnore then IgnoredWorkItemMetrics(estimate)
    else
      var capped := CapActiveHours(estimate, stack.productiveHours);
      var delivery := DeliveryTiming(c, item);
      var bonus := CompletionBonus(c, item.state, estimate);
      var traditional := TraditionalEfficiency(c.maxEfficiencyCap, estimate, capped.activeHours);
      var fair := FairEfficiency(c.maxEfficiencyCap, capped.activeHours + bonus,
                                 estimate + delivery.latePenaltyMitigation);
      EfficiencyMetrics(
        capped.activeHours, stack.productiveHours, stack.pausedHours, stack.totalHours,
        estimate, traditional, fair, delivery.deliveryScore, bonus, delivery.timingBonusHours,
        delivery.daysDifference, stack.stateDurations, stack.pausedDurations,
        stack.wasReopened, stack.activeAfterReopenHours, stack.isCompleted,
        stack.shouldIgnore, capped.reason)
  }

  /** With a non-negative cap and bonus share, every record the scorer returns carries
      a fair score between 0 and the cap. */
  lemma ScorerFairWithinCap(c: Config, item: WorkItem, historyLength: nat, stack: StackSummary)
    requires c.maxEfficiencyCap >= 0.0 && c.completionBonusPercentage >= 0.0
    requires stack.productiveHours >= 0.0
    ensures 0.0 <= FairEfficiencyMetrics(c, item, historyLength, stack).fairEfficiencyScore <= c.maxEfficiencyCap
  {
    var r := FairEfficiencyMetrics(c, item, historyLength, stack);
    if historyLength >= 2 && !stack.shouldIgnore {
      var estimate := EstimatedHours(item);
      assert r.completionBonus >= 0.0 by {
        if IsCompletedState(item.state) {
          assert r.completionBonus == estimate * c.completionBonusPercentage;
        }
      }
      assert r.activeTimeHours + r.completionBonus >= 0.0;
    }
  }
}
