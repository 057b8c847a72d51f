/** `_calculate_developer_metrics` and `_empty_developer_metrics`: one developer's items
    rolled up into counts, rates and averages. */
module DeveloperKpi {
  import opened Wrappers
  import opened Text
  import opened Scoring
  import CalculatorConfig

  /** A dictionary entry read with `.get(key, default)`: missing, present as `None`, or
      present as a string. */
  datatype Field = Absent | Null | Present(s: string)

  /** The value `.get(key, d)` yields. */
  function OrDefault(f: Field, d: string): (r: Field)
    ensures !r.Absent?
    ensures f.Absent? ==> r == Present(d)
    ensures !f.Absent? ==> r == f
  {
    if f.Absent? then Present(d) else f
  }

  /** The `efficiency` entry of an item: missing or `{}` (scoring raised), or the
      scorer's record. */
  datatype Efficiency = NoEfficiency | Scored(m: EfficiencyMetrics)

  /** The fields of an enriched work item that the aggregator reads. */
  datatype KpiItem = KpiItem(
    assignedTo: Field,
    state: Field,
    workItemType: Field,
    projectName: Field,
    efficiency: Efficiency)

  /** `item.get('state', '')` as text: a missing state reads as the empty string. A
      `None` state has no text; `lower()` raises on it. */
  function StateText(f: Field): string {
    if f.Present? then f.s else ""
  }

  /** Some item's state is `None`, so `item.get('state', '').lower()` raises. */
  predicate NullStateIn(items: seq<KpiItem>) {
    exists i :: 0 <= i < |items| && items[i].state.Null?
  }

  /** `any(efficiency_data.values())` for a scorer record; the nested `stack_summary`
      is left out of the record, so it is not among the values. */
  predicate AnyValueTruthy(m: EfficiencyMetrics) {
    || m.activeTimeHours != 0.0 || m.rawActiveTimeHours != 0.0 || m.pausedTimeHours != 0.0
    || m.totalTimeHours != 0.0 || m.estimatedTimeHours != 0.0 || m.efficiencyPercentage != 0.0
    || m.fairEfficiencyScore != 0.0 || m.deliveryScore != 0.0 || m.completionBonus != 0.0
    || m.deliveryTimingBonus != 0.0 || m.daysAheadBehind != 0.0 || m.stateBreakdown != []
    || m.pausedStateBreakdown != [] || m.wasReopened || m.activeAfterReopen != 0.0
    || m.isCompleted || m.shouldIgnore || CappingText(m.cappingApplied) != ""
  }

  /** `efficiency_data and any(efficiency_data.values())`. */
  predicate HasData(e: Efficiency) {
    e.Scored? && AnyValueTruthy(e.m)
  }

  /** An item counts as having data exactly when it carries a scorer record: every
      record, the empty and ignored ones included, has a non-empty capping reason. */
  lemma HasDataIffScored(e: Efficiency)
    ensures HasData(e) <==> e.Scored?
  {
  }

  /** `delivery_timing_counts`. */
  datatype TimingCounts = TimingCounts(
    early: int, onTime: int, late1To3: int, late4To7: int, late8To14: int, late15Plus: int)

  function TimingTotal(c: TimingCounts): int {
    c.early + c.onTime + c.late1To3 + c.late4To7 + c.late8To14 + c.late15Plus
  }

  /** Adds one item with `days_ahead_behind` = `d` to its bucket. */
  function Bucket(c: TimingCounts, d: real): TimingCounts {
    if d <= 0.0 then
      if d <= -1.0 then c.(early := c.early + 1) else c.(onTime := c.onTime + 1)
    else if d <= 3.0 then c.(late1To3 := c.late1To3 + 1)
    else if d <= 7.0 then c.(late4To7 := c.late4To7 + 1)
    else if d <= 14.0 then c.(late8To14 := c.late8To14 + 1)
    else c.(late15Plus := c.late15Plus + 1)
  }

  /** The loop's counters. */
  datatype Counts = Counts(
    completed: int,
    withEfficiency: int,
    withEstimated: int,
    withData: int,
    onTime: int,
    reopened: int,
    timing: TimingCounts)

  /** The loop's running totals. */
  datatype Sums = Sums(fair: real, delivery: real, active: real, estimated: real, days: real)

  datatype Tally = Tally(counts: Counts, sums: Sums, types: set<Field>, projects: set<Field>)

  const ZeroTiming: TimingCounts := TimingCounts(0, 0, 0, 0, 0, 0)
  const ZeroTally: Tally := Tally(Counts(0, 0, 0, 0, 0, 0, ZeroTiming), Sums(0.0, 0.0, 0.0, 0.0, 0.0), {}, {})

  /** The scorer record an item contributes, when it counts as having data. */
  function DataOf(item: KpiItem): (r: Option<EfficiencyMetrics>)
    ensures r.Some? <==> HasData(item.efficiency)
  {
    if HasData(item.efficiency) then Some(item.efficiency.m) else None
  }

  /** Only items with both active time and an estimate enter the efficiency average. */
  predicate Efficient(m: EfficiencyMetrics) {
    m.activeTimeHours > 0.0 && m.estimatedTimeHours > 0.0
  }

  /** The relations the counters keep among themselves. */
  predicate Consistent(c: Counts) {
    && 0 <= c.completed && 0 <= c.withEfficiency <= c.withEstimated <= c.withData
    && c.timing.early >= 0 && c.timing.onTime >= 0 && c.timing.late1To3 >= 0
    && c.timing.late4To7 >= 0 && c.timing.late8To14 >= 0 && c.timing.late15Plus >= 0
    && c.onTime <= c.withData && 0 <= c.reopened <= c.withData
    && TimingTotal(c.timing) == c.withData
    && c.onTime == c.timing.early + c.timing.onTime
  }

  function CountStep(c: Counts, item: KpiItem): Counts {
    var completed := c.completed + (if IsCompletedState(StateText(item.state)) then 1 else 0);
    match DataOf(item)
    case None => c.(completed := completed)
    case Some(m) =>
      Counts(completed,
             c.withEfficiency + (if Efficient(m) then 1 else 0),
             c.withEstimated + (if m.estimatedTimeHours > 0.0 then 1 else 0),
             c.withData + 1,
             c.onTime + (if m.daysAheadBehind <= 0.0 then 1 else 0),
             c.reopened + (if m.wasReopened then 1 else 0),
             Bucket(c.timing, m.daysAheadBehind))
  }

  /** Each item lands in exactly one bucket, and in one of the first two exactly when
      it is not late. */
  lemma BucketCountsOnce(c: TimingCounts, d: real)
    ensures TimingTotal(Bucket(c, d)) == TimingTotal(c) + 1
    ensures Bucket(c, d).early + Bucket(c, d).onTime == c.early + c.onTime + (if d <= 0.0 then 1 else 0)
    ensures Bucket(c, d).early >= c.early && Bucket(c, d).onTime >= c.onTime
    ensures Bucket(c, d).late1To3 >= c.late1To3 && Bucket(c, d).late4To7 >= c.late4To7
    ensures Bucket(c, d).late8To14 >= c.late8To14 && Bucket(c, d).late15Plus >= c.late15Plus
  {
  }

  /** One item keeps the counters consistent and adds at most one to each. */
  lemma CountStepConsistent(c: Counts, item: KpiItem)
    requires Consistent(c)
    ensures Consistent(CountStep(c, item))
  {
    match DataOf(item)
    case None =>
    case Some(m) => BucketCountsOnce(c.timing, m.daysAheadBehind);
  }

  lemma CountStepGrowsByOne(c: Counts, item: KpiItem)
    ensures CountStep(c, item).withData <= c.withData + 1 && CountStep(c, item).completed <= c.completed + 1
  {
  }

  function SumStep(s: Sums, item: KpiItem): Sums {
    match DataOf(item)
    case None => s
    case Some(m) =>
      Sums(s.fair + (if Efficient(m) then m.fairEfficiencyScore else 0.0),
           s.delivery + m.deliveryScore,
           s.active + m.activeTimeHours,
           s.estimated + m.estimatedTimeHours,
           s.days + m.daysAheadBehind)
  }

  /** One iteration of the loop over a developer's items. */
  function Step(t: Tally, item: KpiItem): Tally {
    Tally(CountStep(t.counts, item), SumStep(t.sums, item),
          t.types + {OrDefault(item.workItemType, "Unknown")},
          t.projects + {OrDefault(item.projectName, "Unknown")})
  }

  /** The counters after the loop has seen `items`. */
  function TallyOf(items: seq<KpiItem>): Tally {
    if items == [] then ZeroTally
    else Step(TallyOf(items[..|items| - 1]), items[|items| - 1])
  }

  /** The counters keep their relations over any list of items. */
  lemma {:induction false} TallyConsistent(items: seq<KpiItem>)
    ensures Consistent(TallyOf(items).counts)
  {
    if items != [] {
      TallyConsistent(items[..|items| - 1]);
      CountStepConsistent(TallyOf(items[..|items| - 1]).counts, items[|items| - 1]);
    }
  }

  /** No counter exceeds the number of items seen. */
  lemma {:induction false} TallyWithinLength(items: seq<KpiItem>)
    ensures TallyOf(items).counts.withData <= |items| && TallyOf(items).counts.completed <= |items|
  {
    if items != [] {
      TallyWithinLength(items[..|items| - 1]);
      CountStepGrowsByOne(TallyOf(items[..|items| - 1]).counts, items[|items| - 1]);
    }
  }

  /** Everything in a developer's line. Where the source returns `list(set)`, the
      model keeps the set, whose size is the `*_count` field. */
  datatype DeveloperMetrics = DeveloperMetrics(
    totalWorkItems: int,
    completedItems: int,
    itemsWithEfficiency: int,
    sampleConfidence: real,
    completionRate: real,
    onTimeDeliveryPercentage: real,
    averageFairEfficiency: real,
    averageDeliveryScore: real,
    overallDeveloperScore: real,
    totalActiveHours: real,
    totalEstimatedHours: real,
    averageDaysAheadBehind: real,
    reopenedItemsHandled: int,
    reopenedRate: real,
    workItemTypes: set<Field>,
    projects: set<Field>,
    deliveryTimingBreakdown: TimingCounts)

  /** The share of items with estimates that also have active time. */
  function Confidence(c: Counts): real {
    if c.withEfficiency > 0 && c.withEstimated > 0 then c.withEfficiency as real / c.withEstimated as real else 0.0
  }

  function ConfidenceFactor(c: Counts): real {
    Min(1.0, Confidence(c) * 3.0)
  }

  /** `part / whole * 100`, or 0 for an empty whole. */
  function Percent(part: int, whole: int): real {
    if whole > 0 then part as real / whole as real * 100.0 else 0.0
  }

  /** `total / count`, or 0 for no items. */
  function Mean(total: real, count: int): real {
    if count > 0 then total / count as real else 0.0
  }

  /** The counters turned into the returned record; `total` is the denominator of the
      completion rate. */
  function Summarize(t: Tally, total: int, w: CalculatorConfig.Weights): DeveloperMetrics {
    var c := t.counts;
    var completionRate := Percent(c.completed, total);
    var avgFair := if c.withEfficiency > 0 then t.sums.fair / c.withEfficiency as real * ConfidenceFactor(c) else 0.0;
    var onTimePct := Percent(c.onTime, c.withData);
    var avgDelivery := Mean(t.sums.delivery, c.withData);
    DeveloperMetrics(
      total, c.completed, c.withEfficiency,
      if c.withEfficiency > 0 then Confidence(c) * 100.0 else 0.0,
      completionRate, onTimePct, avgFair, avgDelivery,
      DeveloperScore(w, completionRate, avgFair, avgDelivery, onTimePct),
      t.sums.active, t.sums.estimated, Mean(t.sums.days, c.withData),
      c.reopened, Percent(c.reopened, c.withData),
      t.types, t.projects, c.timing)
  }

  /** `total_assigned_items if total_assigned_items is not None else len(work_items)`. */
  function TotalItems(totalAssigned: Option<int>, count: nat): int {
    match totalAssigned
    case Some(n) => n
    case None => count
  }

  /** `_empty_developer_metrics`: all zero, seeded with `total_assigned_items or 0`. */
  function EmptyDeveloperMetrics(totalAssigned: Option<int>): (r: DeveloperMetrics)
    ensures r.totalWorkItems == totalAssigned.GetOr(0)
    ensures r.completedItems == 0 && r.itemsWithEfficiency == 0 && r.reopenedItemsHandled == 0
    ensures r.workItemTypes == {} && r.projects == {} && r.deliveryTimingBreakdown == ZeroTiming
    ensures r.completionRate == 0.0 && r.averageFairEfficiency == 0.0 && r.overallDeveloperScore == 0.0
    ensures r.sampleConfidence == 0.0 && r.onTimeDeliveryPercentage == 0.0 && r.averageDeliveryScore == 0.0
    ensures r.totalActiveHours == 0.0 && r.totalEstimatedHours == 0.0
    ensures r.averageDaysAheadBehind == 0.0 && r.reopenedRate == 0.0
  {
    DeveloperMetrics(totalAssigned.GetOr(0), 0, 0, 0.0, 0.0, 0.0, 0.0, 0.0, 0.0, 0.0, 0.0, 0.0, 0,
                     0.0, {}, {}, ZeroTiming)
  }

  /** What `_calculate_developer_metrics` returns. */
  function DeveloperMetricsOf(items: seq<KpiItem>, totalAssigned: Option<int>, w: CalculatorConfig.Weights)
    : DeveloperMetrics
  {
    if items == [] then EmptyDeveloperMetrics(totalAssigned)
    else Summarize(TallyOf(items), TotalItems(totalAssigned, |items|), w)
  }

  /** The bucket update of the loop for one item `d` days from its target. */
  method CountTiming(c: TimingCounts, d: real) returns (r: TimingCounts)
    ensures r == Bucket(c, d)
  {
    r := c;
    if d <= 0.0 {
      if d <= -1.0 {
        r := r.(early := r.early + 1);
      } else {
        r := r.(onTime := r.onTime + 1);
      }
    } else if d <= 3.0 {
      r := r.(late1To3 := r.late1To3 + 1);
    } else if d <= 7.0 {
      r := r.(late4To7 := r.late4To7 + 1);
    } else if d <= 14.0 {
      r := r.(late8To14 := r.late8To14 + 1);
    } else {
      r := r.(late15Plus := r.late15Plus + 1);
    }
  }

  method CalculateDeveloperMetrics(items: seq<KpiItem>, totalAssigned: Option<int>, w: CalculatorConfig.Weights)
    returns (r: Completion<DeveloperMetrics>)
    ensures r.AttributeErrorRaised? <==> NullStateIn(items)
    ensures r.Normal? ==> r.value == DeveloperMetricsOf(items, totalAssigned, w)
  {
    if |items| == 0 {
      return Normal(EmptyDeveloperMetrics(totalAssigned));
    }
    var totalItems := TotalItems(totalAssigned, |items|);
    var t := CountItems(items);
    if t.AttributeErrorRaised? {
      return AttributeErrorRaised;
    }
    r := Normal(Summarize(t.value, totalItems, w));
  }

  /** The loop of `_calculate_developer_metrics` over the items. */
  method CountItems(items: seq<KpiItem>) returns (r: Completion<Tally>)
    ensures r.AttributeErrorRaised? <==> NullStateIn(items)
    ensures r.Normal? ==> r.value == TallyOf(items)
  {
    var t := ZeroTally;
    var i := 0;
    while i < |items|
      invariant 0 <= i <= |items|
      invariant t == TallyOf(items[..i])
      invariant forall j :: 0 <= j < i ==> !items[j].state.Null?
    {
      var item := items[i];
      TallyOfPrefix(items, i);
      var step := CountItem(t.counts, t.sums, item);
      if step.AttributeErrorRaised? {
        return AttributeErrorRaised;
      }
      var (counts, sums) := step.value;
      t := Tally(counts, sums,
                 t.types + {OrDefault(item.workItemType, "Unknown")},
                 t.projects + {OrDefault(item.projectName, "Unknown")});
      i := i + 1;
    }
    assert items[..i] == items;
    r := Normal(t);
  }

  /** The tally of one more item is one more step. */
  lemma TallyOfPrefix(items: seq<KpiItem>, i: int)
    requires 0 <= i < |items|
    ensures TallyOf(items[..i + 1]) == Step(TallyOf(items[..i]), items[i])
  {
    assert items[..i + 1][..i] == items[..i];
  }

  /** The body of that loop for one item: the completed count, then, for an item with
      data, the estimate, efficiency, delivery, reopen and timing counters. */
  method CountItem(c: Counts, s: Sums, item: KpiItem) returns (r: Completion<(Counts, Sums)>)
    ensures r.AttributeErrorRaised? <==> item.state.Null?
    ensures r.Normal? ==> r.value == (CountStep(c, item), SumStep(s, item))
  {
    if item.state.Null? {
      return AttributeErrorRaised;
    }
    var c', s' := c, s;
    if IsCompletedState(StateText(item.state)) {
      c' := c'.(completed := c'.completed + 1);
    }
    var e := item.efficiency;
    if e.Scored? && AnyValueTruthy(e.m) {
      c' := c'.(withData := c'.withData + 1);
      var active := e.m.activeTimeHours;
      var estimated := e.m.estimatedTimeHours;
      if estimated > 0.0 {
        c' := c'.(withEstimated := c'.withEstimated + 1);
      }
      if active > 0.0 && estimated > 0.0 {
        c' := c'.(withEfficiency := c'.withEfficiency + 1);
        s' := s'.(fair := s'.fair + e.m.fairEfficiencyScore);
      }
      s' := s'.(delivery := s'.delivery + e.m.deliveryScore, active := s'.active + active,
                estimated := s'.estimated + estimated, days := s'.days + e.m.daysAheadBehind);
      if e.m.wasReopened {
        c' := c'.(reopened := c'.reopened + 1);
      }
      if e.m.daysAheadBehind <= 0.0 {
        c' := c'.(onTime := c'.onTime + 1);
      }
      var timing := CountTiming(c'.timing, e.m.daysAheadBehind);
      c' := c'.(timing := timing);
    }
    r := Normal((c', s'));
  }

  /** The counters of the loop, read back individually. */
  function CountCompleted(items: seq<KpiItem>): nat {
    if items == [] then 0
    else CountCompleted(items[..|items| - 1]) + (if IsCompletedState(StateText(items[|items| - 1].state)) then 1 else 0)
  }

  lemma {:induction false} CompletedCountsCompletedStates(items: seq<KpiItem>)
    ensures TallyOf(items).counts.completed == CountCompleted(items)
  {
    if items != [] {
      CompletedCountsCompletedStates(items[..|items| - 1]);
    }
  }

  /** Both code paths agree on an empty list: the canned record is what summarizing no
      items at all would give. */
  lemma EmptyIsZeroSummary(totalAssigned: Option<int>, w: CalculatorConfig.Weights)
    ensures EmptyDeveloperMetrics(totalAssigned) == Summarize(TallyOf([]), totalAssigned.GetOr(0), w)
  {
  }

  /** The confidence lies in (0, 1] as soon as one item has efficiency, and so does the
      factor applied to the average fair efficiency. */
  lemma ConfidenceInUnitInterval(c: Counts)
    requires Consistent(c) && c.withEfficiency > 0
    ensures 0.0 < Confidence(c) <= 1.0
    ensures 0.0 < ConfidenceFactor(c) <= 1.0
  {
    var e, s := c.withEfficiency as real, c.withEstimated as real;
    assert 0.0 < e <= s;
    RatioAtMostOne(e, s);
  }

  lemma RatioAtMostOne(e: real, s: real)
    requires 0.0 < e <= s
    ensures 0.0 < e / s <= 1.0
  {
    var q := e / s;
    assert q * s == e;
    assert (1.0 - q) * s == s - e;
  }

  lemma PercentWithin(part: int, whole: int)
    requires 0 <= part <= whole || whole <= 0
    ensures 0.0 <= Percent(part, whole) <= 100.0
  {
    if whole > 0 {
      assert part as real / whole as real * whole as real == part as real;
    }
  }

  /** Rates over the items with data lie within 0 and 100 for any consistent tally. */
  lemma SummaryRatesWithin(t: Tally, total: int, w: CalculatorConfig.Weights)
    requires Consistent(t.counts)
    ensures 0.0 <= Summarize(t, total, w).onTimeDeliveryPercentage <= 100.0
    ensures 0.0 <= Summarize(t, total, w).reopenedRate <= 100.0
  {
    PercentWithin(t.counts.onTime, t.counts.withData);
    PercentWithin(t.counts.reopened, t.counts.withData);
  }

  /** The on-time percentage, computed over the items with data, lies within 0 and 100. */
  lemma OnTimeRateWithin(items: seq<KpiItem>, totalAssigned: Option<int>, w: CalculatorConfig.Weights)
    ensures 0.0 <= DeveloperMetricsOf(items, totalAssigned, w).onTimeDeliveryPercentage <= 100.0
  {
    if items != [] {
      TallyConsistent(items);
      SummaryRatesWithin(TallyOf(items), TotalItems(totalAssigned, |items|), w);
    }
  }

  /** So does the reopened rate. */
  lemma ReopenedRateWithin(items: seq<KpiItem>, totalAssigned: Option<int>, w: CalculatorConfig.Weights)
    ensures 0.0 <= DeveloperMetricsOf(items, totalAssigned, w).reopenedRate <= 100.0
  {
    if items != [] {
      TallyConsistent(items);
      SummaryRatesWithin(TallyOf(items), TotalItems(totalAssigned, |items|), w);
    }
  }

  /** Without an assigned total, the completion rate is a share of the listed items and
      so at most 100; an assigned total of at least as many items keeps it so. */
  lemma CompletionRateAtMostHundred(items: seq<KpiItem>, totalAssigned: Option<int>, w: CalculatorConfig.Weights)
    requires totalAssigned.None? || totalAssigned.value >= |items|
    ensures 0.0 <= DeveloperMetricsOf(items, totalAssigned, w).completionRate <= 100.0
  {
    if items != [] {
      TallyConsistent(items);
      TallyWithinLength(items);
      PercentWithin(TallyOf(items).counts.completed, TotalItems(totalAssigned, |items|));
    }
  }

  /** Every scored item's fair score lies between 0 and `cap`. */
  predicate FairWithinCap(items: seq<KpiItem>, cap: real) {
    forall item <- items :: item.efficiency.Scored? ==> 0.0 <= item.efficiency.m.fairEfficiencyScore <= cap
  }

  /** A record the scorer produces for some work item, history and stack summary with
      non-negative productive hours. */
  ghost predicate ScorerRecord(c: CalculatorConfig.Config, m: EfficiencyMetrics) {
    exists item: WorkItem, historyLength: nat, stack: StackSummary ::
      stack.productiveHours >= 0.0 && m == FairEfficiencyMetrics(c, item, historyLength, stack)
  }

  /** Items scored by the calculator meet `FairWithinCap` for the calculator's cap. */
  lemma ScorerRecordsWithinCap(items: seq<KpiItem>, c: CalculatorConfig.Config)
    requires c.maxEfficiencyCap >= 0.0 && c.completionBonusPercentage >= 0.0
    requires forall item <- items :: item.efficiency.Scored? ==> ScorerRecord(c, item.efficiency.m)
    ensures FairWithinCap(items, c.maxEfficiencyCap)
  {
    forall item <- items | item.efficiency.Scored?
      ensures 0.0 <= item.efficiency.m.fairEfficiencyScore <= c.maxEfficiencyCap
    {
      var w: WorkItem, h: nat, stack: StackSummary :|
        stack.productiveHours >= 0.0 && item.efficiency.m == FairEfficiencyMetrics(c, w, h, stack);
      ScorerFairWithinCap(c, w, h, stack);
    }
  }

  /** `n * cap`, as a sum of `n` copies, so that the bound below stays linear. */
  function Repeated(n: int, cap: real): real
    decreases n
  {
    if n <= 0 then 0.0 else Repeated(n - 1, cap) + cap
  }

  lemma {:induction false} RepeatedIsProduct(n: nat, cap: real)
    ensures Repeated(n, cap) == n as real * cap
  {
    if n > 0 {
      RepeatedIsProduct(n - 1, cap);
      assert n as real * cap == (n - 1) as real * cap + cap;
    }
  }

  /** One item keeps the fair total within the cap per efficiency item. */
  lemma StepFairBounded(t: Tally, item: KpiItem, cap: real)
    requires t.counts.withEfficiency >= 0
    requires 0.0 <= t.sums.fair <= Repeated(t.counts.withEfficiency, cap)
    requires item.efficiency.Scored? ==> 0.0 <= item.efficiency.m.fairEfficiencyScore <= cap
    ensures 0.0 <= Step(t, item).sums.fair <= Repeated(Step(t, item).counts.withEfficiency, cap)
  {
    match DataOf(item)
    case None =>
    case Some(m) =>
      HasDataIffScored(item.efficiency);
      assert Repeated(t.counts.withEfficiency + 1, cap) == Repeated(t.counts.withEfficiency, cap) + cap;
  }

  lemma {:induction false} FairTotalBounded(items: seq<KpiItem>, cap: real)
    requires FairWithinCap(items, cap)
    ensures 0.0 <= TallyOf(items).sums.fair <= Repeated(TallyOf(items).counts.withEfficiency, cap)
  {
    if items != [] {
      var prefix, last := items[..|items| - 1], items[|items| - 1];
      assert FairWithinCap(prefix, cap) by {
        forall item <- prefix ensures item in items {
          var i :| 0 <= i < |prefix| && prefix[i] == item;
          assert items[i] == item;
        }
      }
      FairTotalBounded(prefix, cap);
      TallyConsistent(prefix);
      assert last in items;
      StepFairBounded(TallyOf(prefix), last, cap);
    }
  }

  /** When every item's fair score lies within the cap, so does the developer's
      average, for the confidence factor only scales it down. */
  lemma AverageFairWithinCap(items: seq<KpiItem>, totalAssigned: Option<int>,
                             w: CalculatorConfig.Weights, cap: real)
    requires cap >= 0.0 && FairWithinCap(items, cap)
    ensures 0.0 <= DeveloperMetricsOf(items, totalAssigned, w).averageFairEfficiency <= cap
  {
    if items != [] {
      TallyConsistent(items);
      FairTotalBounded(items, cap);
      SummaryFairWithin(TallyOf(items), TotalItems(totalAssigned, |items|), w, cap);
    }
  }

  /** The average fair score of a tally whose fair total is at most `cap` per item. */
  lemma SummaryFairWithin(t: Tally, total: int, w: CalculatorConfig.Weights, cap: real)
    requires Consistent(t.counts) && cap >= 0.0
    requires 0.0 <= t.sums.fair <= Repeated(t.counts.withEfficiency, cap)
    ensures 0.0 <= Summarize(t, total, w).averageFairEfficiency <= cap
  {
    if t.counts.withEfficiency > 0 {
      RepeatedIsProduct(t.counts.withEfficiency, cap);
      ConfidenceInUnitInterval(t.counts);
      MeanScaledWithin(t.sums.fair, t.counts.withEfficiency, cap, ConfidenceFactor(t.counts));
    }
  }

  lemma MeanScaledWithin(total: real, n: int, cap: real, f: real)
    requires n > 0 && 0.0 <= total <= n as real * cap && 0.0 < f <= 1.0
    ensures 0.0 <= total / n as real * f <= cap
  {
    var mean := total / n as real;
    assert mean * n as real == total;
    assert 0.0 <= mean <= cap;
    assert mean * f <= mean;
  }

  /** The six buckets partition the items with data, and the first two are the
      on-time count; the nested denominators are ordered. */
  lemma TimingPartition(items: seq<KpiItem>, totalAssigned: Option<int>, w: CalculatorConfig.Weights)
    requires items != []
    ensures var r := DeveloperMetricsOf(items, totalAssigned, w);
      var c := TallyOf(items).counts;
      && TimingTotal(r.deliveryTimingBreakdown) == c.withData
      && r.deliveryTimingBreakdown.early + r.deliveryTimingBreakdown.onTime == c.onTime
      && r.itemsWithEfficiency <= c.withEstimated <= c.withData <= |items|
  {
    TallyConsistent(items);
    TallyWithinLength(items);
  }

  /** Without any item with data every average and rate is 0. */
  lemma NoDataNoAverages(items: seq<KpiItem>, totalAssigned: Option<int>, w: CalculatorConfig.Weights)
    requires forall i :: 0 <= i < |items| ==> items[i].efficiency.NoEfficiency?
    ensures var r := DeveloperMetricsOf(items, totalAssigned, w);
      && r.onTimeDeliveryPercentage == 0.0 && r.averageDeliveryScore == 0.0
      && r.averageDaysAheadBehind == 0.0 && r.reopenedRate == 0.0
      && r.averageFairEfficiency == 0.0 && r.itemsWithEfficiency == 0
  {
    TallyConsistent(items);
    NoDataTally(items);
  }

  lemma {:induction false} NoDataTally(items: seq<KpiItem>)
    requires forall i :: 0 <= i < |items| ==> items[i].efficiency.NoEfficiency?
    ensures TallyOf(items).counts.withData == 0
  {
    if items != [] {
      NoDataTally(items[..|items| - 1]);
    }
  }

  /** The time fields that the basic-times extraction copies out of a scorer record.
      It asks for `blocked_time_hours`, which the record does not have, so it gets its
      default. */
  datatype BasicTimes = BasicTimes(activeTimeHours: real, blockedTimeHours: real)

  /** The numeric entries a scorer record carries, by key. */
  function NumericEntry(m: EfficiencyMetrics, key: string): Option<real> {
    if key == "active_time_hours" then Some(m.activeTimeHours)
    else if key == "raw_active_time_hours" then Some(m.rawActiveTimeHours)
    else if key == "paused_time_hours" then Some(m.pausedTimeHours)
    else if key == "total_time_hours" then Some(m.totalTimeHours)
    else if key == "estimated_time_hours" then Some(m.estimatedTimeHours)
    else if key == "efficiency_percentage" then Some(m.efficiencyPercentage)
    else if key == "fair_efficiency_score" then Some(m.fairEfficiencyScore)
    else if key == "delivery_score" then Some(m.deliveryScore)
    else if key == "completion_bonus" then Some(m.completionBonus)
    else if key == "delivery_timing_bonus" then Some(m.deliveryTimingBonus)
    else if key == "days_ahead_behind" then Some(m.daysAheadBehind)
    else if key == "active_after_reopen" then Some(m.activeAfterReopen)
    else None
  }

  function ExtractBasicTimes(m: EfficiencyMetrics): BasicTimes {
    BasicTimes(NumericEntry(m, "active_time_hours").GetOr(0.0),
               NumericEntry(m, "blocked_time_hours").GetOr(0.0))
  }

  /** The blocked time is always 0, whatever the paused time was. */
  lemma BlockedTimeAlwaysZero(m: EfficiencyMetrics)
    ensures ExtractBasicTimes(m) == BasicTimes(m.activeTimeHours, 0.0)
  {
  }
}
