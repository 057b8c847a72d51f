/** `calculate_comprehensive_kpi_per_developer`: the items grouped by assignee, one
    line per developer, the overall summary and the five states where items spent the
    longest on average. */
module KpiReport {
  import opened Wrappers
  import opened Scoring
  import opened DeveloperKpi
  import CalculatorConfig
  import Sorting

  predicate NoDuplicates<T(==)>(s: seq<T>) {
    forall i, j :: 0 <= i < j < |s| ==> s[i] != s[j]
  }

  /** `item.get('assigned_to', 'Unassigned')`: the key an item is grouped under. */
  function Assignee(item: KpiItem): Field {
    OrDefault(item.assignedTo, "Unassigned")
  }

  // ---------------------------------------------------------------------------
  // Grouping by assignee
  // ---------------------------------------------------------------------------

  /** The keys of `developer_items`, in the order the dictionary first saw them. */
  function DistinctAssignees(items: seq<KpiItem>): seq<Field> {
    if items == [] then []
    else
      var keys := DistinctAssignees(items[..|items| - 1]);
      var k := Assignee(items[|items| - 1]);
      if k in keys then keys else keys + [k]
  }

  /** The list `developer_items[k]`: the items under key `k`, in input order. */
  function ItemsOf(items: seq<KpiItem>, k: Field): seq<KpiItem> {
    if items == [] then []
    else ItemsOf(items[..|items| - 1], k) + (if Assignee(items[|items| - 1]) == k then [items[|items| - 1]] else [])
  }

  /** Each key appears once, and the keys are exactly the assignees of the items. */
  lemma {:induction false} DistinctAssigneesExact(items: seq<KpiItem>)
    ensures NoDuplicates(DistinctAssignees(items))
    ensures forall k :: k in DistinctAssignees(items) <==> exists i :: 0 <= i < |items| && Assignee(items[i]) == k
    ensures |DistinctAssignees(items)| <= |items|
  {
    if items != [] {
      var prefix := items[..|items| - 1];
      DistinctAssigneesExact(prefix);
      var keys := DistinctAssignees(items);
      forall i | 0 <= i < |items| ensures Assignee(items[i]) in keys {
        if i < |prefix| {
          assert prefix[i] == items[i];
        }
      }
      forall k | k in keys ensures exists i :: 0 <= i < |items| && Assignee(items[i]) == k {
        if k in DistinctAssignees(prefix) {
          var i :| 0 <= i < |prefix| && Assignee(prefix[i]) == k;
          assert items[i] == prefix[i];
        } else {
          assert Assignee(items[|items| - 1]) == k;
        }
      }
    }
  }

  /** A group holds exactly the items whose assignee is its key. */
  lemma {:induction false} ItemsOfMembers(items: seq<KpiItem>, k: Field)
    ensures forall item :: item in ItemsOf(items, k) <==> item in items && Assignee(item) == k
  {
    if items != [] {
      var prefix := items[..|items| - 1];
      ItemsOfMembers(prefix, k);
      assert items == prefix + [items[|items| - 1]];
    }
  }

  /** A key nobody is assigned to has an empty group. */
  lemma {:induction false} ItemsOfAbsent(items: seq<KpiItem>, k: Field)
    requires k !in DistinctAssignees(items)
    ensures ItemsOf(items, k) == []
  {
    if items != [] {
      ItemsOfAbsent(items[..|items| - 1], k);
    }
  }

  /** The sizes of the groups under `keys`. */
  function GroupSizes(items: seq<KpiItem>, keys: seq<Field>): int {
    if keys == [] then 0 else GroupSizes(items, keys[..|keys| - 1]) + |ItemsOf(items, keys[|keys| - 1])|
  }

  /** Adding an item grows exactly the group of its key, when that key is listed once. */
  lemma {:induction false} GroupSizesAppend(items: seq<KpiItem>, x: KpiItem, keys: seq<Field>)
    ensures GroupSizes(items + [x], keys) == GroupSizes(items, keys) + Occurs(keys, Assignee(x))
  {
    if keys != [] {
      var init := keys[..|keys| - 1];
      GroupSizesAppend(items, x, init);
      assert (items + [x])[..|items + [x]| - 1] == items;
    }
  }

  /** How often `k` is listed in `keys`. */
  function Occurs(keys: seq<Field>, k: Field): nat {
    if keys == [] then 0 else Occurs(keys[..|keys| - 1], k) + (if keys[|keys| - 1] == k then 1 else 0)
  }

  lemma {:induction false} OccursOnce(keys: seq<Field>, k: Field)
    requires NoDuplicates(keys)
    ensures Occurs(keys, k) == if k in keys then 1 else 0
  {
    if keys != [] {
      var init := keys[..|keys| - 1];
      NoDuplicatesInit(keys);
      OccursOnce(init, k);
      assert keys == init + [keys[|keys| - 1]];
      if keys[|keys| - 1] == k {
        assert k !in init by {
          forall i | 0 <= i < |init| ensures init[i] != k {
            assert init[i] == keys[i];
          }
        }
      }
    }
  }

  lemma NoDuplicatesInit<T>(s: seq<T>)
    requires NoDuplicates(s) && s != []
    ensures NoDuplicates(s[..|s| - 1])
    ensures s[|s| - 1] !in s[..|s| - 1]
  {
    var init := s[..|s| - 1];
    forall i, j | 0 <= i < j < |init| ensures init[i] != init[j] {
      assert init[i] == s[i] && init[j] == s[j];
    }
    forall i | 0 <= i < |init| ensures init[i] != s[|s| - 1] {
      assert init[i] == s[i];
    }
  }

  /** The empty group of a new key adds nothing to the sizes. */
  lemma GroupSizesNewKey(items: seq<KpiItem>, keys: seq<Field>, k: Field)
    requires k !in DistinctAssignees(items)
    ensures GroupSizes(items, keys + [k]) == GroupSizes(items, keys)
  {
    ItemsOfAbsent(items, k);
    assert (keys + [k])[..|keys + [k]| - 1] == keys;
  }

  /** The groups partition the items: their sizes add up to the number of items. */
  lemma {:induction false} GroupsPartitionItems(items: seq<KpiItem>)
    ensures GroupSizes(items, DistinctAssignees(items)) == |items|
  {
    if items != [] {
      var prefix, x := items[..|items| - 1], items[|items| - 1];
      var keys := DistinctAssignees(prefix);
      GroupsPartitionItems(prefix);
      DistinctAssigneesExact(prefix);
      DistinctAssigneesExact(items);
      assert prefix + [x] == items;
      OccursOnce(DistinctAssignees(items), Assignee(x));
      if Assignee(x) in keys {
        GroupSizesAppend(prefix, x, keys);
      } else {
        GroupSizesAppend(prefix, x, keys + [Assignee(x)]);
        GroupSizesNewKey(prefix, keys, Assignee(x));
      }
    }
  }

  /** The grouping loop: appends each item to its key's list, creating the list on the
      key's first occurrence. */
  method GroupByAssignee(items: seq<KpiItem>) returns (keys: seq<Field>, groups: map<Field, seq<KpiItem>>)
    ensures keys == DistinctAssignees(items)
    ensures forall k :: k in groups <==> k in keys
    ensures forall k <- keys :: groups[k] == ItemsOf(items, k)
  {
    keys, groups := [], map[];
    for i := 0 to |items|
      invariant keys == DistinctAssignees(items[..i])
      invariant forall k :: k in groups <==> k in keys
      invariant forall k <- keys :: groups[k] == ItemsOf(items[..i], k)
    {
      var item := items[i];
      var assignedTo := OrDefault(item.assignedTo, "Unassigned");
      assert items[..i + 1][..i] == items[..i];
      if assignedTo !in groups {
        ItemsOfAbsent(items[..i], assignedTo);
        keys := keys + [assignedTo];
        groups := groups[assignedTo := []];
      }
      groups := groups[assignedTo := groups[assignedTo] + [item]];
    }
    assert items[..|items|] == items;
  }

  /** `assigned_counts.get(developer) if assigned_counts else None`. */
  function TotalAssigned(counts: Option<map<Field, int>>, developer: Field): (r: Option<int>)
    ensures r.Some? <==> counts.Some? && developer in counts.value
    ensures r.Some? ==> r.value == counts.value[developer]
  {
    if counts.Some? && counts.value != map[] && developer in counts.value then Some(counts.value[developer])
    else None
  }

  // ---------------------------------------------------------------------------
  // State occurrences and bottlenecks
  // ---------------------------------------------------------------------------

  /** `all_state_occurrences[state]`. */
  datatype StateTotal = StateTotal(count: int, totalHours: real)

  /** `all_state_occurrences`, with the order in which its states were first seen. */
  datatype StateTally = StateTally(order: seq<string>, totals: map<string, StateTotal>)

  const NoStates: StateTally := StateTally([], map[])

  /** The `state_breakdown` of an item's scorer record, or nothing. */
  function BreakdownOf(item: KpiItem): seq<(string, real)> {
    if item.efficiency.Scored? then item.efficiency.m.stateBreakdown else []
  }

  /** One `(state, hours)` pair counted. */
  function AddPair(t: StateTally, p: (string, real)): StateTally {
    var (state, hours) := p;
    var current := if state in t.totals then t.totals[state] else StateTotal(0, 0.0);
    StateTally(if state in t.totals then t.order else t.order + [state],
               t.totals[state := StateTotal(current.count + 1, current.totalHours + hours)])
  }

  function AddPairs(t: StateTally, ps: seq<(string, real)>): StateTally {
    if ps == [] then t else AddPair(AddPairs(t, ps[..|ps| - 1]), ps[|ps| - 1])
  }

  lemma {:induction false} AddPairsAppend(t: StateTally, a: seq<(string, real)>, b: seq<(string, real)>)
    ensures AddPairs(t, a + b) == AddPairs(AddPairs(t, a), b)
  {
    if b == [] {
      assert a + b == a;
    } else {
      AddPairsAppend(t, a, b[..|b| - 1]);
      assert (a + b)[..|a + b| - 1] == a + b[..|b| - 1];
    }
  }

  /** The pairs the scan visits for one developer's items, in order. */
  function GroupPairs(items: seq<KpiItem>): seq<(string, real)> {
    if items == [] then [] else GroupPairs(items[..|items| - 1]) + BreakdownOf(items[|items| - 1])
  }

  /** The pairs visited for the developers `keys`, one developer after the other. */
  function VisitedPairs(items: seq<KpiItem>, keys: seq<Field>): seq<(string, real)> {
    if keys == [] then [] else VisitedPairs(items, keys[..|keys| - 1]) + GroupPairs(ItemsOf(items, keys[|keys| - 1]))
  }

  /** `all_state_occurrences` once every developer has been visited. */
  function StatesOf(items: seq<KpiItem>): StateTally {
    AddPairs(NoStates, VisitedPairs(items, DistinctAssignees(items)))
  }

  /** How often `state` occurs among the pairs, and the hours it carries there. */
  function Occurrences(ps: seq<(string, real)>, state: string): nat {
    if ps == [] then 0 else Occurrences(ps[..|ps| - 1], state) + (if ps[|ps| - 1].0 == state then 1 else 0)
  }

  function HoursIn(ps: seq<(string, real)>, state: string): real {
    if ps == [] then 0.0 else HoursIn(ps[..|ps| - 1], state) + (if ps[|ps| - 1].0 == state then ps[|ps| - 1].1 else 0.0)
  }

  /** What the occurrences record of a list of pairs: each state once, in first-seen
      order, with its number of occurrences and its total hours. */
  ghost predicate Records(t: StateTally, ps: seq<(string, real)>) {
    && NoDuplicates(t.order)
    && (forall s :: s in t.totals <==> s in t.order)
    && (forall s :: s in t.totals <==> Occurrences(ps, s) > 0)
    && (forall s :: s in t.totals ==> t.totals[s] == StateTotal(Occurrences(ps, s), HoursIn(ps, s)))
  }

  lemma {:induction false} AddPairsRecords(ps: seq<(string, real)>)
    ensures Records(AddPairs(NoStates, ps), ps)
  {
    if ps != [] {
      var init, p := ps[..|ps| - 1], ps[|ps| - 1];
      AddPairsRecords(init);
      var t := AddPairs(NoStates, init);
      var r := AddPair(t, p);
      assert r == AddPairs(NoStates, ps);
      forall s ensures Occurrences(ps, s) == Occurrences(init, s) + (if p.0 == s then 1 else 0)
                    && HoursIn(ps, s) == HoursIn(init, s) + (if p.0 == s then p.1 else 0.0)
      {
      }
      if p.0 !in t.totals {
        NoOccurrencesNoHours(init, p.0);
        assert NoDuplicates(r.order) by {
          assert r.order == t.order + [p.0];
          forall i | 0 <= i < |t.order| ensures t.order[i] != p.0 {
            assert t.order[i] in t.totals;
          }
        }
      }
    }
  }

  lemma {:induction false} NoOccurrencesNoHours(ps: seq<(string, real)>, state: string)
    requires Occurrences(ps, state) == 0
    ensures HoursIn(ps, state) == 0.0
  {
    if ps != [] {
      NoOccurrencesNoHours(ps[..|ps| - 1], state);
    }
  }

  /** One line of `bottlenecks`. */
  datatype Bottleneck = Bottleneck(state: string, averageTimeHours: real, occurrences: int)

  function AverageTime(b: Bottleneck): real {
    b.averageTimeHours
  }

  /** The candidate lines, one per state in first-seen order. */
  function Candidates(order: seq<string>, totals: map<string, StateTotal>): seq<Bottleneck>
    requires forall s <- order :: s in totals
  {
    if order == [] then []
    else
      var s := order[|order| - 1];
      Candidates(order[..|order| - 1], totals)
        + [Bottleneck(s, Mean(totals[s].totalHours, totals[s].count), totals[s].count)]
  }

  /** Each candidate for the pairs reports a state that occurred, how often it did and
      its mean time. */
  lemma {:induction false} CandidatesReport(order: seq<string>, totals: map<string, StateTotal>, ps: seq<(string, real)>)
    requires forall s <- order :: s in totals
    requires forall s :: s in totals ==> totals[s] == StateTotal(Occurrences(ps, s), HoursIn(ps, s))
    ensures |Candidates(order, totals)| == |order|
    ensures forall i :: 0 <= i < |order| ==>
      Candidates(order, totals)[i]
        == Bottleneck(order[i], Mean(HoursIn(ps, order[i]), Occurrences(ps, order[i])), Occurrences(ps, order[i]))
  {
    if order != [] {
      CandidatesReport(order[..|order| - 1], totals, ps);
    }
  }

  /** The mean time of a state that occurred, times its occurrences, is its total. */
  lemma MeanTimesCount(total: real, n: int)
    requires n > 0
    ensures Mean(total, n) * n as real == total
  {
  }

  /** The loop that turns the occurrences into candidate lines. */
  method CollectCandidates(states: StateTally) returns (r: seq<Bottleneck>)
    requires forall s <- states.order :: s in states.totals
    ensures r == Candidates(states.order, states.totals)
  {
    r := [];
    for i := 0 to |states.order|
      invariant r == Candidates(states.order[..i], states.totals)
    {
      var state := states.order[i];
      var data := states.totals[state];
      var avgTime := if data.count > 0 then data.totalHours / data.count as real else 0.0;
      assert states.order[..i + 1][..i] == states.order[..i];
      r := r + [Bottleneck(state, avgTime, data.count)];
    }
    assert states.order[..|states.order|] == states.order;
  }

  /** `sorted(..., reverse=True)[:5]` of the candidates: at most `n` of them, the
      longest average times first, and none left out that takes longer than one kept. */
  ghost predicate TopOf(top: seq<Bottleneck>, candidates: seq<Bottleneck>, n: nat) {
    && |top| == (if |candidates| < n then |candidates| else n)
    && Sorting.SortedDescending(top, AverageTime)
    && multiset(top) <= multiset(candidates)
    && forall b <- top, c: Bottleneck | c in multiset(candidates) - multiset(top) :: c.averageTimeHours <= b.averageTimeHours
  }

  method TopBottlenecks(candidates: seq<Bottleneck>) returns (top: seq<Bottleneck>)
    ensures TopOf(top, candidates, 5)
  {
    var sorted := Sorting.SortDescending(candidates, AverageTime);
    var n := if |sorted| < 5 then |sorted| else 5;
    top := sorted[..n];
    SortedPrefixIsTop(sorted, candidates, n);
  }

  /** The first `n` of a descending ordering of the candidates are their top `n`. */
  lemma SortedPrefixIsTop(sorted: seq<Bottleneck>, candidates: seq<Bottleneck>, n: nat)
    requires Sorting.SortedDescending(sorted, AverageTime)
    requires multiset(sorted) == multiset(candidates)
    requires n == if |sorted| < 5 then |sorted| else 5
    ensures TopOf(sorted[..n], candidates, 5)
  {
    var top, rest := sorted[..n], sorted[n..];
    assert sorted == top + rest;
    assert |candidates| == |sorted| by {
      assert |multiset(candidates)| == |multiset(sorted)|;
    }
    assert multiset(candidates) - multiset(top) == multiset(rest);
    PrefixSorted(sorted, n);
    PrefixDominates(sorted, n);
  }

  lemma PrefixSorted(sorted: seq<Bottleneck>, n: nat)
    requires Sorting.SortedDescending(sorted, AverageTime)
    requires n <= |sorted|
    ensures Sorting.SortedDescending(sorted[..n], AverageTime)
  {
    forall i, j | 0 <= i < j < n ensures AverageTime(sorted[..n][i]) >= AverageTime(sorted[..n][j]) {
      assert sorted[..n][i] == sorted[i] && sorted[..n][j] == sorted[j];
    }
  }

  /** Every candidate after position `n` takes no longer than any before it. */
  lemma PrefixDominates(sorted: seq<Bottleneck>, n: nat)
    requires Sorting.SortedDescending(sorted, AverageTime)
    requires n <= |sorted|
    ensures forall b <- sorted[..n], c: Bottleneck | c in multiset(sorted[n..]) :: c.averageTimeHours <= b.averageTimeHours
  {
    forall b <- sorted[..n], c: Bottleneck | c in multiset(sorted[n..]) ensures c.averageTimeHours <= b.averageTimeHours {
      var i :| 0 <= i < n && sorted[..n][i] == b;
      var j :| 0 <= j < |sorted| - n && sorted[n..][j] == c;
      assert AverageTime(sorted[i]) >= AverageTime(sorted[n + j]);
    }
  }

  // ---------------------------------------------------------------------------
  // The report
  // ---------------------------------------------------------------------------

  datatype OverallSummary = OverallSummary(
    totalWorkItems: int,
    totalDevelopers: int,
    averageFairEfficiency: real,
    averageDeliveryScore: real,
    totalActiveHours: real)

  datatype Report = Report(
    summary: OverallSummary,
    developerMetrics: map<Field, DeveloperMetrics>,
    bottlenecks: seq<Bottleneck>)

  /** The canned report for no items at all. */
  const EmptyReport: Report := Report(OverallSummary(0, 0, 0.0, 0.0, 0.0), map[], [])

  /** `developer_metrics[k]`. */
  function MetricsOf(items: seq<KpiItem>, counts: Option<map<Field, int>>, w: CalculatorConfig.Weights, k: Field)
    : DeveloperMetrics
  {
    DeveloperMetricsOf(ItemsOf(items, k), TotalAssigned(counts, k), w)
  }

  /** The three running totals of the developer loop. */
  datatype Totals = Totals(fair: real, delivery: real, active: real)

  /** One developer's line added to the running totals. */
  function Accumulate(t: Totals, m: DeveloperMetrics): Totals {
    Totals(t.fair + m.averageFairEfficiency, t.delivery + m.averageDeliveryScore, t.active + m.totalActiveHours)
  }

  function TotalsOver(items: seq<KpiItem>, counts: Option<map<Field, int>>, w: CalculatorConfig.Weights,
                      keys: seq<Field>): Totals
  {
    if keys == [] then Totals(0.0, 0.0, 0.0)
    else Accumulate(TotalsOver(items, counts, w, keys[..|keys| - 1]), MetricsOf(items, counts, w, keys[|keys| - 1]))
  }

  /** The same totals read off the finished `developer_metrics`, developer by developer. */
  function TotalsFrom(keys: seq<Field>, lines: map<Field, DeveloperMetrics>): Totals
    requires forall k <- keys :: k in lines
  {
    if keys == [] then Totals(0.0, 0.0, 0.0)
    else Accumulate(TotalsFrom(keys[..|keys| - 1], lines), lines[keys[|keys| - 1]])
  }

  lemma {:induction false} TotalsFromLines(items: seq<KpiItem>, counts: Option<map<Field, int>>,
                                           w: CalculatorConfig.Weights, keys: seq<Field>,
                                           lines: map<Field, DeveloperMetrics>)
    requires forall k <- keys :: k in lines
    requires LinesCover(lines, items, counts, w, keys)
    ensures TotalsFrom(keys, lines) == TotalsOver(items, counts, w, keys)
  {
    if keys != [] {
      var init := keys[..|keys| - 1];
      assert forall k <- init :: k in keys;
      TotalsFromLines(items, counts, w, init, lines);
    }
  }

  /** `overall_summary` for a non-empty list. */
  function SummaryOf(items: seq<KpiItem>, counts: Option<map<Field, int>>, w: CalculatorConfig.Weights)
    : OverallSummary
  {
    var keys := DistinctAssignees(items);
    var n := |keys|;
    var t := TotalsOver(items, counts, w, keys);
    OverallSummary(|items|, n, Mean(t.fair, n), Mean(t.delivery, n), t.active)
  }

  /** The state occurrences after visiting one developer's items. */
  method CollectStates(states: StateTally, items: seq<KpiItem>) returns (r: StateTally)
    ensures r == AddPairs(states, GroupPairs(items))
  {
    r := states;
    for i := 0 to |items|
      invariant r == AddPairs(states, GroupPairs(items[..i]))
    {
      assert items[..i + 1][..i] == items[..i];
      AddPairsAppend(states, GroupPairs(items[..i]), BreakdownOf(items[i]));
      r := CountBreakdown(r, BreakdownOf(items[i]));
    }
    assert items[..|items|] == items;
  }

  /** The scan over one item's `state_breakdown`. */
  method CountBreakdown(states: StateTally, breakdown: seq<(string, real)>) returns (r: StateTally)
    ensures r == AddPairs(states, breakdown)
  {
    r := states;
    for j := 0 to |breakdown|
      invariant r == AddPairs(states, breakdown[..j])
    {
      var (state, hours) := breakdown[j];
      var current := if state in r.totals then r.totals[state] else StateTotal(0, 0.0);
      var order := if state in r.totals then r.order else r.order + [state];
      assert breakdown[..j + 1][..j] == breakdown[..j];
      r := StateTally(order, r.totals[state := StateTotal(current.count + 1, current.totalHours + hours)]);
    }
    assert breakdown[..|breakdown|] == breakdown;
  }

  method CalculateComprehensiveKpi(items: seq<KpiItem>, counts: Option<map<Field, int>>, w: CalculatorConfig.Weights)
    returns (r: Completion<Report>)
    ensures r.AttributeErrorRaised? <==> NullStateIn(items)
    ensures r.Normal? && items == [] ==> r.value == EmptyReport
    ensures r.Normal? && items != [] ==> r.value.summary == SummaryOf(items, counts, w)
    ensures r.Normal? ==> LinesFor(r.value.developerMetrics, items, counts, w, DistinctAssignees(items))
    ensures forall s <- StatesOf(items).order :: s in StatesOf(items).totals
    ensures r.Normal? ==> TopOf(r.value.bottlenecks, Candidates(StatesOf(items).order, StatesOf(items).totals), 5)
  {
    AddPairsRecords(VisitedPairs(items, DistinctAssignees(items)));
    if items == [] {
      assert Candidates(StatesOf(items).order, StatesOf(items).totals) == [];
      return Normal(EmptyReport);
    }
    var keys, groups := GroupByAssignee(items);
    NullStateGrouped(items);
    var raised, metrics, states := VisitDevelopers(items, counts, w, keys, groups);
    if raised {
      return AttributeErrorRaised;
    }
    var totals := TotalsFrom(keys, metrics);
    TotalsFromLines(items, counts, w, keys, metrics);
    var candidates := CollectCandidates(states);
    var top := TopBottlenecks(candidates);
    var n := |keys|;
    var summary := OverallSummary(|items|, n,
                                  if n > 0 then totals.fair / n as real else 0.0,
                                  if n > 0 then totals.delivery / n as real else 0.0,
                                  totals.active);
    r := Normal(Report(summary, metrics, top));
  }

  /** An item with a `None` state is in the group of its assignee, and every grouped
      item is one of the items. */
  lemma NullStateGrouped(items: seq<KpiItem>)
    ensures NullStateIn(items) <==> NullGroupIn(items, DistinctAssignees(items))
  {
    var keys := DistinctAssignees(items);
    DistinctAssigneesExact(items);
    NullGroupExists(items, keys);
    if NullStateIn(items) {
      var j :| 0 <= j < |items| && items[j].state.Null?;
      var k := Assignee(items[j]);
      assert k in keys;
      var i :| 0 <= i < |keys| && keys[i] == k;
      ItemsOfMembers(items, k);
      var g := ItemsOf(items, k);
      assert items[j] in g;
      var m :| 0 <= m < |g| && g[m] == items[j];
      assert NullStateIn(ItemsOf(items, keys[i]));
    }
    if exists i :: 0 <= i < |keys| && NullStateIn(ItemsOf(items, keys[i])) {
      var i :| 0 <= i < |keys| && NullStateIn(ItemsOf(items, keys[i]));
      var g := ItemsOf(items, keys[i]);
      var m :| 0 <= m < |g| && g[m].state.Null?;
      ItemsOfMembers(items, keys[i]);
      assert g[m] in items;
      var j :| 0 <= j < |items| && items[j] == g[m];
    }
  }

  /** `metrics` holds exactly the lines of the developers `ks`. */
  ghost predicate LinesFor(metrics: map<Field, DeveloperMetrics>, items: seq<KpiItem>,
                           counts: Option<map<Field, int>>, w: CalculatorConfig.Weights, ks: seq<Field>)
  {
    && (forall k :: k in metrics <==> k in ks)
    && LinesCover(metrics, items, counts, w, ks)
  }

  /** `metrics` holds the lines of (at least) the developers `ks`. */
  ghost predicate LinesCover(metrics: map<Field, DeveloperMetrics>, items: seq<KpiItem>,
                             counts: Option<map<Field, int>>, w: CalculatorConfig.Weights, ks: seq<Field>)
  {
    forall k {:trigger metrics[k]} :: k in ks ==> k in metrics && metrics[k] == MetricsOf(items, counts, w, k)
  }

  lemma LinesStep(metrics: map<Field, DeveloperMetrics>, items: seq<KpiItem>,
                  counts: Option<map<Field, int>>, w: CalculatorConfig.Weights, ks: seq<Field>,
                  m: DeveloperMetrics, developer: Field)
    requires LinesFor(metrics, items, counts, w, ks)
    requires m == MetricsOf(items, counts, w, developer)
    ensures LinesFor(metrics[developer := m], items, counts, w, ks + [developer])
  {
    var next := metrics[developer := m];
    forall k ensures k in next <==> k in ks + [developer] {
      assert k in ks + [developer] <==> k in ks || k == developer;
    }
    forall k <- ks + [developer] ensures next[k] == MetricsOf(items, counts, w, k) {
      if k != developer {
        assert k in ks;
      }
    }
  }

  /** The state occurrences after one more developer: the pairs of its items continue
      those of the earlier developers. */
  lemma VisitedStatesStep(items: seq<KpiItem>, done: seq<Field>, developer: Field)
    ensures AddPairs(NoStates, VisitedPairs(items, done + [developer]))
         == AddPairs(AddPairs(NoStates, VisitedPairs(items, done)), GroupPairs(ItemsOf(items, developer)))
  {
    assert (done + [developer])[..|done|] == done;
    AddPairsAppend(NoStates, VisitedPairs(items, done), GroupPairs(ItemsOf(items, developer)));
  }

  /** One pass of the developer loop: the developer's line and the state occurrences
      of the developer's items. */
  method VisitDeveloper(items: seq<KpiItem>, counts: Option<map<Field, int>>, w: CalculatorConfig.Weights,
                        developer: Field, group: seq<KpiItem>, states: StateTally)
    returns (raised: bool, m: DeveloperMetrics, states': StateTally)
    requires group == ItemsOf(items, developer)
    ensures raised <==> NullStateIn(group)
    ensures !raised ==> m == MetricsOf(items, counts, w, developer)
    ensures !raised ==> states' == AddPairs(states, GroupPairs(group))
  {
    var totalAssigned := TotalAssigned(counts, developer);
    var line := CalculateDeveloperMetrics(group, totalAssigned, w);
    if line.AttributeErrorRaised? {
      return true, EmptyDeveloperMetrics(None), states;
    }
    raised, m := false, line.value;
    states' := CollectStates(states, group);
  }

  /** The loop over `developer_items`: each developer's line and the state occurrences
      of the developer's items. */
  method VisitDevelopers(items: seq<KpiItem>, counts: Option<map<Field, int>>, w: CalculatorConfig.Weights,
                         keys: seq<Field>, groups: map<Field, seq<KpiItem>>)
    returns (raised: bool, metrics: map<Field, DeveloperMetrics>, states: StateTally)
    requires forall k <- keys :: k in groups && groups[k] == ItemsOf(items, k)
    ensures raised <==> NullGroupIn(items, keys)
    ensures !raised ==> LinesFor(metrics, items, counts, w, keys)
    ensures !raised ==> states == AddPairs(NoStates, VisitedPairs(items, keys))
  {
    raised, metrics, states := false, map[], NoStates;
    for j := 0 to |keys|
      invariant VisitedState(items, counts, w, keys[..j], metrics, states)
    {
      var developer := keys[j];
      assert keys[..j] + [developer] == keys[..j + 1];
      var stop, metrics', states' := VisitNext(items, counts, w, keys[..j], metrics, states, developer, groups[developer]);
      if stop {
        NullGroupPrefix(items, keys[..j + 1], keys);
        return true, metrics, states;
      }
      metrics, states := metrics', states';
    }
    assert keys[..|keys|] == keys;
  }

  /** One pass of the developer loop, from the state after the developers `done`. */
  method VisitNext(items: seq<KpiItem>, counts: Option<map<Field, int>>, w: CalculatorConfig.Weights,
                   ghost done: seq<Field>, metrics: map<Field, DeveloperMetrics>, states: StateTally,
                   developer: Field, group: seq<KpiItem>)
    returns (raised: bool, metrics': map<Field, DeveloperMetrics>, states': StateTally)
    requires group == ItemsOf(items, developer)
    requires VisitedState(items, counts, w, done, metrics, states)
    ensures raised <==> NullGroupIn(items, done + [developer])
    ensures !raised ==> VisitedState(items, counts, w, done + [developer], metrics', states')
  {
    NullGroupStep(items, done, developer);
    var m;
    raised, m, states' := VisitDeveloper(items, counts, w, developer, group, states);
    metrics' := metrics[developer := m];
    if !raised {
      VisitStep(items, counts, w, done, metrics, states, developer, m, states');
    }
  }

  /** After visiting the developers `done`: no `None` state met, their lines, and the
      state occurrences of their items. */
  ghost predicate VisitedState(items: seq<KpiItem>, counts: Option<map<Field, int>>, w: CalculatorConfig.Weights,
                               done: seq<Field>, metrics: map<Field, DeveloperMetrics>, states: StateTally)
  {
    && !NullGroupIn(items, done)
    && LinesFor(metrics, items, counts, w, done)
    && states == AddPairs(NoStates, VisitedPairs(items, done))
  }

  lemma VisitStep(items: seq<KpiItem>, counts: Option<map<Field, int>>, w: CalculatorConfig.Weights,
                  done: seq<Field>, metrics: map<Field, DeveloperMetrics>, states: StateTally,
                  developer: Field, m: DeveloperMetrics, states': StateTally)
    requires VisitedState(items, counts, w, done, metrics, states)
    requires !NullStateIn(ItemsOf(items, developer))
    requires m == MetricsOf(items, counts, w, developer)
    requires states' == AddPairs(states, GroupPairs(ItemsOf(items, developer)))
    ensures VisitedState(items, counts, w, done + [developer], metrics[developer := m], states')
  {
    NullGroupStep(items, done, developer);
    LinesStep(metrics, items, counts, w, done, m, developer);
    VisitedStatesStep(items, done, developer);
  }

  /** Some group among those of `ks` holds an item with a `None` state. */
  predicate NullGroupIn(items: seq<KpiItem>, ks: seq<Field>) {
    ks != [] && (NullGroupIn(items, ks[..|ks| - 1]) || NullStateIn(ItemsOf(items, ks[|ks| - 1])))
  }

  lemma NullGroupStep(items: seq<KpiItem>, done: seq<Field>, developer: Field)
    ensures NullGroupIn(items, done + [developer]) <==> NullGroupIn(items, done) || NullStateIn(ItemsOf(items, developer))
  {
    assert (done + [developer])[..|done|] == done;
  }

  /** A `None` state among the first groups is one among all of them. */
  lemma {:induction false} NullGroupPrefix(items: seq<KpiItem>, done: seq<Field>, keys: seq<Field>)
    requires |done| <= |keys| && forall i :: 0 <= i < |done| ==> done[i] == keys[i]
    requires NullGroupIn(items, done)
    ensures NullGroupIn(items, keys)
    decreases |keys| - |done|
  {
    if |done| < |keys| {
      NullGroupStep(items, done, keys[|done|]);
      NullGroupPrefix(items, done + [keys[|done|]], keys);
    } else {
      assert done == keys;
    }
  }

  /** `NullGroupIn` says that some listed group has a `None` state. */
  lemma {:induction false} NullGroupExists(items: seq<KpiItem>, ks: seq<Field>)
    ensures NullGroupIn(items, ks) <==> exists i :: 0 <= i < |ks| && NullStateIn(ItemsOf(items, ks[i]))
  {
    if ks != [] {
      var init := ks[..|ks| - 1];
      NullGroupExists(items, init);
      if exists i :: 0 <= i < |init| && NullStateIn(ItemsOf(items, init[i])) {
        var i :| 0 <= i < |init| && NullStateIn(ItemsOf(items, init[i]));
        assert ks[i] == init[i];
      }
      if exists i :: 0 <= i < |ks| && NullStateIn(ItemsOf(items, ks[i])) {
        var i :| 0 <= i < |ks| && NullStateIn(ItemsOf(items, ks[i]));
        if i < |init| {
          assert init[i] == ks[i];
        }
      }
    }
  }

  // ---------------------------------------------------------------------------
  // Properties of the report
  // ---------------------------------------------------------------------------

  /** A non-empty list has between one developer and one developer per item. */
  lemma SummaryCounts(items: seq<KpiItem>, counts: Option<map<Field, int>>, w: CalculatorConfig.Weights)
    requires items != []
    ensures SummaryOf(items, counts, w).totalWorkItems == |items|
    ensures 1 <= SummaryOf(items, counts, w).totalDevelopers <= |items|
  {
    DistinctAssigneesExact(items);
    assert Assignee(items[0]) in DistinctAssignees(items);
  }

  lemma KeysDistinct(items: seq<KpiItem>)
    ensures NoDuplicates(DistinctAssignees(items))
  {
    DistinctAssigneesExact(items);
  }

  /** The pairs of one more item land in the group of its assignee, when that key is
      listed, and nowhere else. */
  lemma {:induction false} VisitedPairsAppend(items: seq<KpiItem>, x: KpiItem, keys: seq<Field>)
    requires NoDuplicates(keys)
    ensures multiset(VisitedPairs(items + [x], keys))
         == multiset(VisitedPairs(items, keys)) + (if Assignee(x) in keys then multiset(BreakdownOf(x)) else multiset{})
  {
    if keys != [] {
      var init, k := keys[..|keys| - 1], keys[|keys| - 1];
      NoDuplicatesInit(keys);
      VisitedPairsAppend(items, x, init);
      assert (items + [x])[..|items + [x]| - 1] == items;
      var group := ItemsOf(items, k);
      if Assignee(x) == k {
        assert ItemsOf(items + [x], k) == group + [x];
        assert (group + [x])[..|group + [x]| - 1] == group;
        assert GroupPairs(group + [x]) == GroupPairs(group) + BreakdownOf(x);
      } else {
        assert ItemsOf(items + [x], k) == group + [];
        assert group + [] == group;
      }
      assert Assignee(x) in keys <==> Assignee(x) in init || Assignee(x) == k;
    }
  }

  /** Visiting the developers one after the other meets every `(state, hours)` pair of
      every item exactly once. */
  lemma {:induction false} VisitedPairsArePairs(items: seq<KpiItem>)
    ensures multiset(VisitedPairs(items, DistinctAssignees(items))) == multiset(GroupPairs(items))
  {
    if items != [] {
      var prefix, x := items[..|items| - 1], items[|items| - 1];
      var keys, all := DistinctAssignees(prefix), DistinctAssignees(items);
      assert prefix + [x] == items;
      VisitedPairsArePairs(prefix);
      KeysDistinct(items);
      VisitedPairsAppend(prefix, x, all);
      assert Assignee(x) in all;
      if Assignee(x) !in keys {
        VisitedPairsNewKey(prefix, keys, Assignee(x));
      }
      assert multiset(VisitedPairs(prefix, all)) == multiset(GroupPairs(prefix));
      assert GroupPairs(items) == GroupPairs(prefix) + BreakdownOf(x);
    }
  }

  /** The empty group of a new key adds no pairs. */
  lemma VisitedPairsNewKey(items: seq<KpiItem>, keys: seq<Field>, k: Field)
    requires k !in DistinctAssignees(items)
    ensures VisitedPairs(items, keys + [k]) == VisitedPairs(items, keys)
  {
    ItemsOfAbsent(items, k);
    assert (keys + [k])[..|keys + [k]| - 1] == keys;
    assert VisitedPairs(items, keys) + [] == VisitedPairs(items, keys);
  }

  lemma {:induction false} OccurrencesPositive(ps: seq<(string, real)>, state: string)
    ensures Occurrences(ps, state) > 0 <==> exists p <- ps :: p.0 == state
  {
    if ps != [] {
      var init := ps[..|ps| - 1];
      OccurrencesPositive(init, state);
      assert ps == init + [ps[|ps| - 1]];
    }
  }

  /** `all_state_occurrences` holds exactly the states some item's breakdown names. */
  lemma StatesAreTheItemsStates(items: seq<KpiItem>)
    ensures forall s :: s in StatesOf(items).totals <==> exists p <- GroupPairs(items) :: p.0 == s
  {
    var ps := VisitedPairs(items, DistinctAssignees(items));
    AddPairsRecords(ps);
    VisitedPairsArePairs(items);
    forall s ensures s in StatesOf(items).totals <==> exists p <- GroupPairs(items) :: p.0 == s {
      OccurrencesPositive(ps, s);
      assert forall p :: p in ps <==> p in GroupPairs(items) by {
        forall p ensures p in ps <==> p in GroupPairs(items) {
          assert p in ps <==> p in multiset(ps);
          assert p in GroupPairs(items) <==> p in multiset(GroupPairs(items));
        }
      }
    }
  }

  /** Each candidate names a state that occurred, once per state, with its number of
      occurrences and their mean time. */
  lemma CandidateLines(items: seq<KpiItem>)
    ensures forall s <- StatesOf(items).order :: s in StatesOf(items).totals
    ensures NoDuplicates(StatesOf(items).order)
    ensures |Candidates(StatesOf(items).order, StatesOf(items).totals)| == |StatesOf(items).order|
    ensures forall b <- Candidates(StatesOf(items).order, StatesOf(items).totals) ::
              OccurredWith(b, VisitedPairs(items, DistinctAssignees(items)))
  {
    var ps := VisitedPairs(items, DistinctAssignees(items));
    AddPairsRecords(ps);
    RecordedCandidates(StatesOf(items), ps);
  }

  /** `b` reports a state among `ps`, how often it occurs there and the mean of its hours. */
  ghost predicate OccurredWith(b: Bottleneck, ps: seq<(string, real)>) {
    && b.occurrences == Occurrences(ps, b.state) > 0
    && b.averageTimeHours * b.occurrences as real == HoursIn(ps, b.state)
  }

  lemma RecordedCandidates(t: StateTally, ps: seq<(string, real)>)
    requires Records(t, ps)
    ensures forall s <- t.order :: s in t.totals
    ensures |Candidates(t.order, t.totals)| == |t.order|
    ensures forall b <- Candidates(t.order, t.totals) :: OccurredWith(b, ps)
  {
    assert forall s <- t.order :: s in t.totals && Occurrences(ps, s) > 0;
    CandidatesReport(t.order, t.totals, ps);
    var cs := Candidates(t.order, t.totals);
    forall b <- cs ensures OccurredWith(b, ps) {
      var i :| 0 <= i < |cs| && cs[i] == b;
      assert t.order[i] in t.order;
      CandidateOccurred(b, t.order[i], ps);
    }
  }

  /** The line built for a state that occurred reports it with its mean time. */
  lemma CandidateOccurred(b: Bottleneck, state: string, ps: seq<(string, real)>)
    requires Occurrences(ps, state) > 0
    requires b == Bottleneck(state, Mean(HoursIn(ps, state), Occurrences(ps, state)), Occurrences(ps, state))
    ensures OccurredWith(b, ps)
  {
    MeanTimesCount(HoursIn(ps, state), Occurrences(ps, state));
  }

  /** The fair-efficiency totals of the developers `keys` are bounded by one cap each. */
  lemma {:induction false} TotalsFairBounded(items: seq<KpiItem>, counts: Option<map<Field, int>>,
                                             w: CalculatorConfig.Weights, keys: seq<Field>, cap: real)
    requires cap >= 0.0 && FairWithinCap(items, cap)
    ensures 0.0 <= TotalsOver(items, counts, w, keys).fair <= Repeated(|keys|, cap)
  {
    if keys != [] {
      var k := keys[|keys| - 1];
      TotalsFairBounded(items, counts, w, keys[..|keys| - 1], cap);
      ItemsOfMembers(items, k);
      AverageFairWithinCap(ItemsOf(items, k), TotalAssigned(counts, k), w, cap);
    }
  }

  /** When every item's fair efficiency lies within `[0, cap]`, so does the overall
      average over the developers. */
  lemma SummaryFairWithinCap(items: seq<KpiItem>, counts: Option<map<Field, int>>,
                             w: CalculatorConfig.Weights, cap: real)
    requires cap >= 0.0 && FairWithinCap(items, cap)
    ensures 0.0 <= SummaryOf(items, counts, w).averageFairEfficiency <= cap
  {
    var keys := DistinctAssignees(items);
    TotalsFairBounded(items, counts, w, keys, cap);
    MeanWithinCap(TotalsOver(items, counts, w, keys).fair, |keys|, cap);
  }

  lemma MeanWithinCap(total: real, n: int, cap: real)
    requires cap >= 0.0 && 0.0 <= total <= Repeated(n, cap)
    ensures 0.0 <= Mean(total, n) <= cap
  {
    if n > 0 {
      RepeatedIsProduct(n, cap);
      MeanScaledWithin(total, n, cap, 1.0);
    }
  }
}
