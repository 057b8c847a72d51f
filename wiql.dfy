/** `build_wiql_query`: the WIQL text for a set of filters, and the two readers of a
    WIQL response, `_has_expanded_data` and `_extract_ids_from_expanded_response`. */
module Wiql {
  import opened Wrappers
  import Text

  /** The arguments of `build_wiql_query`. A list that is `None` is the empty list and a
      date that is `None` is "", since both are only ever tested for truth. The
      `additional_filters` dictionary is its list of items, in insertion order. */
  datatype QueryParams = QueryParams(
    assignedTo: seq<string>,
    workItemTypes: seq<string>,
    states: seq<string>,
    startDate: string,
    endDate: string,
    dateField: string,
    additionalFilters: seq<(string, string)>)

  const Header: string :=
    "SELECT [System.Id], [System.Title], [System.AssignedTo], [System.State],\n                   [System.WorkItemType], [System.CreatedDate], [System.ChangedDate],\n                   [Microsoft.VSTS.Scheduling.StartDate], \n                   [Microsoft.VSTS.Scheduling.TargetDate],\n                   [Microsoft.VSTS.Common.ClosedDate],\n                   [System.AreaPath], [System.IterationPath]\n                   FROM WorkItems WHERE "

  const OrderBy: string := " ORDER BY [System.Id]"
  const StateField: string := "[System.State]"
  const ClosedStates: seq<string> := ["Closed", "Done"]

  /** The first and last lines of a multi-line date filter. */
  const FilterOpen: string := "(\n                        "
  const FilterBreak: string := " OR\n                        "
  const FilterClose: string := "\n                    )"

  predicate HasDates(p: QueryParams) {
    p.startDate != "" || p.endDate != ""
  }

  /** `f"{field} IN ('{"', '".join(values)}')"`. */
  function InList(field: string, values: seq<string>): string {
    field + " IN ('" + Text.Join(values, "', '") + "')"
  }

  /** The range filter on the start and target dates, for whichever bounds are given. */
  function DateFilterParts(start: string, end: string): seq<string> {
    if start != "" && end != "" then
      [FilterOpen
       + "([Microsoft.VSTS.Scheduling.StartDate] >= '" + start + "' AND [Microsoft.VSTS.Scheduling.StartDate] <= '" + end + "')"
       + FilterBreak
       + "([Microsoft.VSTS.Scheduling.TargetDate] >= '" + start + "' AND [Microsoft.VSTS.Scheduling.TargetDate] <= '" + end + "')"
       + FilterClose]
    else if start != "" then
      [FilterOpen + "[Microsoft.VSTS.Scheduling.StartDate] >= '" + start + "'" + FilterBreak
       + "[Microsoft.VSTS.Scheduling.TargetDate] >= '" + start + "'" + FilterClose]
    else if end != "" then
      [FilterOpen + "[Microsoft.VSTS.Scheduling.StartDate] <= '" + end + "'" + FilterBreak
       + "[Microsoft.VSTS.Scheduling.TargetDate] <= '" + end + "'" + FilterClose]
    else []
  }

  /** Priority 1: the requested states, together with the date range. */
  function TargetCondition(p: QueryParams): seq<string> {
    if p.states == [] then []
    else
      var parts := [InList(StateField, p.states)] + DateFilterParts(p.startDate, p.endDate);
      if |parts| > 1 then ["(" + Text.Join(parts, " AND ") + ")"] else []
  }

  predicate AsksForClosed(p: QueryParams) {
    exists s <- p.states :: s in ClosedStates
  }

  /** Priority 2: closed items without a target date, by their closed date. */
  function ClosedCondition(p: QueryParams): seq<string> {
    if AsksForClosed(p) && p.dateField == "ClosedDate" then
      var parts := ClosedParts(p);
      if |parts| > 1 then ["(" + Text.Join(parts, " AND ") + ")"] else []
    else []
  }

  function DateConditions(p: QueryParams): seq<string> {
    TargetCondition(p) + ClosedCondition(p)
  }

  /** `[c for c in conditions if not c.startswith('[System.State]')]`. */
  function WithoutStates(cs: seq<string>): (r: seq<string>)
    ensures forall c <- r :: c in cs && !Text.StartsWith(c, StateField)
    ensures forall c <- cs :: !Text.StartsWith(c, StateField) ==> c in r
  {
    if cs == [] then []
    else WithoutStates(cs[..|cs| - 1]) + (if Text.StartsWith(cs[|cs| - 1], StateField) then [] else [cs[|cs| - 1]])
  }

  /** The type, assignee and state conditions, in that order. */
  function ListConditions(p: QueryParams): seq<string> {
    (if p.workItemTypes != [] then [InList("[System.WorkItemType]", p.workItemTypes)] else [])
    + (if p.assignedTo != [] then [InList("[System.AssignedTo]", p.assignedTo)] else [])
    + (if p.states != [] && !HasDates(p) then [InList(StateField, p.states)] else [])
  }

  /** The conditions before the additional filters. */
  function BaseConditions(p: QueryParams): seq<string> {
    var cs := ListConditions(p);
    if HasDates(p) && DateConditions(p) != [] then
      WithoutStates(cs) + ["(" + Text.Join(DateConditions(p), " OR ") + ")"]
    else cs
  }

  function FilterCondition(field: string, value: string): string {
    if field == "area_path" then "[System.AreaPath] UNDER '" + value + "'"
    else if field == "iteration_path" then "[System.IterationPath] UNDER '" + value + "'"
    else "[" + field + "] = '" + value + "'"
  }

  function FilterConditions(filters: seq<(string, string)>): seq<string> {
    if filters == [] then []
    else FilterConditions(filters[..|filters| - 1]) + [FilterCondition(filters[|filters| - 1].0, filters[|filters| - 1].1)]
  }

  function Conditions(p: QueryParams): seq<string> {
    BaseConditions(p) + FilterConditions(p.additionalFilters)
  }

  /** The query text `build_wiql_query` returns. */
  function Query(p: QueryParams): string {
    var cs := Conditions(p);
    Header + Text.Join(if cs == [] then ["1=1"] else cs, " AND ") + OrderBy
  }

  method BuildWiqlQuery(p: QueryParams) returns (query: string)
    ensures query == Query(p)
  {
    query := Header;
    var conditions := CollectListConditions(p);
    if p.startDate != "" || p.endDate != "" {
      var dateConditions := CollectDateConditions(p);
      if dateConditions != [] {
        conditions := WithoutStates(conditions);
        conditions := conditions + ["(" + Text.Join(dateConditions, " OR ") + ")"];
      }
    }
    conditions := AddFilterConditions(conditions, p.additionalFilters);
    if conditions == [] {
      conditions := conditions + ["1=1"];
    }
    query := query + Text.Join(conditions, " AND ");
    query := query + OrderBy;
  }

  /** The type, assignee and state filters. */
  method CollectListConditions(p: QueryParams) returns (conditions: seq<string>)
    ensures conditions == ListConditions(p)
  {
    conditions := [];
    if p.workItemTypes != [] {
      conditions := conditions + [InList("[System.WorkItemType]", p.workItemTypes)];
    }
    if p.assignedTo != [] {
      conditions := conditions + [InList("[System.AssignedTo]", p.assignedTo)];
    }
    if p.states != [] && !(p.startDate != "" || p.endDate != "") {
      conditions := conditions + [InList(StateField, p.states)];
    }
  }

  /** `date_conditions`: the target-date branch, then the closed-date fallback. */
  method CollectDateConditions(p: QueryParams) returns (dateConditions: seq<string>)
    ensures dateConditions == DateConditions(p)
  {
    dateConditions := CollectTargetCondition(p);
    if (exists s <- p.states :: s in ClosedStates) && p.dateField == "ClosedDate" {
      var closed := CollectClosedParts(p);
      if |closed| > 1 {
        dateConditions := dateConditions + ["(" + Text.Join(closed, " AND ") + ")"];
      }
    }
  }

  method CollectTargetCondition(p: QueryParams) returns (dateConditions: seq<string>)
    ensures dateConditions == TargetCondition(p)
  {
    dateConditions := [];
    if p.states != [] {
      var targetParts := [InList(StateField, p.states)];
      var dateFilterParts := DateFilterParts(p.startDate, p.endDate);
      if dateFilterParts != [] {
        targetParts := targetParts + dateFilterParts;
      }
      if |targetParts| > 1 {
        dateConditions := dateConditions + ["(" + Text.Join(targetParts, " AND ") + ")"];
      }
    }
  }

  /** The parts of the closed-date fallback. */
  function ClosedParts(p: QueryParams): seq<string> {
    [InList(StateField, ClosedStates), "[Microsoft.VSTS.Scheduling.TargetDate] = ''"]
    + (if p.startDate != "" then ["[Microsoft.VSTS.Common.ClosedDate] >= '" + p.startDate + "'"] else [])
    + (if p.endDate != "" then ["[Microsoft.VSTS.Common.ClosedDate] <= '" + p.endDate + "'"] else [])
  }

  method CollectClosedParts(p: QueryParams) returns (closedParts: seq<string>)
    ensures closedParts == ClosedParts(p)
  {
    closedParts := [InList(StateField, ClosedStates)];
    closedParts := closedParts + ["[Microsoft.VSTS.Scheduling.TargetDate] = ''"];
    if p.startDate != "" {
      closedParts := closedParts + ["[Microsoft.VSTS.Common.ClosedDate] >= '" + p.startDate + "'"];
    }
    if p.endDate != "" {
      closedParts := closedParts + ["[Microsoft.VSTS.Common.ClosedDate] <= '" + p.endDate + "'"];
    }
  }

  /** The loop over `additional_filters`. */
  method AddFilterConditions(conditions: seq<string>, filters: seq<(string, string)>) returns (r: seq<string>)
    ensures r == conditions + FilterConditions(filters)
  {
    r := conditions;
    for i := 0 to |filters|
      invariant r == conditions + FilterConditions(filters[..i])
    {
      var (field, value) := filters[i];
      assert filters[..i + 1][..i] == filters[..i];
      if field == "area_path" {
        r := r + ["[System.AreaPath] UNDER '" + value + "'"];
      } else if field == "iteration_path" {
        r := r + ["[System.IterationPath] UNDER '" + value + "'"];
      } else {
        r := r + ["[" + field + "] = '" + value + "'"];
      }
    }
    assert filters[..|filters|] == filters;
  }

  // ---------------------------------------------------------------------------
  // Properties of the query
  // ---------------------------------------------------------------------------

  /** Every query starts with the fixed column list and ends by ordering on the id. */
  lemma QueryFrame(p: QueryParams)
    ensures Text.StartsWith(Query(p), Header)
    ensures Text.EndsWith(Query(p), OrderBy)
  {
    var cs := Conditions(p);
    Framed(Header, Text.Join(if cs == [] then ["1=1"] else cs, " AND "), OrderBy);
  }

  lemma Framed(a: string, b: string, c: string)
    ensures Text.StartsWith(a + b + c, a) && Text.EndsWith(a + b + c, c)
  {
    assert (a + b + c)[..|a|] == a;
    assert (a + b + c)[|a + b + c| - |c|..] == c;
  }

  lemma {:induction false} FilterConditionsLength(filters: seq<(string, string)>)
    ensures |FilterConditions(filters)| == |filters|
  {
    if filters != [] {
      FilterConditionsLength(filters[..|filters| - 1]);
    }
  }

  /** There are no conditions exactly when no list filters and no additional filters
      are given, and the query then selects everything with "1=1". */
  lemma NoConditionsIff(p: QueryParams)
    ensures Conditions(p) == [] <==>
      p.workItemTypes == [] && p.assignedTo == [] && p.states == [] && p.additionalFilters == []
  {
    FilterConditionsLength(p.additionalFilters);
    if p.states != [] && HasDates(p) {
      TargetConditionWithDates(p);
    }
  }

  lemma TargetConditionWithDates(p: QueryParams)
    requires HasDates(p) && p.states != []
    ensures |TargetCondition(p)| == 1
  {
    assert |DateFilterParts(p.startDate, p.endDate)| == 1;
  }

  lemma DefaultCondition(p: QueryParams)
    requires Conditions(p) == []
    ensures Query(p) == Header + "1=1" + OrderBy
  {
  }

  /** Each additional filter gives one condition, after the others and in order. */
  lemma AdditionalFiltersLast(p: QueryParams)
    ensures |Conditions(p)| == |BaseConditions(p)| + |p.additionalFilters|
    ensures forall i :: 0 <= i < |p.additionalFilters| ==>
      Conditions(p)[|BaseConditions(p)| + i] == FilterCondition(p.additionalFilters[i].0, p.additionalFilters[i].1)
  {
    FilterConditionsInOrder(p.additionalFilters);
  }

  lemma {:induction false} FilterConditionsInOrder(filters: seq<(string, string)>)
    ensures |FilterConditions(filters)| == |filters|
    ensures forall i :: 0 <= i < |filters| ==> FilterConditions(filters)[i] == FilterCondition(filters[i].0, filters[i].1)
  {
    if filters != [] {
      var init := filters[..|filters| - 1];
      FilterConditionsInOrder(init);
      assert forall i :: 0 <= i < |init| ==> init[i] == filters[i];
    }
  }

  lemma NotAStateCondition(field: string, values: seq<string>)
    requires field == "[System.WorkItemType]" || field == "[System.AssignedTo]"
    ensures !Text.StartsWith(InList(field, values), StateField)
  {
    assert InList(field, values)[8] == field[8];
  }

  /** With a start or an end date, the requested states only appear inside the date
      disjunction: no condition before the additional filters starts with
      `[System.State]`. */
  lemma DatesHideStateFilter(p: QueryParams)
    requires HasDates(p)
    ensures forall c <- BaseConditions(p) :: !Text.StartsWith(c, StateField)
  {
    NotAStateCondition("[System.WorkItemType]", p.workItemTypes);
    NotAStateCondition("[System.AssignedTo]", p.assignedTo);
    if DateConditions(p) != [] {
      ParenthesizedIsNotState(Text.Join(DateConditions(p), " OR "));
    }
  }

  lemma ParenthesizedIsNotState(s: string)
    ensures !Text.StartsWith("(" + s + ")", StateField)
  {
    assert ("(" + s + ")")[0] == '(';
  }

  /** Without dates, the requested states are an ordinary condition and no date
      disjunction is added. */
  lemma NoDatesKeepsStateFilter(p: QueryParams)
    requires !HasDates(p) && p.states != []
    ensures InList(StateField, p.states) in BaseConditions(p)
    ensures BaseConditions(p) == ListConditions(p)
  {
  }

  /** With dates and states, the last base condition is the date disjunction, and it
      has a second branch exactly when closed items are asked for by closed date. */
  lemma DatesWithStates(p: QueryParams)
    requires HasDates(p) && p.states != []
    ensures |DateConditions(p)| == (if AsksForClosed(p) && p.dateField == "ClosedDate" then 2 else 1)
    ensures BaseConditions(p)[|BaseConditions(p)| - 1] == "(" + Text.Join(DateConditions(p), " OR ") + ")"
  {
    TargetConditionWithDates(p);
    assert |ClosedParts(p)| >= 2;
  }

  /** Dates without states add no condition at all. */
  lemma DatesWithoutStates(p: QueryParams)
    requires HasDates(p) && p.states == []
    ensures DateConditions(p) == []
    ensures BaseConditions(p) == ListConditions(p)
  {
  }

  // ---------------------------------------------------------------------------
  // Reading a WIQL response
  // ---------------------------------------------------------------------------

  /** One entry of `workItems`: its keys and its `id`, `None` when absent or null. */
  datatype Entry = Entry(keys: set<string>, id: Option<int>)

  /** A WIQL response; an absent `workItems` key reads as the empty list. */
  datatype Response = Response(workItems: seq<Entry>)

  const ExpandedIndicators: seq<string> := ["revisions", "fields", "relations", "_links"]

  /** `_has_expanded_data`: whether the first work item carries any expanded key. */
  function HasExpandedData(r: Response): (b: bool)
    ensures b <==> |r.workItems| > 0 && exists k <- ExpandedIndicators :: k in r.workItems[0].keys
  {
    if r.workItems == [] then false
    else
      var sample := r.workItems[0];
      "revisions" in sample.keys || "fields" in sample.keys || "relations" in sample.keys || "_links" in sample.keys
  }

  function TruthyId(e: Entry): bool {
    e.id.Some? && e.id.value != 0
  }

  /** `_extract_ids_from_expanded_response`: the truthy ids, in order. */
  function ExtractIds(entries: seq<Entry>): (ids: seq<int>)
    ensures |ids| <= |entries|
    ensures forall x <- ids :: x != 0
    ensures forall x :: x in ids <==> exists e <- entries :: TruthyId(e) && e.id.value == x
  {
    if entries == [] then []
    else
      var init, last := entries[..|entries| - 1], entries[|entries| - 1];
      assert forall e :: e in entries <==> e in init || e == last;
      ExtractIds(init) + (if TruthyId(last) then [last.id.value] else [])
  }

  function ExtractIdsFrom(r: Response): seq<int> {
    ExtractIds(r.workItems)
  }

  /** Entries without a truthy id leave the ids unchanged; the others add theirs last. */
  lemma ExtractIdsAppend(entries: seq<Entry>, e: Entry)
    ensures ExtractIds(entries + [e]) == ExtractIds(entries) + (if TruthyId(e) then [e.id.value] else [])
  {
    assert (entries + [e])[..|entries + [e]| - 1] == entries;
  }
}
