/** `_process_logic_app_work_items`: the rows of the Logic App result set turned into
    work items, keeping the first row of each (work item id, assignee) pair. */
module LogicAppIntake {
  import opened Wrappers
  import Text

  /** One row of `ResultSets.Table1`. `workItemId` is `None` when the key is absent or
      null. For `AssignedToUser`, `Title` and `Project_Name`, `None` is a JSON null and
      an absent key reads as `Some("")`. */
  datatype RawRow = RawRow(
    workItemId: Option<int>,
    assignedToUser: Option<string>,
    title: Option<string>,
    startDate: Option<string>,
    targetDate: Option<string>,
    originalEstimate: Option<real>,
    projectName: Option<string>)

  /** The standardized work item. Its `revisions` list is always empty and its `state`
      and `work_item_type` always `None`, so they are not fields here. */
  datatype WorkItem = WorkItem(
    id: int,
    title: Option<string>,
    assignedTo: string,
    startDate: Option<string>,
    targetDate: Option<string>,
    originalEstimate: Option<real>,
    fabricEnriched: bool,
    projectId: Option<string>,
    projectName: Option<string>)

  /** `not work_item_id or not assigned_to` is false: the id is present and non-zero and
      the stripped assignee is not empty. */
  predicate Eligible(row: RawRow) {
    && row.workItemId.Some? && row.workItemId.value != 0
    && row.assignedToUser.Some? && Text.Strip(row.assignedToUser.value) != ""
  }

  /** The deduplication key `(work_item_id, assigned_to)`. */
  function Key(row: RawRow): (int, string)
    requires row.workItemId.Some? && row.assignedToUser.Some?
  {
    (row.workItemId.value, Text.Strip(row.assignedToUser.value))
  }

  function KeyOfItem(item: WorkItem): (int, string) {
    (item.id, item.assignedTo)
  }

  /** `project_name if project_name else None`. */
  function NonEmpty(s: string): Option<string> {
    if s != "" then Some(s) else None
  }

  /** The standardized format of an eligible row. A null `Project_Name` is where the
      source raises instead (see `RowRaises`); it reads as "" here. */
  function Convert(row: RawRow): (item: WorkItem)
    requires Eligible(row)
    ensures KeyOfItem(item) == Key(row)
    ensures item.id != 0 && item.assignedTo != ""
    ensures item.fabricEnriched && item.projectId == item.projectName
    ensures item.projectName.None? <==> Text.Strip(row.projectName.GetOr("")) == ""
  {
    var project := Text.Strip(row.projectName.GetOr(""));
    WorkItem(row.workItemId.value, row.title, Text.Strip(row.assignedToUser.value), row.startDate, row.targetDate,
             row.originalEstimate, true, NonEmpty(project), NonEmpty(project))
  }

  /** The keys of the eligible rows: `seen_keys` once the rows have been read. */
  function SeenKeys(rows: seq<RawRow>): set<(int, string)> {
    if rows == [] then {}
    else
      var last := rows[|rows| - 1];
      SeenKeys(rows[..|rows| - 1]) + (if Eligible(last) then {Key(last)} else {})
  }

  /** What the function returns: each eligible row whose key no earlier eligible row
      had, converted, in input order. */
  function Kept(rows: seq<RawRow>): seq<WorkItem> {
    if rows == [] then []
    else
      var init, last := rows[..|rows| - 1], rows[|rows| - 1];
      Kept(init) + (if Eligible(last) && Key(last) !in SeenKeys(init) then [Convert(last)] else [])
  }

  /** `strip()` meets `None` at the last row: its `AssignedToUser` is null, or it is a
      first row for its key and its `Project_Name` is null. */
  predicate RowRaises(init: seq<RawRow>, last: RawRow) {
    || last.assignedToUser.None?
    || (Eligible(last) && Key(last) !in SeenKeys(init) && last.projectName.None?)
  }

  /** The loop raises `AttributeError` at some row. */
  predicate Raises(rows: seq<RawRow>) {
    if rows == [] then false
    else
      var init, last := rows[..|rows| - 1], rows[|rows| - 1];
      Raises(init) || RowRaises(init, last)
  }

  method ProcessLogicAppWorkItems(rows: seq<RawRow>) returns (r: Completion<seq<WorkItem>>)
    ensures r.AttributeErrorRaised? <==> Raises(rows)
    ensures r.Normal? ==> r.value == Kept(rows)
  {
    var seenKeys: set<(int, string)> := {};
    var items := [];
    for i := 0 to |rows|
      invariant seenKeys == SeenKeys(rows[..i])
      invariant items == Kept(rows[..i])
      invariant !Raises(rows[..i])
    {
      var row := rows[i];
      assert rows[..i + 1][..i] == rows[..i];
      if row.assignedToUser.None? {
        RaisesPrefix(rows, i + 1);
        return AttributeErrorRaised;
      }
      var assignedTo := Text.Strip(row.assignedToUser.value);
      if row.workItemId.None? || row.workItemId.value == 0 || assignedTo == "" {
        continue;
      }
      var key := (row.workItemId.value, assignedTo);
      if key in seenKeys {
        continue;
      }
      seenKeys := seenKeys + {key};
      if row.projectName.None? {
        RaisesPrefix(rows, i + 1);
        return AttributeErrorRaised;
      }
      var projectName := Text.Strip(row.projectName.value);
      var item := WorkItem(row.workItemId.value, row.title, assignedTo, row.startDate, row.targetDate,
                           row.originalEstimate, true,
                           if projectName != "" then Some(projectName) else None,
                           if projectName != "" then Some(projectName) else None);
      items := items + [item];
    }
    assert rows[..|rows|] == rows;
    r := Normal(items);
  }

  // ---------------------------------------------------------------------------
  // Properties
  // ---------------------------------------------------------------------------

  predicate DistinctKeys(items: seq<WorkItem>) {
    forall i, j :: 0 <= i < j < |items| ==> KeyOfItem(items[i]) != KeyOfItem(items[j])
  }

  /** `seen_keys` is exactly the set of keys of the kept items, and no key is kept twice. */
  lemma {:induction false} KeptKeys(rows: seq<RawRow>)
    ensures forall key :: key in SeenKeys(rows) <==> exists item <- Kept(rows) :: KeyOfItem(item) == key
    ensures DistinctKeys(Kept(rows))
    ensures |Kept(rows)| <= |rows|
  {
    if rows != [] {
      var init, last := rows[..|rows| - 1], rows[|rows| - 1];
      KeptKeys(init);
      var before := Kept(init);
      if Eligible(last) && Key(last) !in SeenKeys(init) {
        var item := Convert(last);
        assert Kept(rows) == before + [item];
        forall i | 0 <= i < |before| ensures KeyOfItem(before[i]) != KeyOfItem(item) {
          assert before[i] in before;
        }
      }
    }
  }

  /** An eligible row with no earlier eligible row of the same key. */
  ghost predicate IsFirst(rows: seq<RawRow>, i: int) {
    && 0 <= i < |rows|
    && Eligible(rows[i])
    && forall j :: 0 <= j < i && Eligible(rows[j]) ==> Key(rows[j]) != Key(rows[i])
  }

  lemma {:induction false} SeenKeysExact(rows: seq<RawRow>)
    ensures forall key :: key in SeenKeys(rows) <==> exists i :: 0 <= i < |rows| && Eligible(rows[i]) && Key(rows[i]) == key
  {
    if rows != [] {
      var init := rows[..|rows| - 1];
      SeenKeysExact(init);
      forall key ensures key in SeenKeys(rows) ==> exists i :: 0 <= i < |rows| && Eligible(rows[i]) && Key(rows[i]) == key {
        if key in SeenKeys(init) {
          var i :| 0 <= i < |init| && Eligible(init[i]) && Key(init[i]) == key;
          assert rows[i] == init[i];
        }
      }
      forall i | 0 <= i < |rows| && Eligible(rows[i]) ensures Key(rows[i]) in SeenKeys(rows) {
        if i < |init| {
          assert rows[i] == init[i];
        }
      }
    }
  }

  /** A first row of a prefix stays a first row of the whole, and a first row of the
      whole before the last row is a first row of the prefix. */
  lemma FirstInPrefix(rows: seq<RawRow>, i: int)
    requires rows != [] && 0 <= i < |rows| - 1
    ensures IsFirst(rows[..|rows| - 1], i) <==> IsFirst(rows, i)
  {
    var init := rows[..|rows| - 1];
    assert forall j :: 0 <= j <= i ==> rows[j] == init[j];
  }

  /** The last row is a first row exactly when it is eligible and its key was not seen. */
  lemma LastIsFirst(rows: seq<RawRow>)
    requires rows != []
    ensures var init, last := rows[..|rows| - 1], rows[|rows| - 1];
      IsFirst(rows, |rows| - 1) <==> Eligible(last) && Key(last) !in SeenKeys(init)
  {
    var init := rows[..|rows| - 1];
    SeenKeysExact(init);
    assert forall j :: 0 <= j < |init| ==> rows[j] == init[j];
  }

  /** Every kept item is the conversion of the first row of its key. */
  lemma {:induction false} KeptAreFirsts(rows: seq<RawRow>)
    ensures forall item <- Kept(rows) :: exists i :: IsFirst(rows, i) && item == Convert(rows[i])
  {
    if rows != [] {
      var init, last := rows[..|rows| - 1], rows[|rows| - 1];
      KeptAreFirsts(init);
      LastIsFirst(rows);
      forall item <- Kept(rows) ensures exists i :: IsFirst(rows, i) && item == Convert(rows[i]) {
        if item in Kept(init) {
          var i :| IsFirst(init, i) && item == Convert(init[i]);
          FirstInPrefix(rows, i);
          assert rows[i] == init[i];
        } else {
          assert IsFirst(rows, |rows| - 1) && item == Convert(last);
        }
      }
    }
  }

  /** The first row of every key is kept. */
  lemma FirstsAreKept(rows: seq<RawRow>)
    ensures forall i :: IsFirst(rows, i) ==> Convert(rows[i]) in Kept(rows)
  {
    forall i | IsFirst(rows, i) ensures Convert(rows[i]) in Kept(rows) {
      FirstKept(rows, i);
    }
  }

  /** A first row is the last item kept from the rows up to it, and what is kept from a
      prefix starts what is kept from all rows. */
  lemma FirstKept(rows: seq<RawRow>, i: int)
    requires IsFirst(rows, i)
    ensures Convert(rows[i]) in Kept(rows)
  {
    var upTo := rows[..i + 1];
    assert upTo[..|upTo| - 1] == rows[..i];
    assert IsFirst(upTo, i) by {
      assert forall j :: 0 <= j <= i ==> upTo[j] == rows[j];
    }
    LastIsFirst(upTo);
    assert Kept(upTo) == Kept(rows[..i]) + [Convert(rows[i])];
    KeptPrefix(rows, i + 1);
    assert Kept(rows)[|Kept(upTo)| - 1] == Convert(rows[i]);
  }

  /** Input order is kept: the items of a prefix of the rows start the items of all rows. */
  lemma {:induction false} KeptPrefix(rows: seq<RawRow>, n: nat)
    requires n <= |rows|
    ensures Kept(rows[..n]) <= Kept(rows)
    decreases |rows| - n
  {
    if n < |rows| {
      KeptPrefix(rows, n + 1);
      assert rows[..n + 1][..n] == rows[..n];
    } else {
      assert rows[..n] == rows;
    }
  }

  /** Once a prefix of the rows raises, so do all rows: the rows after it are never read. */
  lemma {:induction false} RaisesPrefix(rows: seq<RawRow>, n: nat)
    requires n <= |rows| && Raises(rows[..n])
    ensures Raises(rows)
    decreases |rows| - n
  {
    if n < |rows| {
      assert rows[..n + 1][..n] == rows[..n];
      RaisesPrefix(rows, n + 1);
    } else {
      assert rows[..n] == rows;
    }
  }

  /** A null assignee anywhere raises, whatever the other rows hold. */
  lemma NullAssigneeRaises(rows: seq<RawRow>, i: int)
    requires 0 <= i < |rows| && rows[i].assignedToUser.None?
    ensures Raises(rows)
  {
    assert rows[..i + 1][..i] == rows[..i];
    RaisesPrefix(rows, i + 1);
  }

  /** Rows without a null assignee or project never raise. */
  lemma {:induction false} NoNullsNoRaise(rows: seq<RawRow>)
    requires forall i :: 0 <= i < |rows| ==> rows[i].assignedToUser.Some? && rows[i].projectName.Some?
    ensures !Raises(rows)
  {
    if rows != [] {
      NoNullsNoRaise(rows[..|rows| - 1]);
    }
  }

  /** Rows that are not eligible never reach the output. */
  lemma IneligibleDropped(rows: seq<RawRow>, row: RawRow)
    requires !Eligible(row)
    ensures Kept(rows + [row]) == Kept(rows)
  {
    assert (rows + [row])[..|rows + [row]| - 1] == rows;
  }

  /** A row repeating an earlier row's key is dropped. */
  lemma RepeatDropped(rows: seq<RawRow>, row: RawRow)
    requires Eligible(row) && exists r <- rows :: Eligible(r) && Key(r) == Key(row)
    ensures Kept(rows + [row]) == Kept(rows)
  {
    SeenKeysExact(rows);
    assert (rows + [row])[..|rows + [row]| - 1] == rows;
  }
}
