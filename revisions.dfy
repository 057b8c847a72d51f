/** `_get_estimate_from_revisions`: the original estimate recorded by the most recent
    revision that carries a positive one. */
module RevisionEstimate {
  import opened Wrappers
  import Sorting

  /** One entry of a work item's history: its `revision` number (0 when the key is
      absent) and the numeric values under its `fields` member and at its top level.
      A key whose value is `None` is absent from these maps. */
  datatype Revision = Revision(number: int, fields: map<string, real>, topLevel: map<string, real>)

  /** The estimate field names, in the order they are tried. */
  const EstimateFieldNames: seq<string> :=
    ["Microsoft.VSTS.Scheduling.OriginalEstimate", "OriginalEstimate", "original_estimate"]

  predicate PositiveAt(values: map<string, real>, name: string) {
    name in values && values[name] > 0.0
  }

  /** The value of the first name in `names` whose value is positive. */
  function FirstPositive(values: map<string, real>, names: seq<string>): (r: Option<real>)
    ensures r.None? <==> forall n <- names :: !PositiveAt(values, n)
    ensures r.Some? ==> r.value > 0.0 && exists n <- names :: PositiveAt(values, n) && values[n] == r.value
    ensures r.Some? && names != [] && PositiveAt(values, names[0]) ==> r.value == values[names[0]]
  {
    if names == [] then None
    else if PositiveAt(values, names[0]) then Some(values[names[0]])
    else FirstPositive(values, names[1..])
  }

  /** What one revision contributes: its `fields` first, then its top level. */
  function EstimateOf(rev: Revision): (r: Option<real>)
    ensures r.Some? ==> r.value > 0.0
    ensures FirstPositive(rev.fields, EstimateFieldNames).Some? ==> r == FirstPositive(rev.fields, EstimateFieldNames)
    ensures r.None? <==> (forall n <- EstimateFieldNames :: !PositiveAt(rev.fields, n) && !PositiveAt(rev.topLevel, n))
  {
    match FirstPositive(rev.fields, EstimateFieldNames)
    case Some(e) => Some(e)
    case None => FirstPositive(rev.topLevel, EstimateFieldNames)
  }

  predicate HasEstimate(rev: Revision) {
    EstimateOf(rev).Some?
  }

  /** The scan over `names` for one revision's map. */
  method FirstPositiveIn(values: map<string, real>, names: seq<string>) returns (r: Option<real>)
    ensures r == FirstPositive(values, names)
  {
    var i := 0;
    while i < |names|
      invariant 0 <= i <= |names|
      invariant FirstPositive(values, names) == FirstPositive(values, names[i..])
    {
      var name := names[i];
      if name in values && values[name] > 0.0 {
        return Some(values[name]);
      }
      assert names[i..][1..] == names[i + 1..];
      i := i + 1;
    }
    return None;
  }

  /** The sort key: `rev.get('revision', 0)`. */
  function RevisionNumber(rev: Revision): real {
    rev.number as real
  }

  method GetEstimateFromRevisions(revisions: seq<Revision>) returns (e: real)
    ensures e >= 0.0
    ensures e == 0.0 <==> forall rev <- revisions :: !HasEstimate(rev)
    ensures e > 0.0 ==> exists rev <- revisions ::
      && EstimateOf(rev) == Some(e)
      && forall other <- revisions :: HasEstimate(other) ==> other.number <= rev.number
  {
    if |revisions| == 0 {
      return 0.0;
    }
    var sorted := Sorting.SortDescending(revisions, RevisionNumber);
    SameMembers(revisions, sorted);
    var i := 0;
    while i < |sorted|
      invariant 0 <= i <= |sorted|
      invariant forall j :: 0 <= j < i ==> !HasEstimate(sorted[j])
    {
      var rev := sorted[i];
      var found := FirstPositiveIn(rev.fields, EstimateFieldNames);
      if found.None? {
        found := FirstPositiveIn(rev.topLevel, EstimateFieldNames);
      }
      if found.Some? {
        assert EstimateOf(rev) == found;
        NewestWithEstimate(revisions, sorted, i);
        return found.value;
      }
      i := i + 1;
    }
    return 0.0;
  }

  /** Sorting keeps the revisions, so membership is unchanged. */
  lemma SameMembers(revisions: seq<Revision>, sorted: seq<Revision>)
    requires multiset(sorted) == multiset(revisions)
    ensures forall rev :: rev in revisions <==> rev in sorted
  {
    forall rev ensures rev in revisions <==> rev in sorted {
      assert rev in revisions <==> rev in multiset(revisions);
      assert rev in sorted <==> rev in multiset(sorted);
    }
  }

  /** In the revisions sorted newest first, the first one with an estimate is at least
      as recent as every revision with an estimate. */
  lemma NewestWithEstimate(revisions: seq<Revision>, sorted: seq<Revision>, i: int)
    requires Sorting.SortedDescending(sorted, RevisionNumber)
    requires forall rev :: rev in revisions <==> rev in sorted
    requires 0 <= i < |sorted| && forall j :: 0 <= j < i ==> !HasEstimate(sorted[j])
    ensures forall other <- revisions :: HasEstimate(other) ==> other.number <= sorted[i].number
  {
    forall other <- revisions | HasEstimate(other) ensures other.number <= sorted[i].number {
      var j :| 0 <= j < |sorted| && sorted[j] == other;
      assert j >= i;
      assert RevisionNumber(sorted[i]) >= RevisionNumber(sorted[j]);
    }
  }
}
