/** Python's stable `sorted(xs, key=k, reverse=True)` / `xs.sort(key=k, reverse=True)`,
    as an insertion sort over a sequence. */
module Sorting {

  ghost predicate SortedDescending<T>(s: seq<T>, key: T -> real) {
    forall i, j :: 0 <= i < j < |s| ==> key(s[i]) >= key(s[j])
  }

  /** Inserts `x` after every element whose key is at least `key(x)`, which keeps
      equal keys in arrival order. */
  method InsertDescending<T>(s: seq<T>, x: T, key: T -> real) returns (r: seq<T>)
    requires SortedDescending(s, key)
    ensures SortedDescending(r, key)
    ensures multiset(r) == multiset(s) + multiset{x}
  {
    var j := 0;
    while j < |s| && key(s[j]) >= key(x)
      invariant 0 <= j <= |s|
      invariant forall k :: 0 <= k < j ==> key(s[k]) >= key(x)
    {
      j := j + 1;
    }
    assert forall k :: j <= k < |s| ==> key(s[k]) <= key(s[j]) < key(x);
    r := s[..j] + [x] + s[j..];
    assert s == s[..j] + s[j..];
    InsertedSorted(s, x, j, key);
  }

  lemma InsertedSorted<T>(s: seq<T>, x: T, j: int, key: T -> real)
    requires SortedDescending(s, key)
    requires 0 <= j <= |s|
    requires forall k :: 0 <= k < j ==> key(s[k]) >= key(x)
    requires forall k :: j <= k < |s| ==> key(s[k]) < key(x)
    ensures SortedDescending(s[..j] + [x] + s[j..], key)
  {
    var r := s[..j] + [x] + s[j..];
    forall a, b | 0 <= a < b < |r| ensures key(r[a]) >= key(r[b]) {
      var va := if a < j then s[a] else if a == j then x else s[a - 1];
      var vb := if b < j then s[b] else if b == j then x else s[b - 1];
      assert r[a] == va && r[b] == vb;
    }
  }

  method SortDescending<T>(s: seq<T>, key: T -> real) returns (r: seq<T>)
    ensures SortedDescending(r, key)
    ensures multiset(r) == multiset(s)
    ensures |r| == |s|
  {
    r := [];
    var i := 0;
    while i < |s|
      invariant 0 <= i <= |s|
      invariant SortedDescending(r, key)
      invariant multiset(r) == multiset(s[..i])
    {
      r := InsertDescending(r, s[i], key);
      assert s[..i + 1] == s[..i] + [s[i]];
      i := i + 1;
    }
    assert s[..i] == s;
    assert |r| == |multiset(r)|;
  }
}
