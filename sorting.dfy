/** Swift's `sorted(by:)` for comparators of the form `rank(a) < rank(b)`, modelled as a stable
    insertion sort: the result is a permutation of the input whose ranks never decrease. */
module Sorting {

  predicate SortedBy<T>(s: seq<T>, rank: T -> int)
  {
    forall i, j :: 0 <= i < j < |s| ==> rank(s[i]) <= rank(s[j])
  }

  /** Puts `x` just before the first element whose rank is not smaller than its own. */
  function Insert<T>(x: T, s: seq<T>, rank: T -> int): (r: seq<T>)
    ensures |r| == |s| + 1
  {
    if s == [] || rank(x) <= rank(s[0]) then [x] + s else [s[0]] + Insert(x, s[1..], rank)
  }

  function SortBy<T>(s: seq<T>, rank: T -> int): (r: seq<T>)
    ensures |r| == |s|
  {
    if s == [] then [] else Insert(s[0], SortBy(s[1..], rank), rank)
  }

  lemma {:induction false} InsertPermutes<T>(x: T, s: seq<T>, rank: T -> int)
    ensures multiset(Insert(x, s, rank)) == multiset(s) + multiset{x}
  {
    if s != [] && rank(x) > rank(s[0]) {
      InsertPermutes(x, s[1..], rank);
      assert s == [s[0]] + s[1..];
    }
  }

  lemma {:induction false} InsertSorted<T>(x: T, s: seq<T>, rank: T -> int)
    requires SortedBy(s, rank)
    ensures SortedBy(Insert(x, s, rank), rank)
  {
    if s != [] && rank(x) > rank(s[0]) {
      InsertSorted(x, s[1..], rank);
      InsertPermutes(x, s[1..], rank);
      var t := Insert(x, s[1..], rank);
      var r := Insert(x, s, rank);
      assert r == [s[0]] + t;
      forall k | 0 <= k < |t| ensures rank(s[0]) <= rank(t[k]) {
        assert t[k] in multiset(t);
        if t[k] != x {
          assert t[k] in multiset(s[1..]);
          var m :| 0 <= m < |s[1..]| && s[1..][m] == t[k];
          assert s[1..][m] == s[m + 1];
        }
      }
    }
  }

  /** The sorted list is a permutation of the input and its ranks never decrease. */
  lemma {:induction false} SortBySpec<T>(s: seq<T>, rank: T -> int)
    ensures multiset(SortBy(s, rank)) == multiset(s)
    ensures SortedBy(SortBy(s, rank), rank)
  {
    if s != [] {
      SortBySpec(s[1..], rank);
      InsertPermutes(s[0], SortBy(s[1..], rank), rank);
      InsertSorted(s[0], SortBy(s[1..], rank), rank);
      assert s == [s[0]] + s[1..];
    }
  }
}
