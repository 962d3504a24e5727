/** Optional values, identifiers and the order-preserving list operations that the
    app's collections use: filter, remove-all-by-id, first-index-by-id, replace and upsert. */
module Seqs {

  datatype Option<T> = None | Some(value: T)

  /** A UUID, abstracted to a number; only equality is used. */
  type Uuid = nat

  /** `a` is `b` with some elements deleted, the rest kept in order. */
  predicate SubseqOf<T(==)>(a: seq<T>, b: seq<T>)
    decreases |b|
  {
    if a == [] then true
    else if b == [] then false
    else (a[0] == b[0] && SubseqOf(a[1..], b[1..])) || SubseqOf(a, b[1..])
  }

  lemma {:induction false} SubseqOfSelf<T>(a: seq<T>)
    ensures SubseqOf(a, a)
  {
    if a != [] {
      SubseqOfSelf(a[1..]);
    }
  }

  lemma {:induction false} SubseqOfTrans<T>(a: seq<T>, b: seq<T>, c: seq<T>)
    requires SubseqOf(a, b) && SubseqOf(b, c)
    ensures SubseqOf(a, c)
    decreases |c|
  {
    if a == [] {
    } else if a[0] == b[0] && SubseqOf(a[1..], b[1..]) {
      if b[0] == c[0] && SubseqOf(b[1..], c[1..]) {
        SubseqOfTrans(a[1..], b[1..], c[1..]);
      } else {
        SubseqOfTrans(a, b, c[1..]);
      }
    } else {
      if b[0] == c[0] && SubseqOf(b[1..], c[1..]) {
        SubseqOfTrans(a, b[1..], c[1..]);
      } else {
        SubseqOfTrans(a, b, c[1..]);
      }
    }
  }

  lemma {:induction false} SubseqOfMembers<T>(a: seq<T>, b: seq<T>)
    requires SubseqOf(a, b)
    ensures |a| <= |b|
    ensures forall x :: x in a ==> x in b
    decreases |b|
  {
    if a != [] {
      assert a == [a[0]] + a[1..] && b == [b[0]] + b[1..];
      if a[0] == b[0] && SubseqOf(a[1..], b[1..]) {
        SubseqOfMembers(a[1..], b[1..]);
      } else {
        SubseqOfMembers(a, b[1..]);
      }
    }
  }

  /** Swift's `filter`: the elements satisfying `p`, in their original order. */
  function Filter<T>(s: seq<T>, p: T -> bool): (r: seq<T>)
    ensures |r| <= |s|
  {
    if s == [] then [] else (if p(s[0]) then [s[0]] else []) + Filter(s[1..], p)
  }

  lemma {:induction false} FilterMembers<T>(s: seq<T>, p: T -> bool)
    ensures forall x :: x in Filter(s, p) <==> x in s && p(x)
  {
    if s != [] {
      FilterMembers(s[1..], p);
      assert s == [s[0]] + s[1..];
    }
  }

  lemma {:induction false} FilterIsSubseq<T>(s: seq<T>, p: T -> bool)
    ensures SubseqOf(Filter(s, p), s)
  {
    if s != [] {
      FilterIsSubseq(s[1..], p);
      if p(s[0]) {
        assert Filter(s, p)[1..] == Filter(s[1..], p);
      } else {
        var r := Filter(s, p);
        assert r == Filter(s[1..], p);
        if r != [] {
          assert SubseqOf(r, s[1..]);
        }
      }
    }
  }

  /** Filtering by `p` and by its complement splits the list without losing or inventing elements. */
  lemma {:induction false} FilterPartition<T>(s: seq<T>, p: T -> bool, q: T -> bool)
    requires forall x :: q(x) == !p(x)
    ensures multiset(Filter(s, p)) + multiset(Filter(s, q)) == multiset(s)
    ensures |Filter(s, p)| + |Filter(s, q)| == |s|
  {
    if s != [] {
      FilterPartition(s[1..], p, q);
      assert s == [s[0]] + s[1..];
    }
  }

  /** Filtering by a stronger predicate keeps a subsequence of filtering by a weaker one. */
  lemma {:induction false} FilterStrongerIsSubseq<T>(s: seq<T>, p: T -> bool, q: T -> bool)
    requires forall x :: p(x) ==> q(x)
    ensures SubseqOf(Filter(s, p), Filter(s, q))
  {
    if s != [] {
      FilterStrongerIsSubseq(s[1..], p, q);
      var a, b := Filter(s, p), Filter(s, q);
      if p(s[0]) {
        assert a[0] == b[0] && a[1..] == Filter(s[1..], p) && b[1..] == Filter(s[1..], q);
      } else if q(s[0]) {
        assert a == Filter(s[1..], p) && b[1..] == Filter(s[1..], q);
        if a != [] {
          assert SubseqOf(a, b[1..]);
        }
      } else {
        assert a == Filter(s[1..], p) && b == Filter(s[1..], q);
      }
    }
  }

  /** Filtering distributes over concatenation. */
  lemma {:induction false} FilterAppend<T>(a: seq<T>, b: seq<T>, p: T -> bool)
    ensures Filter(a + b, p) == Filter(a, p) + Filter(b, p)
  {
    if a == [] {
      assert a + b == b;
    } else {
      var ab := a + b;
      assert ab[0] == a[0] && ab[1..] == a[1..] + b;
      FilterAppend(a[1..], b, p);
      var head: seq<T> := if p(a[0]) then [a[0]] else [];
      assert Filter(ab, p) == head + Filter(a[1..] + b, p);
      assert Filter(a, p) == head + Filter(a[1..], p);
    }
  }

  /** Nothing passes the filter when no element satisfies `p`. */
  lemma {:induction false} FilterNone<T>(s: seq<T>, p: T -> bool)
    requires forall i :: 0 <= i < |s| ==> !p(s[i])
    ensures Filter(s, p) == []
  {
    if s != [] {
      assert forall i :: 0 <= i < |s[1..]| ==> s[1..][i] == s[i + 1];
      FilterNone(s[1..], p);
    }
  }

  /** Two filters whose predicates never hold together keep no more elements between them than
      the list has. */
  lemma {:induction false} FilterDisjoint<T>(s: seq<T>, p: T -> bool, q: T -> bool)
    requires forall x :: !(p(x) && q(x))
    ensures |Filter(s, p)| + |Filter(s, q)| <= |s|
  {
    if s != [] {
      FilterDisjoint(s[1..], p, q);
    }
  }

  function Count<T>(s: seq<T>, p: T -> bool): (n: nat)
    ensures n <= |s|
  {
    |Filter(s, p)|
  }

  /** Swift's `removeAll { key($0) == k }`. */
  function RemoveKey<T, K(==)>(s: seq<T>, key: T -> K, k: K): (r: seq<T>)
    ensures |r| <= |s|
  {
    if s == [] then [] else (if key(s[0]) == k then [] else [s[0]]) + RemoveKey(s[1..], key, k)
  }

  /** Everything `removeAll` promises: no element with the key is left, every other element is
      kept, and the survivors keep their relative order. */
  lemma {:induction false} RemoveKeySpec<T, K>(s: seq<T>, key: T -> K, k: K)
    ensures forall x :: x in RemoveKey(s, key, k) <==> x in s && key(x) != k
    ensures SubseqOf(RemoveKey(s, key, k), s)
    ensures (forall x :: x in s ==> key(x) != k) ==> RemoveKey(s, key, k) == s
  {
    if s != [] {
      RemoveKeySpec(s[1..], key, k);
      assert s == [s[0]] + s[1..];
      var r := RemoveKey(s, key, k);
      if key(s[0]) != k {
        assert r[1..] == RemoveKey(s[1..], key, k);
      } else if r != [] {
        assert r == RemoveKey(s[1..], key, k);
        assert SubseqOf(r, s[1..]);
      }
    }
  }

  /** `removeAll` works element by element, so it distributes over concatenation. */
  lemma {:induction false} RemoveKeyAppend<T, K>(a: seq<T>, b: seq<T>, key: T -> K, k: K)
    ensures RemoveKey(a + b, key, k) == RemoveKey(a, key, k) + RemoveKey(b, key, k)
  {
    if a == [] {
      assert a + b == b;
    } else {
      assert (a + b)[0] == a[0] && (a + b)[1..] == a[1..] + b;
      RemoveKeyAppend(a[1..], b, key, k);
    }
  }

  /** Swift's `firstIndex(where: { key($0) == k })`. */
  function FirstIndex<T, K(==)>(s: seq<T>, key: T -> K, k: K): (r: Option<nat>)
    ensures r.Some? ==> r.value < |s| && key(s[r.value]) == k
    ensures r.Some? ==> forall j :: 0 <= j < r.value ==> key(s[j]) != k
    ensures r.None? ==> forall j :: 0 <= j < |s| ==> key(s[j]) != k
  {
    if s == [] then None
    else if key(s[0]) == k then Some(0)
    else match FirstIndex(s[1..], key, k)
      case None => None
      case Some(i) => Some(i + 1)
  }

  /** Appending does not move the first match; it becomes the last element only when nothing
      before it matched. */
  lemma {:induction false} FirstIndexAppend<T, K>(s: seq<T>, x: T, key: T -> K, k: K)
    ensures FirstIndex(s, key, k).Some? ==> FirstIndex(s + [x], key, k) == FirstIndex(s, key, k)
    ensures FirstIndex(s, key, k).None? && key(x) == k ==> FirstIndex(s + [x], key, k) == Some(|s|)
  {
    if s == [] {
      assert s + [x] == [x];
    } else {
      assert (s + [x])[0] == s[0] && (s + [x])[1..] == s[1..] + [x];
      FirstIndexAppend(s[1..], x, key, k);
    }
  }

  /** `if let i = firstIndex(where: same key as x) { s[i] = x }`: replace the first element with
      the key of `x`; leave the list unchanged when there is none. */
  function ReplaceFirst<T, K(==)>(s: seq<T>, x: T, key: T -> K): (r: seq<T>)
  {
    match FirstIndex(s, key, key(x))
    case Some(i) => s[i := x]
    case None => s
  }

  /** `if let i = firstIndex(...) { s[i] = f(s[i]) }`: change only the first element with the key. */
  function UpdateFirst<T, K(==)>(s: seq<T>, key: T -> K, k: K, f: T -> T): (r: seq<T>)
  {
    match FirstIndex(s, key, k)
    case Some(i) => s[i := f(s[i])]
    case None => s
  }

  /** The persistence layer's save: replace the first element with the key of `x`, or append. */
  function Upsert<T, K(==)>(s: seq<T>, x: T, key: T -> K): (r: seq<T>)
  {
    match FirstIndex(s, key, key(x))
    case Some(i) => s[i := x]
    case None => s + [x]
  }

  lemma ReplaceFirstSpec<T, K>(s: seq<T>, x: T, key: T -> K)
    ensures |ReplaceFirst(s, x, key)| == |s|
    ensures (forall j :: 0 <= j < |s| ==> key(s[j]) != key(x)) ==> ReplaceFirst(s, x, key) == s
    ensures forall i :: 0 <= i < |s| && key(s[i]) == key(x) && (forall j :: 0 <= j < i ==> key(s[j]) != key(x)) ==>
              ReplaceFirst(s, x, key) == s[i := x]
  {
    var r := FirstIndex(s, key, key(x));
    if r.Some? {
      forall i | 0 <= i < |s| && key(s[i]) == key(x) && (forall j :: 0 <= j < i ==> key(s[j]) != key(x))
        ensures i == r.value
      {
      }
    }
  }

  lemma UpdateFirstSpec<T, K>(s: seq<T>, key: T -> K, k: K, f: T -> T)
    ensures |UpdateFirst(s, key, k, f)| == |s|
    ensures (forall j :: 0 <= j < |s| ==> key(s[j]) != k) ==> UpdateFirst(s, key, k, f) == s
    ensures forall i :: 0 <= i < |s| && key(s[i]) == k && (forall j :: 0 <= j < i ==> key(s[j]) != k) ==>
              UpdateFirst(s, key, k, f) == s[i := f(s[i])]
  {
    var r := FirstIndex(s, key, k);
    if r.Some? {
      forall i | 0 <= i < |s| && key(s[i]) == k && (forall j :: 0 <= j < i ==> key(s[j]) != k)
        ensures i == r.value
      {
      }
    }
  }

  /** Upsert keeps the length when the key is present and adds one otherwise; afterwards `x`
      sits at the key's first position and every other position is untouched. */
  lemma UpsertSpec<T, K>(s: seq<T>, x: T, key: T -> K)
    ensures (exists j :: 0 <= j < |s| && key(s[j]) == key(x)) ==> |Upsert(s, x, key)| == |s|
    ensures (forall j :: 0 <= j < |s| ==> key(s[j]) != key(x)) ==> Upsert(s, x, key) == s + [x]
    ensures FirstIndex(Upsert(s, x, key), key, key(x)).Some?
    ensures var i := FirstIndex(Upsert(s, x, key), key, key(x)).value;
            i <= |s| && Upsert(s, x, key)[i] == x &&
            forall j :: 0 <= j < |s| && j != i ==> Upsert(s, x, key)[j] == s[j]
  {
    var r := Upsert(s, x, key);
    match FirstIndex(s, key, key(x))
    case Some(i) =>
      assert key(r[i]) == key(x);
      assert forall j :: 0 <= j < i ==> r[j] == s[j];
    case None =>
      assert key(r[|s|]) == key(x);
      assert forall j :: 0 <= j < |s| ==> r[j] == s[j];
  }

  /** Swift's `Array(s.prefix(n))`. */
  function Prefix<T>(s: seq<T>, n: nat): (r: seq<T>)
    ensures |r| == if |s| < n then |s| else n
    ensures forall i :: 0 <= i < |r| ==> r[i] == s[i]
  {
    if |s| <= n then s else s[..n]
  }

  /** Sum of `f` over the list (Swift's `reduce(0, +)` after a `map`). */
  function SumOf<T>(s: seq<T>, f: T -> int): int
  {
    if s == [] then 0 else f(s[0]) + SumOf(s[1..], f)
  }

  /** Swift's `first(where: p)`. */
  function FirstWhere<T>(s: seq<T>, p: T -> bool): (r: Option<T>)
    ensures r.Some? ==> exists i :: 0 <= i < |s| && s[i] == r.value && p(s[i]) &&
                                    forall j :: 0 <= j < i ==> !p(s[j])
    ensures r.None? <==> forall j :: 0 <= j < |s| ==> !p(s[j])
  {
    if s == [] then None
    else if p(s[0]) then Some(s[0])
    else
      var r := FirstWhere(s[1..], p);
      assert r.Some? ==> exists i :: 0 <= i < |s[1..]| && s[1..][i] == r.value && p(s[1..][i]) &&
                                     forall j :: 0 <= j < i ==> !p(s[1..][j]);
      assert r.Some? ==> exists i :: 1 <= i < |s| && s[i] == r.value && p(s[i]) &&
                                     forall j :: 1 <= j < i ==> !p(s[j]);
      r
  }

  /** Summing `f` over the filtered list is summing, over the whole list, a `g` that is `f` where
      `p` holds and 0 elsewhere. */
  lemma {:induction false} SumOfFilter<T>(s: seq<T>, p: T -> bool, f: T -> int, g: T -> int)
    requires forall x :: g(x) == if p(x) then f(x) else 0
    ensures SumOf(Filter(s, p), f) == SumOf(s, g)
  {
    if s != [] {
      SumOfFilter(s[1..], p, f, g);
      var head := if p(s[0]) then [s[0]] else [];
      SumOfAppend(head, Filter(s[1..], p), f);
      assert SumOf(head, f) == if p(s[0]) then f(s[0]) else 0 by {
        if p(s[0]) {
          assert head[1..] == [];
        }
      }
    }
  }

  lemma {:induction false} SumOfAppend<T>(a: seq<T>, b: seq<T>, f: T -> int)
    ensures SumOf(a + b, f) == SumOf(a, f) + SumOf(b, f)
  {
    if a != [] {
      SumOfAppend(a[1..], b, f);
      assert (a + b)[1..] == a[1..] + b;
    } else {
      assert a + b == b;
    }
  }
}
