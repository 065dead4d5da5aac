/** Sequence operations shared by the components: the `filter` of JavaScript
    arrays, order-preserving sub-lists, and the de-duplication performed by
    `Array.from(new Set(xs))`. */
module Lists {

  /** `xs.filter(p)`: the elements of `s` that satisfy `p`, in their order. */
  function Filter<T>(s: seq<T>, p: T -> bool): seq<T>
  {
    if s == [] then []
    else if p(s[0]) then [s[0]] + Filter(s[1..], p)
    else Filter(s[1..], p)
  }

  /** `a` is an order-preserving sub-list of `b`: `a` is `b` with some
      elements deleted. */
  predicate IsSublist<T(==)>(a: seq<T>, b: seq<T>)
  {
    if a == [] then true
    else if b == [] then false
    else if a[0] == b[0] then IsSublist(a[1..], b[1..])
    else IsSublist(a, b[1..])
  }

  /** No element occurs twice. */
  predicate NoDuplicates<T(==)>(s: seq<T>)
  {
    forall i, j :: 0 <= i < j < |s| ==> s[i] != s[j]
  }

  /** The position of the first occurrence of `x` in `s`. */
  function FirstIndex<T(==)>(s: seq<T>, x: T): (k: nat)
    requires x in s
    ensures k < |s| && s[k] == x
    ensures forall i :: 0 <= i < k ==> s[i] != x
  {
    if s[0] == x then 0 else 1 + FirstIndex(s[1..], x)
  }

  /** `Array.from(new Set(s))`: each distinct element once, in the order of
      its first appearance (a Set remembers insertion order). */
  function Distinct<T(==)>(s: seq<T>): seq<T>
  {
    if s == [] then []
    else
      var rest := Distinct(s[..|s| - 1]);
      if s[|s| - 1] in rest then rest else rest + [s[|s| - 1]]
  }

  /** A sub-list of the tail is a sub-list of the whole list. */
  lemma {:induction false} SublistOfTail<T>(a: seq<T>, b: seq<T>)
    requires b != [] && IsSublist(a, b[1..])
    ensures IsSublist(a, b)
    decreases |a|, 1, |b|
  {
    if a != [] && a[0] == b[0] {
      SublistDropHead(a, b[1..]);
    }
  }

  /** Dropping the first element of a sub-list leaves a sub-list. */
  lemma {:induction false} SublistDropHead<T>(a: seq<T>, c: seq<T>)
    requires a != [] && IsSublist(a, c)
    ensures IsSublist(a[1..], c)
    decreases |a|, 0, |c|
  {
    if a[0] != c[0] {
      SublistDropHead(a, c[1..]);
    }
    SublistOfTail(a[1..], c);
  }

  /** Every element of a sub-list occurs in the list it was taken from. */
  lemma {:induction false} SublistMembers<T>(a: seq<T>, b: seq<T>, x: T)
    requires IsSublist(a, b) && x in a
    ensures x in b
    decreases |b|
  {
    if a[0] == b[0] {
      if x != a[0] {
        SublistMembers(a[1..], b[1..], x);
      }
    } else {
      SublistMembers(a, b[1..], x);
    }
  }

  /** A sub-list of a list without duplicates has no duplicates. */
  lemma {:induction false} SublistOfDistinct<T>(a: seq<T>, b: seq<T>)
    requires IsSublist(a, b) && NoDuplicates(b)
    ensures NoDuplicates(a)
    decreases |b|
  {
    if a != [] {
      if a[0] == b[0] {
        SublistOfDistinct(a[1..], b[1..]);
        forall j | 0 < j < |a|
          ensures a[0] != a[j]
        {
          if a[j] == a[0] {
            SublistMembers(a[1..], b[1..], a[j]);
          }
        }
      } else {
        SublistOfDistinct(a, b[1..]);
      }
    }
  }

  /** No two elements share a key. */
  predicate KeysDistinct<T, K(==)>(s: seq<T>, key: T -> K)
  {
    forall i, j :: 0 <= i < j < |s| ==> key(s[i]) != key(s[j])
  }

  /** A sub-list of a list with distinct keys has distinct keys. */
  lemma {:induction false} SublistKeysDistinct<T, K>(a: seq<T>, b: seq<T>, key: T -> K)
    requires IsSublist(a, b) && KeysDistinct(b, key)
    ensures KeysDistinct(a, key)
    decreases |b|
  {
    if a != [] {
      if a[0] == b[0] {
        SublistKeysDistinct(a[1..], b[1..], key);
        forall j | 0 < j < |a|
          ensures key(a[0]) != key(a[j])
        {
          SublistMembers(a[1..], b[1..], a[j]);
          var k :| 0 <= k < |b[1..]| && b[1..][k] == a[j];
          assert b[k + 1] == a[j];
        }
      } else {
        SublistKeysDistinct(a, b[1..], key);
      }
    }
  }

  /** The result of `filter` keeps exactly the elements that pass, in order. */
  lemma {:induction false} FilterSpec<T>(s: seq<T>, p: T -> bool)
    ensures IsSublist(Filter(s, p), s)
    ensures |Filter(s, p)| <= |s|
    ensures forall x :: x in Filter(s, p) <==> x in s && p(x)
    ensures forall x :: multiset(Filter(s, p))[x] == if p(x) then multiset(s)[x] else 0
  {
    if s != [] {
      FilterSpec(s[1..], p);
      assert s == [s[0]] + s[1..];
      assert multiset(s) == multiset([s[0]]) + multiset(s[1..]);
      if !p(s[0]) {
        SublistOfTail(Filter(s[1..], p), s);
      } else {
        assert multiset(Filter(s, p)) == multiset([s[0]]) + multiset(Filter(s[1..], p));
      }
    }
  }

  /** A predicate that holds of every element keeps the whole list. */
  lemma {:induction false} FilterKeepsAll<T>(s: seq<T>, p: T -> bool)
    requires forall x :: x in s ==> p(x)
    ensures Filter(s, p) == s
  {
    if s != [] {
      FilterKeepsAll(s[1..], p);
    }
  }

  /** Filtering by a conjunction is filtering twice. */
  lemma {:induction false} FilterConjunction<T>(s: seq<T>, p: T -> bool, q: T -> bool, pq: T -> bool)
    requires forall x :: pq(x) == (p(x) && q(x))
    ensures Filter(s, pq) == Filter(Filter(s, p), q)
  {
    if s != [] {
      FilterConjunction(s[1..], p, q, pq);
    }
  }

  lemma {:induction false} FirstIndexOfPrefix<T>(s: seq<T>, n: nat, x: T)
    requires n <= |s| && x in s[..n]
    ensures FirstIndex(s, x) == FirstIndex(s[..n], x)
  {
    var k := FirstIndex(s[..n], x);
    var k' := FirstIndex(s, x);
    assert s[k] == x;
    assert k' <= k;
    assert s[..n][k'] == x;
  }

  /** `Distinct` lists each element of `s` exactly once, ordered by where it
      first appears in `s`. */
  lemma {:induction false} DistinctSpec<T>(s: seq<T>)
    ensures forall x :: x in Distinct(s) ==> x in s
    ensures forall x :: x in s ==> x in Distinct(s)
    ensures NoDuplicates(Distinct(s))
    ensures forall i, j :: 0 <= i < j < |Distinct(s)| ==>
              Distinct(s)[i] in s && Distinct(s)[j] in s &&
              FirstIndex(s, Distinct(s)[i]) < FirstIndex(s, Distinct(s)[j])
  {
    if s != [] {
      var n := |s| - 1;
      var init := s[..n];
      var rest := Distinct(init);
      DistinctSpec(init);
      assert s == init + [s[n]];
      forall x | x in rest
        ensures x in s && FirstIndex(s, x) == FirstIndex(init, x) && FirstIndex(s, x) < n
      {
        FirstIndexOfPrefix(s, n, x);
      }
      if s[n] !in rest {
        var r := rest + [s[n]];
        assert s[n] !in init;
        assert forall k :: 0 <= k < n ==> init[k] == s[k];
        assert FirstIndex(s, s[n]) == n;
        forall i, j | 0 <= i < j < |r|
          ensures r[i] in s && r[j] in s && FirstIndex(s, r[i]) < FirstIndex(s, r[j])
        {
          assert r[i] in rest;
          if j < |rest| {
            assert r[j] in rest;
          }
        }
      }
    }
  }
}
