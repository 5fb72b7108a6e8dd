/** Sorting by a string key, as Rust's `sort_by(|a, b| key(a).cmp(&key(b)))`
    does for both reports. */
module Sorting {
  import opened Strings
  import opened Seqs

  /** `xs` is non-decreasing in `key`. */
  predicate SortedBy<T>(xs: seq<T>, key: T -> string)
  {
    forall i, j :: 0 <= i < j < |xs| ==> LexLe(key(xs[i]), key(xs[j]))
  }

  /** The identity key, for sorting the strings themselves (`Vec::sort`). */
  function Id(s: string): string
  {
    s
  }

  /** A key bounded by the first key of a sorted list bounds all of them. */
  lemma HeadBound<T>(k: string, xs: seq<T>, key: T -> string)
    requires SortedBy(xs, key) && |xs| > 0 && LexLe(k, key(xs[0]))
    ensures forall j :: 0 <= j < |xs| ==> LexLe(k, key(xs[j]))
  {
    forall j | 0 <= j < |xs|
      ensures LexLe(k, key(xs[j]))
    {
      if j > 0 {
        LexLeTransitive(k, key(xs[0]), key(xs[j]));
      }
    }
  }

  /** Inserts `x` into a sorted list before the first element whose key is
      not smaller, so that earlier insertions stay ahead of equal keys. */
  function Insert<T>(x: T, xs: seq<T>, key: T -> string): (r: seq<T>)
    requires SortedBy(xs, key)
    ensures multiset(r) == multiset(xs) + multiset{x}
    ensures SortedBy(r, key)
  {
    if |xs| == 0 then [x]
    else if LexLe(key(x), key(xs[0])) then
      HeadBound(key(x), xs, key);
      assert xs == [xs[0]] + xs[1..];
      [x] + xs
    else
      LexLeTotal(key(x), key(xs[0]));
      var rest := Insert(x, xs[1..], key);
      assert xs == [xs[0]] + xs[1..];
      InsertedBound(xs[0], x, xs[1..], rest, key);
      [xs[0]] + rest
  }

  /** Helper for Insert's else-branch: the head that was kept in front is
      bounded by every element of the recursively built tail. */
  lemma InsertedBound<T>(h: T, x: T, xs: seq<T>, rest: seq<T>, key: T -> string)
    requires SortedBy([h] + xs, key) && LexLe(key(h), key(x))
    requires multiset(rest) == multiset(xs) + multiset{x}
    requires SortedBy(rest, key)
    ensures SortedBy([h] + rest, key)
  {
    forall j | 0 <= j < |rest|
      ensures LexLe(key(h), key(rest[j]))
    {
      assert rest[j] in multiset(rest);
      if rest[j] != x {
        assert rest[j] in multiset(xs);
        var m :| 0 <= m < |xs| && xs[m] == rest[j];
        assert ([h] + xs)[0] == h && ([h] + xs)[m + 1] == rest[j];
        assert LexLe(key(([h] + xs)[0]), key(([h] + xs)[m + 1]));
      }
    }
    var r := [h] + rest;
    forall i, j | 0 <= i < j < |r|
      ensures LexLe(key(r[i]), key(r[j]))
    {
      if i > 0 {
        assert r[i] == rest[i - 1] && r[j] == rest[j - 1];
      }
    }
  }

  /** Stable insertion sort by `key`: a permutation of the input that is
      non-decreasing in `key`. */
  function SortBy<T>(xs: seq<T>, key: T -> string): (r: seq<T>)
    ensures multiset(r) == multiset(xs)
    ensures SortedBy(r, key)
  {
    if |xs| == 0 then []
    else
      assert xs == [xs[0]] + xs[1..];
      Insert(xs[0], SortBy(xs[1..], key), key)
  }

  /** Sorting keeps exactly the members of the input. */
  lemma SortByMembers<T>(xs: seq<T>, key: T -> string)
    ensures |SortBy(xs, key)| == |xs|
    ensures forall x :: x in SortBy(xs, key) <==> x in xs
  {
    var r := SortBy(xs, key);
    assert |r| == |multiset(r)| == |multiset(xs)| == |xs|;
    forall x
      ensures x in r <==> x in xs
    {
      assert x in r <==> x in multiset(r);
      assert x in xs <==> x in multiset(xs);
    }
  }

  /** Sorting a list without repetitions gives a list without repetitions. */
  lemma SortByNoDup<T>(xs: seq<T>, key: T -> string)
    requires NoDup(xs)
    ensures NoDup(SortBy(xs, key))
  {
    var r := SortBy(xs, key);
    SortByMembers(xs, key);
    assert Elements(r) == Elements(xs);
    DedupLength(xs);
    DedupCardinality(xs);
    DedupCardinality(r);
    DedupLength(r);
  }

  /** The head of a sorted list is bounded by each of its members. */
  lemma HeadIsLeast<T>(xs: seq<T>, x: T, key: T -> string)
    requires SortedBy(xs, key) && x in xs
    ensures LexLe(key(xs[0]), key(x))
  {
    var i :| 0 <= i < |xs| && xs[i] == x;
    if i == 0 {
      LexLeReflexive(key(x));
    }
  }

  /** Dropping the common head of two lists without repetitions that have the
      same members leaves tails with the same members. */
  lemma TailMembers<T>(a: seq<T>, b: seq<T>)
    requires NoDup(a) && NoDup(b) && |a| > 0 && |b| > 0 && a[0] == b[0]
    requires forall x :: x in a <==> x in b
    ensures forall x :: x in a[1..] <==> x in b[1..]
  {
    forall x
      ensures x in a[1..] <==> x in b[1..]
    {
      assert a == [a[0]] + a[1..] && b == [b[0]] + b[1..];
      assert x in a <==> x == a[0] || x in a[1..];
      assert x in b <==> x == b[0] || x in b[1..];
      if x == a[0] {
        assert forall k :: 0 <= k < |a| - 1 ==> a[1..][k] == a[k + 1] != a[0];
        assert forall k :: 0 <= k < |b| - 1 ==> b[1..][k] == b[k + 1] != b[0];
      }
    }
  }

  /** Two ascending lists of distinct strings with the same members are equal:
      the sorted teacher list does not depend on the order names were met in. */
  lemma {:induction false} SortedDistinctUnique(a: seq<string>, b: seq<string>)
    requires SortedBy(a, Id) && NoDup(a)
    requires SortedBy(b, Id) && NoDup(b)
    requires forall x :: x in a <==> x in b
    ensures a == b
    decreases |a|
  {
    NoDupCardinality(a);
    NoDupCardinality(b);
    assert Elements(a) == Elements(b);
    if |a| > 0 {
      assert a[0] in b;
      HeadIsLeast(a, b[0], Id);
      HeadIsLeast(b, a[0], Id);
      LexLeAntisymmetric(a[0], b[0]);
      TailMembers(a, b);
      var a', b' := a[1..], b[1..];
      assert SortedBy(a', Id) && NoDup(a');
      assert SortedBy(b', Id) && NoDup(b');
      SortedDistinctUnique(a', b');
      assert a == [a[0]] + a' && b == [b[0]] + b';
    }
  }
}
