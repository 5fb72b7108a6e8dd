/** Sequence utilities shared by the reports: counting, filtering and summing
    over a sequence, order-preserving de-duplication, and integer ranges.
    Each is defined once, by recursion on the last element, so that the
    "append one more element" step of a loop is a definitional unfolding. */
module Seqs {

  /** Number of elements of `xs` that satisfy `p`. */
  function Count<T>(xs: seq<T>, p: T -> bool): (n: nat)
    ensures n <= |xs|
  {
    if |xs| == 0 then 0
    else Count(xs[..|xs| - 1], p) + (if p(xs[|xs| - 1]) then 1 else 0)
  }

  /** The elements of `xs` that satisfy `p`, in their original order
      (Rust's `into_iter().filter(p)`). */
  function Filter<T>(xs: seq<T>, p: T -> bool): (r: seq<T>)
    ensures |r| == Count(xs, p)
    ensures forall i :: 0 <= i < |r| ==> p(r[i])
    ensures forall x :: x in r ==> x in xs
  {
    if |xs| == 0 then []
    else Filter(xs[..|xs| - 1], p) + (if p(xs[|xs| - 1]) then [xs[|xs| - 1]] else [])
  }

  /** The sum of `f` over the elements of `xs`. */
  function Sum<T>(xs: seq<T>, f: T -> int): int
  {
    if |xs| == 0 then 0 else Sum(xs[..|xs| - 1], f) + f(xs[|xs| - 1])
  }

  /** No element occurs twice. */
  predicate NoDup<T(==)>(xs: seq<T>)
  {
    forall i, j :: 0 <= i < j < |xs| ==> xs[i] != xs[j]
  }

  /** The elements of `xs` as a set. */
  function Elements<T>(xs: seq<T>): set<T>
  {
    set x | x in xs
  }

  /** Position of the first occurrence of `x` in `xs`. */
  function IndexOf<T(==)>(xs: seq<T>, x: T): (i: nat)
    requires x in xs
    ensures i < |xs| && xs[i] == x
    ensures forall j :: 0 <= j < i ==> xs[j] != x
  {
    if xs[0] == x then 0 else IndexOf(xs[1..], x) + 1
  }

  /** Keeps the first occurrence of every element, in order of first
      appearance: the `if !v.contains(&x) { v.push(x) }` loop. */
  function Dedup<T(==)>(xs: seq<T>): (r: seq<T>)
    ensures NoDup(r)
    ensures forall x :: x in r ==> x in xs
    ensures forall x :: x in xs ==> x in r
    ensures |r| <= |xs|
  {
    if |xs| == 0 then []
    else
      var seen := Dedup(xs[..|xs| - 1]);
      assert xs == xs[..|xs| - 1] + [xs[|xs| - 1]];
      if xs[|xs| - 1] in seen then seen else seen + [xs[|xs| - 1]]
  }

  /** How many integers lie in `lo..=hi`. */
  function Span(lo: int, hi: int): nat
  {
    if lo <= hi then hi - lo + 1 else 0
  }

  /** The integers from `lo` to `hi` inclusive, ascending; empty when `lo > hi`. */
  function Range(lo: int, hi: int): seq<int>
  {
    seq(Span(lo, hi), i requires 0 <= i < Span(lo, hi) => lo + i)
  }

  // ---------------------------------------------------------------------------
  // Count, Filter and Sum

  lemma {:induction false} CountAppend<T>(a: seq<T>, b: seq<T>, p: T -> bool)
    ensures Count(a + b, p) == Count(a, p) + Count(b, p)
    decreases |b|
  {
    if |b| == 0 {
      assert a + b == a;
    } else {
      var b' := b[..|b| - 1];
      assert (a + b)[..|a + b| - 1] == a + b';
      CountAppend(a, b', p);
    }
  }

  lemma {:induction false} FilterAppend<T>(a: seq<T>, b: seq<T>, p: T -> bool)
    ensures Filter(a + b, p) == Filter(a, p) + Filter(b, p)
    decreases |b|
  {
    if |b| == 0 {
      assert a + b == a;
    } else {
      var b' := b[..|b| - 1];
      assert (a + b)[..|a + b| - 1] == a + b';
      FilterAppend(a, b', p);
    }
  }

  lemma {:induction false} SumAppend<T>(a: seq<T>, b: seq<T>, f: T -> int)
    ensures Sum(a + b, f) == Sum(a, f) + Sum(b, f)
    decreases |b|
  {
    if |b| == 0 {
      assert a + b == a;
    } else {
      var b' := b[..|b| - 1];
      assert (a + b)[..|a + b| - 1] == a + b';
      SumAppend(a, b', f);
    }
  }

  /** Counting from the front: the first element and the rest. */
  lemma CountCons<T>(x: T, xs: seq<T>, p: T -> bool)
    ensures Count([x] + xs, p) == (if p(x) then 1 else 0) + Count(xs, p)
  {
    CountAppend([x], xs, p);
    assert [x][..0] == [];
  }

  /** Summing from the front: the first element and the rest. */
  lemma SumCons<T>(x: T, xs: seq<T>, f: T -> int)
    ensures Sum([x] + xs, f) == f(x) + Sum(xs, f)
  {
    SumAppend([x], xs, f);
    assert [x][..0] == [];
  }

  /** One more element adds one to the count exactly when it satisfies `p`. */
  lemma CountSnoc<T>(xs: seq<T>, p: T -> bool)
    requires |xs| > 0
    ensures Count(xs, p) == Count(xs[..|xs| - 1], p) + (if p(xs[|xs| - 1]) then 1 else 0)
  {
  }

  /** Two predicates that agree on the elements of `xs` count alike. */
  lemma {:induction false} CountCongruent<T>(xs: seq<T>, p: T -> bool, q: T -> bool)
    requires forall x :: x in xs ==> (p(x) <==> q(x))
    ensures Count(xs, p) == Count(xs, q)
    decreases |xs|
  {
    if |xs| > 0 {
      CountCongruent(xs[..|xs| - 1], p, q);
    }
  }

  /** Two predicates that agree on the elements of `xs` filter alike. */
  lemma {:induction false} FilterCongruent<T>(xs: seq<T>, p: T -> bool, q: T -> bool)
    requires forall x :: x in xs ==> (p(x) <==> q(x))
    ensures Filter(xs, p) == Filter(xs, q)
    decreases |xs|
  {
    if |xs| > 0 {
      FilterCongruent(xs[..|xs| - 1], p, q);
    }
  }

  /** When `p` holds exactly where one of two exclusive predicates holds,
      its count is the sum of theirs. */
  lemma {:induction false} CountSplit<T>(xs: seq<T>, p: T -> bool, q: T -> bool, r: T -> bool)
    requires forall x :: x in xs ==> (p(x) <==> q(x) || r(x)) && !(q(x) && r(x))
    ensures Count(xs, p) == Count(xs, q) + Count(xs, r)
    decreases |xs|
  {
    if |xs| > 0 {
      CountSplit(xs[..|xs| - 1], p, q, r);
    }
  }

  /** A predicate implied by another counts at least as many elements. */
  lemma {:induction false} CountMonotone<T>(xs: seq<T>, p: T -> bool, q: T -> bool)
    requires forall x :: x in xs ==> p(x) ==> q(x)
    ensures Count(xs, p) <= Count(xs, q)
    decreases |xs|
  {
    if |xs| > 0 {
      CountMonotone(xs[..|xs| - 1], p, q);
    }
  }

  /** An element that satisfies `p` is counted. */
  lemma {:induction false} CountWitness<T>(xs: seq<T>, x: T, p: T -> bool)
    requires x in xs && p(x)
    ensures Count(xs, p) >= 1
    decreases |xs|
  {
    if xs[|xs| - 1] != x {
      assert xs == xs[..|xs| - 1] + [xs[|xs| - 1]];
      CountWitness(xs[..|xs| - 1], x, p);
    }
  }

  /** A predicate that holds nowhere in `xs` counts zero and filters to nothing. */
  lemma {:induction false} FilterNone<T>(xs: seq<T>, p: T -> bool)
    requires forall x :: x in xs ==> !p(x)
    ensures Filter(xs, p) == []
    decreases |xs|
  {
    if |xs| > 0 {
      FilterNone(xs[..|xs| - 1], p);
    }
  }

  /** A predicate that holds everywhere in `xs` keeps all of it. */
  lemma {:induction false} FilterAll<T>(xs: seq<T>, p: T -> bool)
    requires forall x :: x in xs ==> p(x)
    ensures Filter(xs, p) == xs
    decreases |xs|
  {
    if |xs| > 0 {
      FilterAll(xs[..|xs| - 1], p);
      assert xs == xs[..|xs| - 1] + [xs[|xs| - 1]];
    }
  }

  /** Counting `p` is summing its 0/1 indicator. */
  lemma {:induction false} CountAsSum<T>(xs: seq<T>, p: T -> bool)
    ensures Count(xs, p) == Sum(xs, (x: T) => if p(x) then 1 else 0)
    decreases |xs|
  {
    if |xs| > 0 {
      CountAsSum(xs[..|xs| - 1], p);
    }
  }

  /** Counting does not depend on the order of the elements. */
  lemma CountPermutation<T>(xs: seq<T>, ys: seq<T>, p: T -> bool)
    requires multiset(xs) == multiset(ys)
    ensures Count(xs, p) == Count(ys, p)
  {
    CountAsSum(xs, p);
    CountAsSum(ys, p);
    SumPermutation(xs, ys, (x: T) => if p(x) then 1 else 0);
  }

  /** Taking out the element at `i` leaves the rest of the multiset. */
  lemma RemoveAt<T>(ys: seq<T>, i: nat)
    requires i < |ys|
    ensures ys == ys[..i] + [ys[i]] + ys[i + 1..]
    ensures multiset(ys[..i] + ys[i + 1..]) == multiset(ys) - multiset{ys[i]}
  {
    assert ys == ys[..i] + [ys[i]] + ys[i + 1..];
  }

  /** The sum over `ys` is the sum without the element at `i`, plus it. */
  lemma SumRemoveAt<T>(ys: seq<T>, i: nat, f: T -> int)
    requires i < |ys|
    ensures Sum(ys, f) == Sum(ys[..i] + ys[i + 1..], f) + f(ys[i])
  {
    RemoveAt(ys, i);
    SumAppend(ys[..i] + [ys[i]], ys[i + 1..], f);
    SumAppend(ys[..i], [ys[i]], f);
    SumAppend(ys[..i], ys[i + 1..], f);
    assert [ys[i]][..0] == [];
  }

  /** In a permutation of `xs`, an occurrence `i` of the last element of
      `xs`, such that the remaining elements on both sides still match. */
  lemma MatchLast<T>(xs: seq<T>, ys: seq<T>) returns (i: nat)
    requires multiset(xs) == multiset(ys) && |xs| > 0
    ensures i < |ys| && ys[i] == xs[|xs| - 1]
    ensures multiset(xs[..|xs| - 1]) == multiset(ys[..i] + ys[i + 1..])
  {
    var x := xs[|xs| - 1];
    assert xs == xs[..|xs| - 1] + [x];
    assert x in multiset(ys);
    i :| 0 <= i < |ys| && ys[i] == x;
    RemoveAt(ys, i);
  }

  /** Summing does not depend on the order of the elements. */
  lemma {:induction false} SumPermutation<T>(xs: seq<T>, ys: seq<T>, f: T -> int)
    requires multiset(xs) == multiset(ys)
    ensures Sum(xs, f) == Sum(ys, f)
    decreases |xs|
  {
    if |xs| == 0 {
      assert |ys| == |multiset(ys)| == 0;
    } else {
      var i := MatchLast(xs, ys);
      SumPermutation(xs[..|xs| - 1], ys[..i] + ys[i + 1..], f);
      SumRemoveAt(ys, i, f);
      assert xs == xs[..|xs| - 1] + [xs[|xs| - 1]];
    }
  }

  /** Counting `q` among the elements kept by `p` is counting `p`-and-`q`. */
  lemma {:induction false} CountFilter<T>(xs: seq<T>, p: T -> bool, q: T -> bool, pq: T -> bool)
    requires forall x :: x in xs ==> (pq(x) <==> p(x) && q(x))
    ensures Count(Filter(xs, p), q) == Count(xs, pq)
    decreases |xs|
  {
    if |xs| > 0 {
      var xs' := xs[..|xs| - 1];
      var x := xs[|xs| - 1];
      CountFilter(xs', p, q, pq);
      CountAppend(Filter(xs', p), if p(x) then [x] else [], q);
    }
  }

  /** Summing `f` over the elements kept by `p` is summing `f` where `p`
      holds and zero elsewhere. */
  lemma {:induction false} SumFilter<T>(xs: seq<T>, p: T -> bool, f: T -> int, g: T -> int)
    requires forall x :: x in xs ==> g(x) == (if p(x) then f(x) else 0)
    ensures Sum(Filter(xs, p), f) == Sum(xs, g)
    decreases |xs|
  {
    if |xs| > 0 {
      var xs' := xs[..|xs| - 1];
      var x := xs[|xs| - 1];
      SumFilter(xs', p, f, g);
      SumAppend(Filter(xs', p), if p(x) then [x] else [], f);
      assert [x][..0] == [];
    }
  }

  /** Sums of two equally long sequences agree when they agree term by term. */
  lemma {:induction false} SumMap<A, B>(xs: seq<A>, ys: seq<B>, f: A -> int, g: B -> int)
    requires |xs| == |ys|
    requires forall i :: 0 <= i < |xs| ==> f(xs[i]) == g(ys[i])
    ensures Sum(xs, f) == Sum(ys, g)
    decreases |xs|
  {
    if |xs| > 0 {
      SumMap(xs[..|xs| - 1], ys[..|ys| - 1], f, g);
    }
  }

  /** A sum of doubled terms is the double of the sum. */
  lemma {:induction false} SumDouble<T>(xs: seq<T>, f: T -> int, g: T -> int)
    requires forall x :: x in xs ==> f(x) == 2 * g(x)
    ensures Sum(xs, f) == 2 * Sum(xs, g)
    decreases |xs|
  {
    if |xs| > 0 {
      SumDouble(xs[..|xs| - 1], f, g);
    }
  }

  /** The sum of a termwise sum is the sum of the sums. */
  lemma {:induction false} SumAdd<T>(xs: seq<T>, f: T -> int, g: T -> int, h: T -> int)
    requires forall x :: x in xs ==> h(x) == f(x) + g(x)
    ensures Sum(xs, h) == Sum(xs, f) + Sum(xs, g)
    decreases |xs|
  {
    if |xs| > 0 {
      SumAdd(xs[..|xs| - 1], f, g, h);
    }
  }

  // ---------------------------------------------------------------------------
  // Dedup

  /** The first occurrence of an element of `a` in `a + b` lies in `a`. */
  lemma {:induction false} IndexOfPrefix<T>(a: seq<T>, b: seq<T>, x: T)
    requires x in a
    ensures IndexOf(a + b, x) == IndexOf(a, x)
  {
    var i := IndexOf(a, x);
    var k := IndexOf(a + b, x);
    assert (a + b)[i] == x;
    assert forall j :: 0 <= j < |a| ==> (a + b)[j] == a[j];
  }

  /** Dedup keeps elements in order of first appearance in the input. */
  lemma {:induction false} DedupFirstAppearance<T>(xs: seq<T>)
    ensures forall i, j :: 0 <= i < j < |Dedup(xs)| ==>
              IndexOf(xs, Dedup(xs)[i]) < IndexOf(xs, Dedup(xs)[j])
    decreases |xs|
  {
    if |xs| > 0 {
      var p := xs[..|xs| - 1];
      var x := xs[|xs| - 1];
      assert xs == p + [x];
      DedupFirstAppearance(p);
      var seen := Dedup(p);
      forall y | y in seen
        ensures IndexOf(xs, y) == IndexOf(p, y) < |p|
      {
        IndexOfPrefix(p, [x], y);
      }
      if x !in seen {
        assert x !in p;
        var k := IndexOf(xs, x);
        assert forall j :: 0 <= j < |p| ==> xs[j] == p[j];
        assert k == |p|;
      }
    }
  }

  /** Dedup leaves a list without repetitions unchanged. */
  lemma {:induction false} DedupOfNoDup<T>(xs: seq<T>)
    requires NoDup(xs)
    ensures Dedup(xs) == xs
    decreases |xs|
  {
    if |xs| > 0 {
      var p := xs[..|xs| - 1];
      assert NoDup(p);
      DedupOfNoDup(p);
      assert xs == p + [xs[|xs| - 1]];
    }
  }

  /** Dedup shortens its input exactly when the input repeats an element. */
  lemma {:induction false} DedupLength<T>(xs: seq<T>)
    ensures |Dedup(xs)| == |xs| <==> NoDup(xs)
    decreases |xs|
  {
    if NoDup(xs) {
      DedupOfNoDup(xs);
    } else if |xs| > 0 {
      var p := xs[..|xs| - 1];
      var x := xs[|xs| - 1];
      DedupLength(p);
      if |Dedup(xs)| == |xs| {
        assert |Dedup(p)| == |p| && x !in Dedup(p);
        assert NoDup(xs) by {
          forall i, j | 0 <= i < j < |xs|
            ensures xs[i] != xs[j]
          {
            if j < |xs| - 1 {
              assert xs[i] == p[i] && xs[j] == p[j];
            } else {
              assert xs[i] == p[i];
            }
          }
        }
      }
    }
  }

  /** Appending elements that were already seen does not change Dedup. */
  lemma {:induction false} DedupIgnoresSeen<T>(xs: seq<T>, ys: seq<T>)
    requires forall y :: y in ys ==> y in xs
    ensures Dedup(xs + ys) == Dedup(xs)
    decreases |ys|
  {
    if |ys| > 0 {
      var ys' := ys[..|ys| - 1];
      assert (xs + ys)[..|xs + ys| - 1] == xs + ys';
      DedupIgnoresSeen(xs, ys');
    } else {
      assert xs + ys == xs;
    }
  }

  /** A list without repetitions has as many elements as its set. */
  lemma {:induction false} NoDupCardinality<T>(xs: seq<T>)
    requires NoDup(xs)
    ensures |Elements(xs)| == |xs|
    decreases |xs|
  {
    if |xs| > 0 {
      var p := xs[..|xs| - 1];
      var x := xs[|xs| - 1];
      assert NoDup(p);
      NoDupCardinality(p);
      assert xs == p + [x];
      assert Elements(xs) == Elements(p) + {x};
      assert x !in Elements(p);
    }
  }

  /** Dedup's length is the number of distinct elements. */
  lemma DedupCardinality<T>(xs: seq<T>)
    ensures |Dedup(xs)| == |Elements(xs)|
  {
    NoDupCardinality(Dedup(xs));
    assert Elements(Dedup(xs)) == Elements(xs);
  }
}
