/** Orders, stable sorting, and when a sorted list is determined by its contents. */
module Ordering {

  /** Lexicographic order of strings, by code point. */
  predicate StrLeq(a: string, b: string) {
    a == [] || (b != [] && (a[0] < b[0] || (a[0] == b[0] && StrLeq(a[1..], b[1..]))))
  }

  lemma {:induction false} StrTotal(a: string, b: string)
    ensures StrLeq(a, b) || StrLeq(b, a)
    ensures StrLeq(a, b) && StrLeq(b, a) ==> a == b
  {
    if a != [] && b != [] && a[0] == b[0] {
      StrTotal(a[1..], b[1..]);
      assert a == [a[0]] + a[1..] && b == [b[0]] + b[1..];
    }
  }

  lemma {:induction false} StrTransitive(a: string, b: string, c: string)
    requires StrLeq(a, b) && StrLeq(b, c)
    ensures StrLeq(a, c)
  {
    if a != [] && b != [] && c != [] && a[0] == b[0] == c[0] {
      StrTransitive(a[1..], b[1..], c[1..]);
    }
  }

  /** Which of two strings comes first is decided by the first place where they differ, a prefix coming first. */
  lemma {:induction false} StrLeqIff(a: string, b: string)
    ensures StrLeq(a, b) <==> a <= b || exists k :: 0 <= k < |a| && k < |b| && a[..k] == b[..k] && a[k] < b[k]
  {
    if a != [] && b != [] {
      var (x, y) := (a[1..], b[1..]);
      StrLeqIff(x, y);
      if a[0] == b[0] {
        assert x <= y <==> a <= b;
        if k :| 0 <= k < |x| && k < |y| && x[..k] == y[..k] && x[k] < y[k] {
          assert a[..k + 1] == [a[0]] + x[..k] && b[..k + 1] == [b[0]] + y[..k];
          assert a[k + 1] < b[k + 1];
        }
        if k :| 0 <= k < |a| && k < |b| && a[..k] == b[..k] && a[k] < b[k] {
          assert k > 0 && x[..k - 1] == a[..k][1..] && y[..k - 1] == b[..k][1..];
          assert x[k - 1] < y[k - 1];
        }
      } else {
        assert a[0] < b[0] ==> a[..0] == b[..0];
        forall k | 0 <= k < |a| && k < |b| && a[..k] == b[..k] { SameHead(a, b, k); }
      }
    }
  }

  lemma SameHead(a: string, b: string, k: nat)
    requires k < |a| && k < |b| && a[..k] == b[..k]
    ensures k > 0 ==> a[0] == b[0]
  {
    assert k > 0 ==> a[..k][0] == b[..k][0];
  }

  /** A total preorder: what sorting by a key needs. */
  ghost predicate Preorder<T(!new)>(leq: (T, T) -> bool) {
    && (forall x, y :: leq(x, y) || leq(y, x))
    && (forall x, y, z :: leq(x, y) && leq(y, z) ==> leq(x, z))
  }

  ghost predicate Sorted<T>(xs: seq<T>, leq: (T, T) -> bool) {
    forall i, j :: 0 <= i < j < |xs| ==> leq(xs[i], xs[j])
  }

  /** Elements that compare equal are the same element. */
  ghost predicate Keyed<T>(xs: seq<T>, leq: (T, T) -> bool) {
    forall x, y :: x in xs && y in xs && leq(x, y) && leq(y, x) ==> x == y
  }

  function Insert<T>(x: T, xs: seq<T>, leq: (T, T) -> bool): (r: seq<T>)
    ensures multiset(r) == multiset{x} + multiset(xs)
  {
    if xs == [] then [x]
    else if leq(x, xs[0]) then
      assert xs == [xs[0]] + xs[1..];
      [x] + xs
    else
      assert xs == [xs[0]] + xs[1..];
      [xs[0]] + Insert(x, xs[1..], leq)
  }

  /** A stable sort: equal keys keep their order. */
  function Sort<T>(xs: seq<T>, leq: (T, T) -> bool): (r: seq<T>)
    ensures multiset(r) == multiset(xs)
    ensures |r| == |xs|
  {
    if xs == [] then []
    else
      assert xs == [xs[0]] + xs[1..];
      var r := Insert(xs[0], Sort(xs[1..], leq), leq);
      assert |multiset(r)| == |multiset(xs)|;
      r
  }

  lemma SameElements<T>(a: seq<T>, b: seq<T>)
    requires multiset(a) == multiset(b)
    ensures |a| == |b| && forall x :: x in a <==> x in b
  {
    assert |multiset(a)| == |a| && |multiset(b)| == |b|;
    forall x
      ensures x in a <==> x in b
    {
      assert (x in a <==> x in multiset(a)) && (x in b <==> x in multiset(b));
    }
  }

  /** The elements left when the one at `k` is taken out. */
  lemma WithoutAt<T>(b: seq<T>, k: nat)
    requires k < |b|
    ensures multiset(b[..k] + b[k + 1..]) == multiset(b) - multiset{b[k]}
  {
    assert b == b[..k] + [b[k]] + b[k + 1..];
  }

  lemma {:induction false} InsertSorted<T(!new)>(x: T, xs: seq<T>, leq: (T, T) -> bool)
    requires Preorder(leq) && Sorted(xs, leq)
    ensures Sorted(Insert(x, xs, leq), leq)
  {
    if xs != [] {
      if leq(x, xs[0]) {
        forall i | 0 <= i < |xs|
          ensures leq(x, xs[i])
        {
          assert leq(x, xs[0]) && (i > 0 ==> leq(xs[0], xs[i]));
        }
      } else {
        InsertSorted(x, xs[1..], leq);
        var r := Insert(x, xs[1..], leq);
        SameElements(r, [x] + xs[1..]);
        forall i | 0 <= i < |r|
          ensures leq(xs[0], r[i])
        {
          assert r[i] in r;
          if r[i] != x { var k :| 0 <= k < |xs[1..]| && xs[1..][k] == r[i]; assert xs[1..][k] == xs[k + 1]; }
        }
      }
    }
  }

  lemma {:induction false} SortSorts<T(!new)>(xs: seq<T>, leq: (T, T) -> bool)
    requires Preorder(leq)
    ensures Sorted(Sort(xs, leq), leq)
  {
    if xs != [] {
      SortSorts(xs[1..], leq);
      InsertSorted(xs[0], Sort(xs[1..], leq), leq);
    }
  }

  /** Sorting what is sorted changes nothing. */
  lemma {:induction false} SortStable<T>(xs: seq<T>, leq: (T, T) -> bool)
    requires Sorted(xs, leq)
    ensures Sort(xs, leq) == xs
  {
    if xs != [] {
      SortStable(xs[1..], leq);
      if |xs| > 1 { assert leq(xs[0], xs[1]); }
    }
  }

  /** A sorted list without ties is determined by its elements. */
  lemma {:induction false} SortedUnique<T>(a: seq<T>, b: seq<T>, leq: (T, T) -> bool)
    requires Sorted(a, leq) && Sorted(b, leq) && multiset(a) == multiset(b) && Keyed(a, leq)
    requires forall x :: x in a ==> leq(x, x)
    ensures a == b
  {
    SameElements(a, b);
    if a != [] {
      HeadsEqual(a, b, leq);
      TailsPermute(a, b);
      TailKeyed(a, leq);
      SortedUnique(a[1..], b[1..], leq);
      assert a == [a[0]] + a[1..] && b == [b[0]] + b[1..];
    }
  }

  lemma TailsPermute<T>(a: seq<T>, b: seq<T>)
    requires multiset(a) == multiset(b) && a != [] && b != [] && a[0] == b[0]
    ensures multiset(a[1..]) == multiset(b[1..])
  {
    HeadOff(a);
    HeadOff(b);
  }

  lemma HeadOff<T>(a: seq<T>)
    requires a != []
    ensures multiset(a[1..]) == multiset(a) - multiset{a[0]}
  {
    assert a == [a[0]] + a[1..];
  }

  lemma TailKeyed<T>(a: seq<T>, leq: (T, T) -> bool)
    requires a != [] && Keyed(a, leq) && forall x :: x in a ==> leq(x, x)
    ensures Keyed(a[1..], leq) && forall x :: x in a[1..] ==> leq(x, x)
  {
    assert forall x :: x in a[1..] ==> x in a;
  }

  lemma HeadsEqual<T>(a: seq<T>, b: seq<T>, leq: (T, T) -> bool)
    requires Sorted(a, leq) && Sorted(b, leq) && Keyed(a, leq) && a != [] && b != []
    requires (forall x :: x in a ==> leq(x, x)) && forall x :: x in a <==> x in b
    ensures a[0] == b[0]
  {
    assert a[0] in a && b[0] in b;
    assert a[0] in b && b[0] in a;
    var i :| 0 <= i < |b| && b[i] == a[0];
    var j :| 0 <= j < |a| && a[j] == b[0];
    assert leq(a[0], a[j]) && leq(b[0], b[i]);
  }

  ghost predicate NoDup<T>(xs: seq<T>) {
    forall i, j :: 0 <= i < j < |xs| ==> xs[i] != xs[j]
  }

  lemma {:induction false} NoDupCount<T>(xs: seq<T>)
    ensures NoDup(xs) <==> forall x :: multiset(xs)[x] <= 1
  {
    if xs != [] {
      NoDupCount(xs[1..]);
      HeadOff(xs);
      assert xs == [xs[0]] + xs[1..];
      if forall x :: multiset(xs)[x] <= 1 {
        assert multiset(xs)[xs[0]] <= 1 && xs[0] !in multiset(xs[1..]);
        assert xs[0] !in xs[1..];
        assert forall x :: multiset(xs[1..])[x] <= multiset(xs)[x];
      }
      if NoDup(xs) {
        assert xs[0] !in xs[1..];
        assert forall x :: x != xs[0] ==> multiset(xs)[x] == multiset(xs[1..])[x];
        assert forall i, j :: 0 <= i < j < |xs[1..]| ==> xs[1..][i] == xs[i + 1] && xs[1..][j] == xs[j + 1];
      }
    }
  }

  /** A permutation of a list without duplicates has none. */
  lemma NoDupPermutes<T>(a: seq<T>, b: seq<T>)
    requires multiset(a) == multiset(b) && NoDup(a)
    ensures NoDup(b)
  {
    NoDupCount(a);
    NoDupCount(b);
  }

  function Map<T, U>(f: T -> U, xs: seq<T>): (ys: seq<U>)
    ensures |ys| == |xs|
    ensures forall i :: 0 <= i < |xs| ==> ys[i] == f(xs[i])
  {
    if xs == [] then [] else [f(xs[0])] + Map(f, xs[1..])
  }

  lemma {:induction false} MapAppend<T, U>(f: T -> U, a: seq<T>, b: seq<T>)
    ensures Map(f, a + b) == Map(f, a) + Map(f, b)
  {
  }

  /** Mapping permuted lists gives permuted lists. */
  lemma {:induction false} MapPermutes<T, U>(f: T -> U, a: seq<T>, b: seq<T>)
    requires multiset(a) == multiset(b)
    ensures multiset(Map(f, a)) == multiset(Map(f, b))
    decreases |a|
  {
    SameElements(a, b);
    if a != [] {
      assert a[0] in b;
      var k :| 0 <= k < |b| && b[k] == a[0];
      var c := b[..k] + b[k + 1..];
      HeadOff(a);
      WithoutAt(b, k);
      MapPermutes(f, a[1..], c);
      MapWithout(f, b, k);
    }
  }

  lemma MapWithout<T, U>(f: T -> U, b: seq<T>, k: nat)
    requires k < |b|
    ensures multiset(Map(f, b)) == multiset(Map(f, b[..k] + b[k + 1..])) + multiset{f(b[k])}
  {
    hide *;
    var c := b[..k] + b[k + 1..];
    var m, n := Map(f, b), Map(f, c);
    forall i | 0 <= i < |n|
      ensures n[i] == (m[..k] + m[k + 1..])[i]
    {
      assert c[i] == if i < k then b[i] else b[i + 1];
    }
    assert n == m[..k] + m[k + 1..];
    WithoutAt(m, k);
    assert m[k] in multiset(m);
  }
}
