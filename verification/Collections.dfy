/** Options, and sums over sequences that do not depend on the order of the elements. */
module Collections {

  datatype Option<+T> = None | Some(value: T)

  /** The sum of f over the elements of a sequence. */
  function SumBy<T>(f: T -> real, s: seq<T>): real {
    if |s| == 0 then 0.0 else SumBy(f, s[..|s| - 1]) + f(s[|s| - 1])
  }

  lemma {:induction false} SumByConcat<T>(f: T -> real, a: seq<T>, b: seq<T>)
    ensures SumBy(f, a + b) == SumBy(f, a) + SumBy(f, b)
  {
    if |b| == 0 {
      assert a + b == a;
    } else {
      assert (a + b)[..|a + b| - 1] == a + b[..|b| - 1];
      SumByConcat(f, a, b[..|b| - 1]);
    }
  }

  lemma {:induction false} SumByRemove<T>(f: T -> real, s: seq<T>, i: nat)
    requires i < |s|
    ensures SumBy(f, s) == SumBy(f, s[..i] + s[i + 1..]) + f(s[i])
  {
    assert s == s[..i] + ([s[i]] + s[i + 1..]);
    SumByConcat(f, s[..i], [s[i]] + s[i + 1..]);
    SumByConcat(f, [s[i]], s[i + 1..]);
    SumByConcat(f, s[..i], s[i + 1..]);
    assert [s[i]][..0] == [];
    assert SumBy(f, [s[i]]) == SumBy(f, []) + f(s[i]);
  }

  /** Two orders of the same elements have the same sum. */
  lemma {:induction false} SumByPermutation<T>(f: T -> real, a: seq<T>, b: seq<T>)
    requires multiset(a) == multiset(b)
    ensures SumBy(f, a) == SumBy(f, b)
    decreases |a|
  {
    if |a| == 0 {
      assert |b| == |multiset(b)| == |multiset(a)| == 0;
    } else {
      var i := FindLast(a, b);
      SumByRemove(f, b, i);
      SumByPermutation(f, a[..|a| - 1], b[..i] + b[i + 1..]);
    }
  }

  lemma {:induction false} SumByNonNegative<T>(f: T -> real, s: seq<T>)
    requires forall x :: x in s ==> f(x) >= 0.0
    ensures SumBy(f, s) >= 0.0
  {
    if |s| == 0 {
    } else {
      SumByNonNegative(f, s[..|s| - 1]);
    }
  }

  lemma {:induction false} SumByMonotone<T>(f: T -> real, g: T -> real, s: seq<T>)
    requires forall x :: x in s ==> f(x) <= g(x)
    ensures SumBy(f, s) <= SumBy(g, s)
  {
    if |s| == 0 {
    } else {
      SumByMonotone(f, g, s[..|s| - 1]);
    }
  }

  lemma {:induction false} SumByAgree<T>(f: T -> real, g: T -> real, s: seq<T>)
    requires forall x :: x in s ==> f(x) == g(x)
    ensures SumBy(f, s) == SumBy(g, s)
  {
    if |s| == 0 {
    } else {
      SumByAgree(f, g, s[..|s| - 1]);
    }
  }

  function Filter<T(!new)>(p: T -> bool, s: seq<T>): (r: seq<T>)
    ensures forall x :: x in r <==> x in s && p(x)
  {
    if |s| == 0 then []
    else
      var r := Filter(p, s[..|s| - 1]);
      assert s == s[..|s| - 1] + [s[|s| - 1]];
      if p(s[|s| - 1]) then r + [s[|s| - 1]] else r
  }

  lemma {:induction false} FilterCount<T(!new)>(p: T -> bool, s: seq<T>, x: T)
    ensures multiset(Filter(p, s))[x] == if p(x) then multiset(s)[x] else 0
  {
    if |s| == 0 {
    } else {
      FilterCount(p, s[..|s| - 1], x);
      assert s == s[..|s| - 1] + [s[|s| - 1]];
    }
  }

  lemma FilterPermutation<T(!new)>(p: T -> bool, a: seq<T>, b: seq<T>)
    requires multiset(a) == multiset(b)
    ensures multiset(Filter(p, a)) == multiset(Filter(p, b))
  {
    forall x
      ensures multiset(Filter(p, a))[x] == multiset(Filter(p, b))[x]
    {
      FilterCount(p, a, x);
      FilterCount(p, b, x);
    }
  }

  function Map<T, U>(f: T -> U, s: seq<T>): (r: seq<U>)
    ensures |r| == |s| && forall i :: 0 <= i < |s| ==> r[i] == f(s[i])
  {
    if |s| == 0 then [] else Map(f, s[..|s| - 1]) + [f(s[|s| - 1])]
  }

  lemma MapConcat<T, U>(f: T -> U, a: seq<T>, b: seq<T>)
    ensures Map(f, a + b) == Map(f, a) + Map(f, b)
  {
  }

  /** Where a permutation of a sequence has the last element of that sequence. */
  lemma FindLast<T>(a: seq<T>, b: seq<T>) returns (i: nat)
    requires multiset(a) == multiset(b) && |a| > 0
    ensures i < |b| && b == b[..i] + [a[|a| - 1]] + b[i + 1..]
    ensures multiset(a[..|a| - 1]) == multiset(b[..i] + b[i + 1..])
  {
    var x := a[|a| - 1];
    assert a == a[..|a| - 1] + [x];
    assert x in multiset(b);
    i :| 0 <= i < |b| && b[i] == x;
    var l, r := b[..i], b[i + 1..];
    assert b == l + [x] + r;
    assert multiset(b) == multiset(l) + multiset{x} + multiset(r);
    assert multiset(a) == multiset(a[..|a| - 1]) + multiset{x};
    assert multiset(a[..|a| - 1]) == multiset(a) - multiset{x};
    assert multiset(l + r) == multiset(b) - multiset{x};
  }

  lemma MapMiddle<T, U>(f: T -> U, l: seq<T>, x: T, r: seq<T>)
    ensures multiset(Map(f, l + [x] + r)) == multiset(Map(f, l + r)) + multiset{f(x)}
  {
    MapConcat(f, l + [x], r);
    MapConcat(f, l, [x]);
    MapConcat(f, l, r);
    hide Map;
    assert Map(f, [x]) == [f(x)];
  }

  lemma {:induction false} MapPermutation<T, U>(f: T -> U, a: seq<T>, b: seq<T>)
    requires multiset(a) == multiset(b)
    ensures multiset(Map(f, a)) == multiset(Map(f, b))
    decreases |a|
  {
    hide Map;
    if |a| == 0 {
      assert |b| == |multiset(b)| == |multiset(a)| == 0;
      assert a == b;
    } else {
      var i := FindLast(a, b);
      var x, a', l, r := a[|a| - 1], a[..|a| - 1], b[..i], b[i + 1..];
      MapPermutation(f, a', l + r);
      MapMiddle(f, l, x, r);
      MapMiddle(f, a', x, []);
      assert a == a' + [x] + [] && a' + [] == a';
    }
  }
}
