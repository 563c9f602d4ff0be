/** Order-preserving filters, prefixes and subsequences over sequences. */
module Seqs {

  /** The elements of `s` that satisfy `p`, in their original order. */
  function Filter<T>(s: seq<T>, p: T -> bool): (r: seq<T>)
    ensures |r| <= |s|
    ensures forall x :: x in r ==> x in s && p(x)
  {
    if s == [] then [] else (if p(s[0]) then [s[0]] else []) + Filter(s[1..], p)
  }

  /** The first `n` elements of `s` (all of them when `s` is shorter): Python's `s[:n]`. */
  function Take<T>(s: seq<T>, n: nat): (r: seq<T>)
    ensures |r| == if n < |s| then n else |s|
    ensures forall i :: 0 <= i < |r| ==> r[i] == s[i]
  {
    if n < |s| then s[..n] else s
  }

  /** The last `n` elements of `s` (all of them when `s` is shorter): Python's `s[-n:]` for n > 0. */
  function Last<T>(s: seq<T>, n: nat): (r: seq<T>)
    ensures |r| == if n < |s| then n else |s|
    ensures forall i :: 0 <= i < |r| ==> r[i] == s[|s| - |r| + i]
  {
    if n < |s| then s[|s| - n..] else s
  }

  /** `xs` is obtained from `ys` by deleting elements (greedy matching decides it). */
  predicate IsSubsequence<T(==)>(xs: seq<T>, ys: seq<T>)
    decreases |ys|
  {
    xs == [] || (ys != [] && if xs[0] == ys[0] then IsSubsequence(xs[1..], ys[1..]) else IsSubsequence(xs, ys[1..]))
  }

  lemma {:induction false} FilterAppend<T>(a: seq<T>, b: seq<T>, p: T -> bool)
    ensures Filter(a + b, p) == Filter(a, p) + Filter(b, p)
  {
    if a == [] {
      assert a + b == b;
    } else {
      assert (a + b)[1..] == a[1..] + b;
      FilterAppend(a[1..], b, p);
    }
  }

  lemma FilterSnoc<T>(s: seq<T>, x: T, p: T -> bool)
    ensures Filter(s + [x], p) == Filter(s, p) + if p(x) then [x] else []
  {
    FilterAppend(s, [x], p);
    assert Filter([x], p) == (if p(x) then [x] else []) + Filter([], p);
  }

  lemma {:induction false} FilterMembers<T>(s: seq<T>, p: T -> bool, x: T)
    ensures x in Filter(s, p) <==> x in s && p(x)
  {
    if s != [] {
      FilterMembers(s[1..], p, x);
      assert x in s <==> x == s[0] || x in s[1..];
    }
  }

  /** A filter keeps the relative order of what it keeps. */
  lemma {:induction false} FilterIsSubsequence<T>(s: seq<T>, p: T -> bool)
    ensures IsSubsequence(Filter(s, p), s)
  {
    if s != [] {
      FilterIsSubsequence(s[1..], p);
      var f := Filter(s[1..], p);
      if p(s[0]) {
        assert Filter(s, p) == [s[0]] + f;
        assert ([s[0]] + f)[1..] == f;
      } else {
        assert Filter(s, p) == f;
        if f != [] {
          assert p(f[0]) by { assert f[0] in f; }
          assert f[0] != s[0];
        }
      }
    }
  }

  /** A prefix of a subsequence is a subsequence. */
  lemma {:induction false} SubsequenceOfPrefix<T>(xs: seq<T>, n: nat, ys: seq<T>)
    requires IsSubsequence(xs, ys)
    ensures IsSubsequence(Take(xs, n), ys)
    decreases |ys|
  {
    var t := Take(xs, n);
    if t != [] && xs != [] {
      assert t[0] == xs[0];
      if xs[0] == ys[0] {
        SubsequenceOfPrefix(xs[1..], n - 1, ys[1..]);
        assert Take(xs[1..], n - 1) == t[1..];
      } else {
        SubsequenceOfPrefix(xs, n, ys[1..]);
      }
    }
  }

  // ----- folds over a prefix, as a loop accumulates them --------------------------

  /** The union of `f(x)` over the first `n` elements of `xs`. */
  function UnionUpTo<X, Y>(xs: seq<X>, n: nat, f: X -> set<Y>): set<Y>
    requires n <= |xs|
  {
    if n == 0 then {} else UnionUpTo(xs, n - 1, f) + f(xs[n - 1])
  }

  lemma UnionStep<X, Y>(xs: seq<X>, n: nat, f: X -> set<Y>)
    requires n < |xs|
    ensures UnionUpTo(xs, n + 1, f) == UnionUpTo(xs, n, f) + f(xs[n])
  {
  }

  lemma {:induction false} UnionPrefix<X, Y>(a: seq<X>, b: seq<X>, n: nat, f: X -> set<Y>)
    requires n <= |a|
    ensures UnionUpTo(a + b, n, f) == UnionUpTo(a, n, f)
  {
    if n > 0 {
      UnionPrefix(a, b, n - 1, f);
      assert (a + b)[n - 1] == a[n - 1];
    }
  }

  /** What the whole of `a + b` contributes is what `a` and `b` contribute. */
  lemma {:induction false} UnionAppend<X, Y>(a: seq<X>, b: seq<X>, n: nat, f: X -> set<Y>)
    requires n <= |b|
    ensures UnionUpTo(a + b, |a| + n, f) == UnionUpTo(a, |a|, f) + UnionUpTo(b, n, f)
  {
    if n == 0 {
      UnionPrefix(a, b, |a|, f);
    } else {
      UnionAppend(a, b, n - 1, f);
      assert (a + b)[|a| + n - 1] == b[n - 1];
    }
  }

  /** The union of `f(x)` over all of `xs`. */
  function UnionOf<X, Y>(xs: seq<X>, f: X -> set<Y>): set<Y>
  {
    UnionUpTo(xs, |xs|, f)
  }

  lemma UnionOfAppend<X, Y>(a: seq<X>, b: seq<X>, f: X -> set<Y>)
    ensures UnionOf(a + b, f) == UnionOf(a, f) + UnionOf(b, f)
  {
    UnionAppend(a, b, |b|, f);
  }

  lemma UnionOfSingle<X, Y>(x: X, f: X -> set<Y>)
    ensures UnionOf([x], f) == f(x)
  {
    assert UnionUpTo([x], 0, f) == {};
  }

  lemma UnionOfPair<X, Y>(x: X, y: X, f: X -> set<Y>)
    ensures UnionOf([x, y], f) == f(x) + f(y)
  {
    assert UnionUpTo([x, y], 1, f) == f(x);
  }

  /** Each element's contribution is part of the union. */
  lemma {:induction false} UnionMember<X, Y>(xs: seq<X>, n: nat, k: nat, f: X -> set<Y>)
    requires k < n <= |xs|
    ensures f(xs[k]) <= UnionUpTo(xs, n, f)
  {
    if k < n - 1 {
      UnionMember(xs, n - 1, k, f);
    }
  }

  /** The concatenation of `f(x)` over the first `n` elements of `xs`, in order. */
  function ConcatUpTo<X, Y>(xs: seq<X>, n: nat, f: X -> seq<Y>): seq<Y>
    requires n <= |xs|
  {
    if n == 0 then [] else ConcatUpTo(xs, n - 1, f) + f(xs[n - 1])
  }

  lemma ConcatStep<X, Y>(xs: seq<X>, n: nat, f: X -> seq<Y>)
    requires n < |xs|
    ensures ConcatUpTo(xs, n + 1, f) == ConcatUpTo(xs, n, f) + f(xs[n])
  {
  }

  lemma {:induction false} ConcatPrefix<X, Y>(a: seq<X>, b: seq<X>, n: nat, f: X -> seq<Y>)
    requires n <= |a|
    ensures ConcatUpTo(a + b, n, f) == ConcatUpTo(a, n, f)
  {
    if n > 0 {
      ConcatPrefix(a, b, n - 1, f);
      assert (a + b)[n - 1] == a[n - 1];
    }
  }

  lemma {:induction false} ConcatAppend<X, Y>(a: seq<X>, b: seq<X>, n: nat, f: X -> seq<Y>)
    requires n <= |b|
    ensures ConcatUpTo(a + b, |a| + n, f) == ConcatUpTo(a, |a|, f) + ConcatUpTo(b, n, f)
  {
    if n == 0 {
      ConcatPrefix(a, b, |a|, f);
    } else {
      ConcatAppend(a, b, n - 1, f);
      assert (a + b)[|a| + n - 1] == b[n - 1];
    }
  }

  /** The concatenation of `f(x)` over all of `xs`, in order. */
  function ConcatOf<X, Y>(xs: seq<X>, f: X -> seq<Y>): seq<Y>
  {
    ConcatUpTo(xs, |xs|, f)
  }

  lemma ConcatOfSnoc<X, Y>(a: seq<X>, x: X, f: X -> seq<Y>)
    ensures ConcatOf(a + [x], f) == ConcatOf(a, f) + f(x)
  {
    ConcatPrefix(a, [x], |a|, f);
    assert (a + [x])[|a|] == x;
  }

  lemma ConcatOfPair<X, Y>(x: X, y: X, f: X -> seq<Y>)
    ensures ConcatOf([x, y], f) == f(x) + f(y)
  {
    assert ConcatUpTo([x, y], 1, f) == f(x);
  }

  /** How many of the first `n` elements of `xs` satisfy `p`. */
  function CountUpTo<X>(xs: seq<X>, n: nat, p: X -> bool): (c: nat)
    requires n <= |xs|
    ensures c <= n
  {
    if n == 0 then 0 else CountUpTo(xs, n - 1, p) + if p(xs[n - 1]) then 1 else 0
  }

  lemma {:induction false} CountPrefix<X>(a: seq<X>, b: seq<X>, n: nat, p: X -> bool)
    requires n <= |a|
    ensures CountUpTo(a + b, n, p) == CountUpTo(a, n, p)
  {
    if n > 0 {
      CountPrefix(a, b, n - 1, p);
      assert (a + b)[n - 1] == a[n - 1];
    }
  }

  /** How many elements of `xs` satisfy `p`. */
  function CountOf<X>(xs: seq<X>, p: X -> bool): (c: nat)
    ensures c <= |xs|
  {
    CountUpTo(xs, |xs|, p)
  }

  lemma CountOfSnoc<X>(a: seq<X>, x: X, p: X -> bool)
    ensures CountOf(a + [x], p) == CountOf(a, p) + if p(x) then 1 else 0
  {
    CountPrefix(a, [x], |a|, p);
    assert (a + [x])[|a|] == x;
  }
}
