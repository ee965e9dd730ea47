/** Small sequence vocabulary shared by the three apps: an optional value,
    `Array.prototype.filter`, duplicate-freedom and order-preserving
    sub-sequences. */
module Basics {

  datatype Option<T> = None | Some(value: T)

  /** `s.filter(p)`: the elements of `s` satisfying `p`, in their original order. */
  function Filter<T>(s: seq<T>, p: T -> bool): (r: seq<T>)
    ensures |r| <= |s|
  {
    if s == [] then []
    else (if p(s[0]) then [s[0]] else []) + Filter(s[1..], p)
  }

  /** The survivors of a filter are exactly the elements satisfying the
      predicate, each as often as it occurs in the input. */
  lemma {:induction false} FilterMembers<T>(s: seq<T>, p: T -> bool)
    ensures forall x :: x in Filter(s, p) <==> x in s && p(x)
    ensures forall x :: multiset(Filter(s, p))[x] == if p(x) then multiset(s)[x] else 0
  {
    if s != [] {
      FilterMembers(s[1..], p);
      assert s == [s[0]] + s[1..];
    }
  }

  /** `a` is obtained from `b` by deleting elements (order is kept). */
  predicate IsSubsequence<T(==)>(a: seq<T>, b: seq<T>)
    decreases |b|
  {
    if a == [] then true
    else if b == [] then false
    else if a[0] == b[0] then IsSubsequence(a[1..], b[1..])
    else IsSubsequence(a, b[1..])
  }

  /** Every sequence is a sub-sequence of itself. */
  lemma {:induction false} SelfSubsequence<T>(s: seq<T>)
    ensures IsSubsequence(s, s)
  {
    if s != [] {
      SelfSubsequence(s[1..]);
    }
  }

  lemma {:induction false} SubsequenceOfTail<T>(a: seq<T>, b: seq<T>)
    requires |b| > 0 && IsSubsequence(a, b[1..])
    ensures IsSubsequence(a, b)
    decreases |a| + |b|
  {
    if a != [] && a[0] == b[0] {
      // the greedy match takes b[0]; a[1..] fits into b[1..] because a does
      DropHeadOfSubsequence(a, b[1..]);
    }
  }

  lemma {:induction false} DropHeadOfSubsequence<T>(a: seq<T>, b: seq<T>)
    requires |a| > 0 && IsSubsequence(a, b)
    ensures IsSubsequence(a[1..], b)
    decreases |a| + |b|
  {
    if b == [] {
    } else if a[0] == b[0] {
      SubsequenceOfTail(a[1..], b);
    } else {
      DropHeadOfSubsequence(a, b[1..]);
      SubsequenceOfTail(a[1..], b);
    }
  }

  /** A filter keeps the survivors in their original relative order. */
  lemma {:induction false} FilterIsSubsequence<T>(s: seq<T>, p: T -> bool)
    ensures IsSubsequence(Filter(s, p), s)
  {
    if s != [] {
      FilterIsSubsequence(s[1..], p);
      if p(s[0]) {
        assert Filter(s, p) == [s[0]] + Filter(s[1..], p);
      } else {
        assert Filter(s, p) == Filter(s[1..], p);
        SubsequenceOfTail(Filter(s, p), s);
      }
    }
  }

  /** Filtering with a predicate that holds everywhere changes nothing. */
  lemma {:induction false} FilterAll<T>(s: seq<T>, p: T -> bool)
    requires forall i :: 0 <= i < |s| ==> p(s[i])
    ensures Filter(s, p) == s
  {
    if s != [] {
      FilterAll(s[1..], p);
    }
  }

  /** Filtering distributes over concatenation. */
  lemma {:induction false} FilterAppend<T>(a: seq<T>, b: seq<T>, p: T -> bool)
    ensures Filter(a + b, p) == Filter(a, p) + Filter(b, p)
  {
    if a != [] {
      FilterAppend(a[1..], b, p);
      assert (a + b)[0] == a[0] && (a + b)[1..] == a[1..] + b;
      assert Filter(a + b, p) == (if p(a[0]) then [a[0]] else []) + Filter(a[1..] + b, p);
      assert Filter(a, p) == (if p(a[0]) then [a[0]] else []) + Filter(a[1..], p);
    } else {
      assert a + b == b;
    }
  }

  /** The number of elements kept by a filter. */
  function Count<T>(s: seq<T>, p: T -> bool): nat
  {
    |Filter(s, p)|
  }

  /** f(start) + f(start + 1) + ... + f(start + n - 1) */
  function SumRange(f: int -> nat, start: int, n: nat): nat
  {
    if n == 0 then 0 else SumRange(f, start, n - 1) + f(start + n - 1)
  }

  /** A sum over a window is monotone in the summand, pointwise. */
  lemma {:induction false} SumRangeMonotone(f: int -> nat, g: int -> nat, start: int, n: nat)
    requires forall d :: start <= d < start + n ==> f(d) <= g(d)
    ensures SumRange(f, start, n) <= SumRange(g, start, n)
    ensures (forall d :: start <= d < start + n ==> f(d) == g(d)) ==> SumRange(f, start, n) == SumRange(g, start, n)
  {
    if n > 0 {
      SumRangeMonotone(f, g, start, n - 1);
    }
  }

  /** One strictly larger summand, and none smaller, makes the sum larger. */
  lemma {:induction false} SumRangeStrict(f: int -> nat, g: int -> nat, start: int, n: nat, k: int)
    requires forall d :: start <= d < start + n ==> f(d) >= g(d)
    requires start <= k < start + n && f(k) > g(k)
    ensures SumRange(f, start, n) > SumRange(g, start, n)
  {
    if k < start + n - 1 {
      SumRangeStrict(f, g, start, n - 1, k);
    } else {
      SumRangeMonotone(g, f, start, n - 1);
    }
  }

  predicate NoDup<T(==)>(s: seq<T>)
  {
    forall i, j :: 0 <= i < j < |s| ==> s[i] != s[j]
  }

  /** Appending an absent element puts its first position at the end. */
  lemma {:induction false} IndexOfAppended<T>(s: seq<T>, x: T)
    requires x !in s
    ensures IndexOf(s + [x], x) == |s|
  {
    if s != [] {
      IndexOfAppended(s[1..], x);
      assert (s + [x])[1..] == s[1..] + [x];
    }
  }

  /** `s.indexOf(x)`: the first position of `x`, or -1. */
  function IndexOf<T(==)>(s: seq<T>, x: T): (k: int)
    ensures -1 <= k < |s|
    ensures k == -1 <==> x !in s
    ensures 0 <= k ==> s[k] == x && x !in s[..k]
  {
    if s == [] then -1
    else if s[0] == x then 0
    else
      var k := IndexOf(s[1..], x);
      assert s[1..][..if k < 0 then 0 else k] == s[1..if k < 0 then 1 else k + 1];
      if k == -1 then -1 else k + 1
  }
}
