/** Ordering vocabulary: the code-unit lexicographic order that
    `String.prototype.localeCompare` induces on the apps' "HH:MM" strings,
    and `Array.prototype.sort` with a comparator, which since ES2019 is a
    stable sort and is modelled here as a stable insertion sort. A
    comparator `cmp` is represented by `le(a, b) := cmp(a, b) <= 0`. */
module Ordering {
  import opened Basics

  /** Lexicographic order on strings (code unit by code unit). */
  predicate StrLeq(a: string, b: string)
  {
    if a == [] then true
    else if b == [] then false
    else if a[0] != b[0] then a[0] < b[0]
    else StrLeq(a[1..], b[1..])
  }

  lemma {:induction false} StrLeqTotal(a: string, b: string)
    ensures StrLeq(a, b) || StrLeq(b, a)
  {
    if a != [] && b != [] && a[0] == b[0] {
      StrLeqTotal(a[1..], b[1..]);
    }
  }

  lemma {:induction false} StrLeqTransitive(a: string, b: string, c: string)
    requires StrLeq(a, b) && StrLeq(b, c)
    ensures StrLeq(a, c)
  {
    if a != [] && b != [] && c != [] && a[0] == b[0] && b[0] == c[0] {
      StrLeqTransitive(a[1..], b[1..], c[1..]);
    }
  }

  lemma {:induction false} StrLeqAntisymmetric(a: string, b: string)
    requires StrLeq(a, b) && StrLeq(b, a)
    ensures a == b
  {
    if a != [] && b != [] {
      StrLeqAntisymmetric(a[1..], b[1..]);
      assert a == [a[0]] + a[1..] && b == [b[0]] + b[1..];
    }
  }

  /** `le` is total and transitive: a comparator `sort` is entitled to. */
  ghost predicate TotalPreorder<T(!new)>(le: (T, T) -> bool)
  {
    && (forall a, b :: le(a, b) || le(b, a))
    && (forall a, b, c :: le(a, b) && le(b, c) ==> le(a, c))
  }

  predicate Sorted<T>(s: seq<T>, le: (T, T) -> bool)
  {
    forall i, j :: 0 <= i < j < |s| ==> le(s[i], s[j])
  }

  /** Inserts `x` before the first element it is not after. */
  function Insert<T>(x: T, s: seq<T>, le: (T, T) -> bool): (r: seq<T>)
    ensures |r| == |s| + 1
    ensures multiset(r) == multiset(s) + multiset{x}
  {
    if s == [] then [x]
    else if le(x, s[0]) then [x] + s
    else
      assert s == [s[0]] + s[1..];
      [s[0]] + Insert(x, s[1..], le)
  }

  /** Stable sort: each element is inserted into the sorted rest, ahead of
      the elements it ties with, so equal elements keep their order. */
  function SortBy<T>(s: seq<T>, le: (T, T) -> bool): (r: seq<T>)
    ensures |r| == |s|
    ensures multiset(r) == multiset(s)
  {
    if s == [] then []
    else
      assert s == [s[0]] + s[1..];
      Insert(s[0], SortBy(s[1..], le), le)
  }

  lemma {:induction false} InsertSorted<T(!new)>(x: T, s: seq<T>, le: (T, T) -> bool)
    requires TotalPreorder(le)
    requires Sorted(s, le)
    ensures Sorted(Insert(x, s, le), le)
  {
    if s != [] && !le(x, s[0]) {
      assert le(s[0], x);
      InsertSorted(x, s[1..], le);
      var r := Insert(x, s, le);
      var t := Insert(x, s[1..], le);
      assert r == [s[0]] + t;
      forall k | 0 <= k < |t| ensures le(s[0], t[k]) {
        assert t[k] in multiset(t);
        assert t[k] == x || t[k] in multiset(s[1..]);
        if t[k] != x {
          var m :| 0 <= m < |s[1..]| && s[1..][m] == t[k];
          assert s[1 + m] == t[k];
        }
      }
    }
  }

  /** The result of `sort` is ordered by the comparator. */
  lemma {:induction false} SortBySorted<T(!new)>(s: seq<T>, le: (T, T) -> bool)
    requires TotalPreorder(le)
    ensures Sorted(SortBy(s, le), le)
  {
    if s != [] {
      SortBySorted(s[1..], le);
      InsertSorted(s[0], SortBy(s[1..], le), le);
    }
  }

  /** The elements that tie with `x` under `le`. */
  function Ties<T>(le: (T, T) -> bool, x: T): T -> bool
  {
    y => le(x, y) && le(y, x)
  }

  /** Inserting an element ahead of its ties puts it first among them; an
      element of another class leaves the ties as they were. */
  lemma {:induction false} InsertTies<T(!new)>(a: T, t: seq<T>, le: (T, T) -> bool, x: T)
    requires TotalPreorder(le)
    ensures Filter(Insert(a, t, le), Ties(le, x))
         == (if Ties(le, x)(a) then [a] else []) + Filter(t, Ties(le, x))
  {
    var e := Ties(le, x);
    if t == [] {
      assert Insert(a, t, le) == [a];
      assert Filter([a], e) == (if e(a) then [a] else []) + Filter([a][1..], e);
    } else if le(a, t[0]) {
      assert Insert(a, t, le) == [a] + t;
      assert ([a] + t)[1..] == t;
    } else {
      InsertTies(a, t[1..], le, x);
      var r := [t[0]] + Insert(a, t[1..], le);
      assert Insert(a, t, le) == r;
      assert r[1..] == Insert(a, t[1..], le);
      assert e(a) ==> !e(t[0]);
    }
  }

  /** `sort` is stable: the elements that tie with any `x` come out in the
      order they went in. */
  lemma {:induction false} SortByStable<T(!new)>(s: seq<T>, le: (T, T) -> bool, x: T)
    requires TotalPreorder(le)
    ensures Filter(SortBy(s, le), Ties(le, x)) == Filter(s, Ties(le, x))
  {
    if s != [] {
      SortByStable(s[1..], le, x);
      InsertTies(s[0], SortBy(s[1..], le), le, x);
    }
  }
}
