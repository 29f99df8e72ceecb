/**
  Generic sequence operations that the report is built from: a boolean-mask
  selection (used for the row filter, the blank-row drop and the column
  selection), positional pairing (`zip`), and de-duplication that keeps
  first occurrences (`unique`).
*/
module Seqs {

  /**
    The elements of `s` that satisfy `p`, in their original order: every
    copy of a kept element survives, and no copy of a dropped one.
  */
  function Select<T(!new)>(s: seq<T>, p: T -> bool): (r: seq<T>)
    ensures |r| <= |s|
    ensures forall x :: x in r <==> x in s && p(x)
    ensures forall x {:trigger multiset(r)[x]} :: multiset(r)[x] == if p(x) then multiset(s)[x] else 0
  {
    if s == [] then []
    else
      assert s == [s[0]] + s[1..];
      if p(s[0]) then [s[0]] + Select(s[1..], p)
      else Select(s[1..], p)
  }

  /** `a` can be obtained from `b` by deleting elements (greedy matching from the front). */
  predicate IsSubsequence<T(==)>(a: seq<T>, b: seq<T>)
    decreases |b|
  {
    a == [] ||
    (b != [] && if a[0] == b[0] then IsSubsequence(a[1..], b[1..]) else IsSubsequence(a, b[1..]))
  }

  /** A selection only drops elements: it never changes or reorders the ones it keeps. */
  lemma {:induction false} SelectIsSubsequence<T(!new)>(s: seq<T>, p: T -> bool)
    ensures IsSubsequence(Select(s, p), s)
  {
    if s != [] {
      SelectIsSubsequence(s[1..], p);
      var rest := Select(s[1..], p);
      if p(s[0]) {
        assert Select(s, p) == [s[0]] + rest;
        assert ([s[0]] + rest)[1..] == rest;
      } else {
        assert Select(s, p) == rest;
        if rest != [] {
          assert rest[0] in rest;
          assert rest[0] != s[0];
        }
      }
    }
  }

  /** Selecting by `p` and then by `q` keeps exactly what selecting by `q` and then by `p` keeps. */
  lemma {:induction false} SelectCommutes<T(!new)>(s: seq<T>, p: T -> bool, q: T -> bool)
    ensures Select(Select(s, p), q) == Select(Select(s, q), p)
  {
    if s != [] {
      SelectCommutes(s[1..], p, q);
      var x := s[0];
      var ps, qs := Select(s[1..], p), Select(s[1..], q);
      if p(x) {
        assert Select(s, p) == [x] + ps;
        assert ([x] + ps)[1..] == ps;
      } else {
        assert Select(s, p) == ps;
      }
      if q(x) {
        assert Select(s, q) == [x] + qs;
        assert ([x] + qs)[1..] == qs;
      } else {
        assert Select(s, q) == qs;
      }
    }
  }

  /** Two successive selections are one selection by the conjunction. */
  lemma {:induction false} SelectSelect<T(!new)>(s: seq<T>, p: T -> bool, q: T -> bool, pq: T -> bool)
    requires forall x :: pq(x) == (p(x) && q(x))
    ensures Select(Select(s, p), q) == Select(s, pq)
  {
    if s != [] {
      SelectSelect(s[1..], p, q, pq);
      var ps := Select(s[1..], p);
      if p(s[0]) {
        assert Select(s, p) == [s[0]] + ps;
        assert ([s[0]] + ps)[1..] == ps;
      } else {
        assert Select(s, p) == ps;
      }
    }
  }

  /** Selecting from a concatenation selects from each part. */
  lemma {:induction false} SelectAppend<T(!new)>(a: seq<T>, b: seq<T>, p: T -> bool)
    ensures Select(a + b, p) == Select(a, p) + Select(b, p)
  {
    if a != [] {
      SelectAppend(a[1..], b, p);
      assert (a + b)[1..] == a[1..] + b;
      var sa, sb := Select(a[1..], p), Select(b, p);
      if p(a[0]) {
        calc {
          Select(a + b, p);
          [a[0]] + (sa + sb);
          ([a[0]] + sa) + sb;
          Select(a, p) + sb;
        }
      } else {
        assert Select(a + b, p) == sa + sb;
        assert Select(a, p) == sa;
      }
    } else {
      assert a + b == b;
    }
  }

  /** Pairs the k-th element of `a` with the k-th element of `b`; the longer list is truncated. */
  function Zip<A, B>(a: seq<A>, b: seq<B>): (r: seq<(A, B)>)
    ensures |r| == if |a| <= |b| then |a| else |b|
    ensures forall k :: 0 <= k < |r| ==> r[k] == (a[k], b[k])
  {
    if a == [] || b == [] then [] else [(a[0], b[0])] + Zip(a[1..], b[1..])
  }

  /** No element occurs twice. */
  predicate NoDup<T(==)>(s: seq<T>) {
    forall i, j :: 0 <= i < j < |s| ==> s[i] != s[j]
  }

  /** The distinct elements of `s`, each at the place of its first occurrence. */
  function Unique<T(==,!new)>(s: seq<T>): (r: seq<T>)
    ensures NoDup(r)
    ensures forall x :: x in r <==> x in s
  {
    if s == [] then []
    else
      var u := Unique(s[..|s| - 1]);
      assert forall x :: x in s <==> x in s[..|s| - 1] || x == s[|s| - 1];
      if s[|s| - 1] in u then u else u + [s[|s| - 1]]
  }
}
