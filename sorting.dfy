/**
  `result_df.sort_values(by='Total Usage', ascending=False)` (line 114):
  the result table in non-increasing order of total usage. The order of
  equal totals is not fixed by the source, so the model promises only a
  sorted permutation.
*/
module Sorting {
  import opened Table
  import opened Usage

  predicate SortedByUsage(s: seq<MaterialUsage>) {
    forall i, j :: 0 <= i < j < |s| ==> s[i].total >= s[j].total
  }

  /** No material names two entries. */
  predicate DistinctMaterials(s: seq<MaterialUsage>) {
    forall i, j :: 0 <= i < j < |s| ==> s[i].material != s[j].material
  }

  /** Inserts `u` into a table already sorted by descending total. */
  function Insert(u: MaterialUsage, s: seq<MaterialUsage>): (r: seq<MaterialUsage>)
    requires SortedByUsage(s)
    ensures SortedByUsage(r)
    ensures multiset(r) == multiset(s) + multiset{u}
    ensures forall x :: x in r <==> x == u || x in s
  {
    if s == [] || u.total >= s[0].total then
      [u] + s
    else
      var rest := Insert(u, s[1..]);
      assert s == [s[0]] + s[1..];
      assert forall x :: x in rest ==> x.total <= s[0].total;
      [s[0]] + rest
  }

  /** The sorted table: descending by total usage, the same entries as the input. */
  function SortByUsage(s: seq<MaterialUsage>): (r: seq<MaterialUsage>)
    ensures SortedByUsage(r)
    ensures multiset(r) == multiset(s)
    ensures forall x :: x in r <==> x in s
  {
    if s == [] then []
    else
      assert s == [s[0]] + s[1..];
      Insert(s[0], SortByUsage(s[1..]))
  }

  lemma {:induction false} InsertTotal(u: MaterialUsage, s: seq<MaterialUsage>)
    requires SortedByUsage(s)
    ensures TotalUsage(Insert(u, s)) == u.total + TotalUsage(s)
  {
    if s != [] && u.total < s[0].total {
      InsertTotal(u, s[1..]);
    }
  }

  /** Sorting neither adds nor loses usage: the 'Total Usage' column has the same sum. */
  lemma {:induction false} SortKeepsTotal(s: seq<MaterialUsage>)
    ensures TotalUsage(SortByUsage(s)) == TotalUsage(s)
  {
    if s != [] {
      SortKeepsTotal(s[1..]);
      InsertTotal(s[0], SortByUsage(s[1..]));
    }
  }

  lemma DistinctTail(s: seq<MaterialUsage>)
    requires s != [] && DistinctMaterials(s)
    ensures DistinctMaterials(s[1..])
  {
    forall i, j | 0 <= i < j < |s[1..]| ensures s[1..][i].material != s[1..][j].material {
      assert s[1..][i] == s[i + 1] && s[1..][j] == s[j + 1];
    }
  }

  lemma DistinctCons(x: MaterialUsage, rest: seq<MaterialUsage>)
    requires DistinctMaterials(rest)
    requires forall y :: y in rest ==> y.material != x.material
    ensures DistinctMaterials([x] + rest)
  {
    var r := [x] + rest;
    forall i, j | 0 <= i < j < |r| ensures r[i].material != r[j].material {
      assert r[j] == rest[j - 1];
      if i > 0 {
        assert r[i] == rest[i - 1];
      }
    }
  }

  /** The first entry of a distinct table names no material of the rest. */
  lemma HeadNotInTail(s: seq<MaterialUsage>)
    requires s != [] && DistinctMaterials(s)
    ensures forall x :: x in s[1..] ==> x.material != s[0].material
  {
    forall x | x in s[1..] ensures x.material != s[0].material {
      var j :| 0 <= j < |s[1..]| && s[1..][j] == x;
      assert s[j + 1] == x;
    }
  }

  lemma {:induction false} InsertDistinct(u: MaterialUsage, s: seq<MaterialUsage>)
    requires SortedByUsage(s) && DistinctMaterials(s)
    requires forall x :: x in s ==> x.material != u.material
    ensures DistinctMaterials(Insert(u, s))
  {
    if s == [] || u.total >= s[0].total {
      DistinctCons(u, s);
    } else {
      DistinctTail(s);
      HeadNotInTail(s);
      assert forall x :: x in s[1..] ==> x in s;
      InsertDistinct(u, s[1..]);
      DistinctCons(s[0], Insert(u, s[1..]));
    }
  }

  /** Sorting keeps the materials distinct: each material still names one entry. */
  lemma {:induction false} SortKeepsDistinct(s: seq<MaterialUsage>)
    requires DistinctMaterials(s)
    ensures DistinctMaterials(SortByUsage(s))
  {
    if s != [] {
      DistinctTail(s);
      HeadNotInTail(s);
      SortKeepsDistinct(s[1..]);
      InsertDistinct(s[0], SortByUsage(s[1..]));
    }
  }
}
