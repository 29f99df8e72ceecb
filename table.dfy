/**
  The order sheet ("ORDER BY WOOD") as the report reads it: a header of
  column names and rows that map column names to cells. Also the two column
  selections that find the wood slot columns, and the blank-row drop done
  right after the sheet is read.
*/
module Table {
  import opened Wrappers
  import opened Seqs

  /** One spreadsheet cell: empty (NaN in the data frame), text, or a number. */
  datatype Cell = Blank | Text(s: string) | Number(x: real)

  /** A row maps column names to cells; a column the row does not hold reads as Blank. */
  type Row = map<string, Cell>

  /** The sheet: its column names in order, and its rows in order. */
  datatype Sheet = Sheet(header: seq<string>, rows: seq<Row>)

  const TIMESTAMP := "TIMESTAMP"
  const DELIVERY_PLAN_DATE := "DELIVERY PLAN DATE"
  const CATEGORY := "CATEGORY"
  const TRIP := "TRIP"
  const QTY := "QTY"
  /** A name column's header contains this text, e.g. "MATERIAL WOOD 1". */
  const MATERIAL_WOOD := "MATERIAL WOOD"
  /** A usage column's header starts with this text, e.g. "WOOD 1". */
  const WOOD := "WOOD"

  /**
    The columns `main()` reads by name before it shows the filtered orders,
    in the order it reads them (lines 61, 64, 75 and 76).
  */
  const PageColumns: seq<string> := [TIMESTAMP, DELIVERY_PLAN_DATE, CATEGORY, TRIP]

  /**
    The first column of `required` that `header` lacks. `df[column]` on such
    a column raises `KeyError`, and the run stops there.
  */
  function FirstMissing(header: seq<string>, required: seq<string>): (r: Option<string>)
    ensures r.None? <==> forall c :: c in required ==> c in header
    ensures r.Some? ==>
      exists i :: 0 <= i < |required| && required[i] == r.value && r.value !in header &&
                  forall j :: 0 <= j < i ==> required[j] in header
  {
    if required == [] then None
    else if required[0] !in header then Some(required[0])
    else
      var rest := FirstMissing(header, required[1..]);
      assert forall c :: c in required <==> c == required[0] || c in required[1..];
      if rest.Some? then
        var i :| 0 <= i < |required[1..]| && required[1..][i] == rest.value &&
                 forall j :: 0 <= j < i ==> required[1..][j] in header;
        assert required[i + 1] == rest.value;
        assert forall j :: 0 < j < i + 1 ==> required[j] == required[1..][j - 1];
        rest
      else rest
  }

  function Lookup(r: Row, column: string): (c: Cell)
    ensures column !in r ==> c == Blank
  {
    if column in r then r[column] else Blank
  }

  /**
    `pd.to_numeric(cell, errors='coerce')` followed by `dropna`: a number is
    kept, a blank is dropped, and text is parsed by `parseNumber`, whose None
    stands for a coercion failure.
  */
  function ToNumeric(c: Cell, parseNumber: string -> Option<real>): (v: Option<real>)
    ensures c.Blank? ==> v == None
    ensures c.Number? ==> v == Some(c.x)
    ensures c.Text? ==> v == parseNumber(c.s)
  {
    match c
    case Blank => None
    case Text(s) => parseNumber(s)
    case Number(x) => Some(x)
  }

  /** The order quantity of a row; a blank QTY is NaN and so contributes nothing. */
  function Qty(r: Row): (q: Option<real>)
    ensures q.Some? <==> Lookup(r, QTY).Number?
    ensures Lookup(r, QTY).Number? ==> q == Some(Lookup(r, QTY).x)
  {
    match Lookup(r, QTY)
    case Number(x) => Some(x)
    case _ => None
  }

  /** Every cell of the row is empty (`how="all"`). */
  predicate IsBlankRow(r: Row) {
    r.Values <= {Blank}
  }

  /** Some cell of the row is filled in. */
  predicate HasData(r: Row) {
    !IsBlankRow(r)
  }

  /** `df.dropna(how="all")`: drop the rows whose every cell is empty; every copy of any other row stays. */
  function DropBlankRows(rows: seq<Row>): (r: seq<Row>)
    ensures forall x :: x in r <==> x in rows && !IsBlankRow(x)
    ensures forall x :: multiset(r)[x] == if IsBlankRow(x) then 0 else multiset(rows)[x]
    ensures IsSubsequence(r, rows)
  {
    SelectIsSubsequence(rows, HasData);
    Select(rows, HasData)
  }

  lemma BlankRowReadsBlank(r: Row, column: string)
    requires IsBlankRow(r)
    ensures Lookup(r, column) == Blank
  {
    if column in r {
      assert r[column] in r.Values;
    }
  }

  predicate StartsWith(s: string, prefix: string) {
    |prefix| <= |s| && s[..|prefix|] == prefix
  }

  /** Python's `sub in s` on strings: `sub` occurs somewhere in `s`. */
  predicate Contains(s: string, sub: string)
    decreases |s|
  {
    StartsWith(s, sub) || (s != [] && Contains(s[1..], sub))
  }

  /** `sub` occurs in `s` starting at position `i`. */
  predicate OccursAt(s: string, sub: string, i: int) {
    0 <= i <= |s| - |sub| && s[i..i + |sub|] == sub
  }

  /** `Contains` agrees with the positional definition of a substring, in both directions. */
  lemma {:induction false} ContainsAt(s: string, sub: string)
    ensures Contains(s, sub) <==> exists i :: OccursAt(s, sub, i)
    decreases |s|
  {
    if s != [] {
      ContainsAt(s[1..], sub);
      if Contains(s[1..], sub) {
        var i :| OccursAt(s[1..], sub, i);
        assert s[i + 1..i + 1 + |sub|] == s[1..][i..i + |sub|];
        assert OccursAt(s, sub, i + 1);
      }
      if StartsWith(s, sub) {
        assert OccursAt(s, sub, 0);
      }
      if i :| OccursAt(s, sub, i) {
        if i > 0 {
          assert s[1..][i - 1..i - 1 + |sub|] == s[i..i + |sub|];
          assert OccursAt(s[1..], sub, i - 1);
        } else {
          assert StartsWith(s, sub);
        }
      }
    } else {
      if StartsWith(s, sub) {
        assert OccursAt(s, sub, 0);
      }
      if i :| OccursAt(s, sub, i) {
        assert i == 0 && sub == [];
        assert StartsWith(s, sub);
      }
    }
  }

  predicate IsNameColumn(column: string) {
    Contains(column, MATERIAL_WOOD)
  }

  predicate IsUsageColumn(column: string) {
    StartsWith(column, WOOD)
  }

  /** `[col for col in columns if 'MATERIAL WOOD' in col]`: the name columns, in header order. */
  function NameColumns(header: seq<string>): (r: seq<string>)
    ensures forall c :: c in r <==> c in header && Contains(c, MATERIAL_WOOD)
    ensures IsSubsequence(r, header)
  {
    SelectIsSubsequence(header, IsNameColumn);
    Select(header, IsNameColumn)
  }

  /** `[col for col in columns if col.startswith('WOOD')]`: the usage columns, in header order. */
  function UsageColumns(header: seq<string>): (r: seq<string>)
    ensures forall c :: c in r <==> c in header && StartsWith(c, WOOD)
    ensures IsSubsequence(r, header)
  {
    SelectIsSubsequence(header, IsUsageColumn);
    Select(header, IsUsageColumn)
  }

  /**
    The slot pairs of line 107, `zip(material_wood_columns, wood_columns)`:
    the k-th name column goes with the k-th usage column, and the surplus of
    the longer list is silently dropped.
  */
  function SlotPairs(header: seq<string>): (r: seq<(string, string)>)
    ensures var n, u := NameColumns(header), UsageColumns(header);
      |r| == (if |n| <= |u| then |n| else |u|) &&
      forall k :: 0 <= k < |r| ==> r[k].0 == n[k] && r[k].1 == u[k]
  {
    Zip(NameColumns(header), UsageColumns(header))
  }
}
