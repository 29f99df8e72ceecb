/**
  The key domain of the report (line 99): every distinct non-blank cell
  found in any name column of the whole sheet, `ravel` row by row, blanks
  dropped, duplicates removed keeping first occurrences.
*/
module Materials {
  import opened Seqs
  import opened Table

  /** Some row of `rows` holds `m` in one of `columns`. */
  predicate NamedIn(rows: seq<Row>, columns: seq<string>, m: Cell) {
    exists r, c :: r in rows && c in columns && Lookup(r, c) == m
  }

  /** The cells of one row in the given columns, in column order. */
  function RowCells(r: Row, columns: seq<string>): (cs: seq<Cell>)
    ensures |cs| == |columns|
    ensures forall k :: 0 <= k < |columns| ==> cs[k] == Lookup(r, columns[k])
    ensures forall x :: x in cs <==> exists c :: c in columns && Lookup(r, c) == x
  {
    if columns == [] then []
    else
      var rest := RowCells(r, columns[1..]);
      assert forall c :: c in columns <==> c == columns[0] || c in columns[1..];
      [Lookup(r, columns[0])] + rest
  }

  /** `df[columns].values.ravel()`: the cells of all rows, row after row. */
  function Ravel(rows: seq<Row>, columns: seq<string>): (cs: seq<Cell>)
    ensures forall x :: x in cs <==> NamedIn(rows, columns, x)
  {
    if rows == [] then []
    else
      var rest := Ravel(rows[1..], columns);
      assert forall r :: r in rows <==> r == rows[0] || r in rows[1..];
      RowCells(rows[0], columns) + rest
  }

  predicate IsFilled(c: Cell) {
    c != Blank
  }

  /** `Ravel` followed by `dropna()`. */
  function NamedCells(rows: seq<Row>, columns: seq<string>): (cs: seq<Cell>)
    ensures forall x :: x in cs <==> x != Blank && NamedIn(rows, columns, x)
  {
    Select(Ravel(rows, columns), IsFilled)
  }

  /**
    `pd.Series(df[columns].values.ravel()).dropna().unique()`: each distinct
    non-blank name cell exactly once. Names are compared as they are, with no
    trimming or case folding.
  */
  function UniqueMaterials(rows: seq<Row>, nameColumns: seq<string>): (ms: seq<Cell>)
    ensures NoDup(ms)
    ensures Blank !in ms
    ensures forall m :: m in ms <==> m != Blank && NamedIn(rows, nameColumns, m)
  {
    Unique(NamedCells(rows, nameColumns))
  }

  /** Only blank rows differ between `rows` and the sheet after `dropna(how="all")`; they hold no name. */
  lemma NamedInDropBlankRows(rows: seq<Row>, columns: seq<string>, m: Cell)
    requires m != Blank
    ensures NamedIn(DropBlankRows(rows), columns, m) <==> NamedIn(rows, columns, m)
  {
    if NamedIn(rows, columns, m) {
      var r, c :| r in rows && c in columns && Lookup(r, c) == m;
      if IsBlankRow(r) {
        BlankRowReadsBlank(r, c);
      }
    }
  }

  /**
    Dropping the all-blank rows (line 55) leaves the material list exactly
    as it was, order included: a blank row adds only blanks to the ravel,
    and `dropna()` removes them again.
  */
  lemma {:induction false} MaterialsIgnoreBlankRows(rows: seq<Row>, nameColumns: seq<string>)
    ensures UniqueMaterials(DropBlankRows(rows), nameColumns) == UniqueMaterials(rows, nameColumns)
  {
    NamedCellsIgnoreBlankRows(rows, nameColumns);
  }

  lemma {:induction false} NamedCellsIgnoreBlankRows(rows: seq<Row>, columns: seq<string>)
    ensures NamedCells(DropBlankRows(rows), columns) == NamedCells(rows, columns)
  {
    if rows != [] {
      var r := rows[0];
      NamedCellsIgnoreBlankRows(rows[1..], columns);
      var dropped := DropBlankRows(rows[1..]);
      assert Ravel(rows, columns) == RowCells(r, columns) + Ravel(rows[1..], columns);
      SelectAppend(RowCells(r, columns), Ravel(rows[1..], columns), IsFilled);
      if IsBlankRow(r) {
        assert DropBlankRows(rows) == dropped;
        BlankRowHasNoNames(r, columns);
      } else {
        assert DropBlankRows(rows) == [r] + dropped;
        assert ([r] + dropped)[1..] == dropped;
        assert Ravel([r] + dropped, columns) == RowCells(r, columns) + Ravel(dropped, columns);
        SelectAppend(RowCells(r, columns), Ravel(dropped, columns), IsFilled);
      }
    }
  }

  lemma BlankRowHasNoNames(r: Row, columns: seq<string>)
    requires IsBlankRow(r)
    ensures Select(RowCells(r, columns), IsFilled) == []
  {
    var cells := RowCells(r, columns);
    forall k | 0 <= k < |columns| ensures cells[k] == Blank {
      BlankRowReadsBlank(r, columns[k]);
    }
    assert forall x :: x !in Select(cells, IsFilled);
  }
}
