/**
  The wide-to-long usage aggregation of lines 102-111: for every material
  and every slot pair (name column, usage column), the usage of each
  filtered row whose name cell equals the material, times the row's QTY, is
  added to that material's total.
*/
module Usage {
  import opened Wrappers
  import opened Seqs
  import opened Table

  /** One row of the result table: 'Wood Material' and 'Total Usage'. */
  datatype MaterialUsage = MaterialUsage(material: Cell, total: real)

  /**
    The weighted usage of one slot of one row: usage times QTY. A usage that
    is blank or does not parse, or a blank QTY, is NaN in the product and is
    skipped by `.sum()`, so it adds nothing.
  */
  function SlotValue(r: Row, usageColumn: string, parseNumber: string -> Option<real>): (v: real)
    ensures v != 0.0 ==> ToNumeric(Lookup(r, usageColumn), parseNumber).Some? && Lookup(r, QTY).Number?
    ensures var u := ToNumeric(Lookup(r, usageColumn), parseNumber);
      u.Some? && Lookup(r, QTY).Number? ==> v == u.value * Lookup(r, QTY).x
  {
    match (ToNumeric(Lookup(r, usageColumn), parseNumber), Qty(r))
    case (Some(u), Some(q)) => u * q
    case _ => 0.0
  }

  /** What one row adds to `m` through one slot pair: its slot value when its name cell is `m`. */
  function Contribution(r: Row, pair: (string, string), m: Cell, parseNumber: string -> Option<real>): real {
    if Lookup(r, pair.0) == m then SlotValue(r, pair.1, parseNumber) else 0.0
  }

  /** Lines 108-110 for one slot pair: the masked, vectorised sum over all rows. */
  function ColumnTotal(rows: seq<Row>, pair: (string, string), m: Cell, parseNumber: string -> Option<real>): real {
    if rows == [] then 0.0
    else Contribution(rows[0], pair, m, parseNumber) + ColumnTotal(rows[1..], pair, m, parseNumber)
  }

  /** `total_value` after the loop of line 107: the column totals of every slot pair, summed. */
  function MaterialTotal(rows: seq<Row>, pairs: seq<(string, string)>, m: Cell, parseNumber: string -> Option<real>): real {
    if pairs == [] then 0.0
    else ColumnTotal(rows, pairs[0], m, parseNumber) + MaterialTotal(rows, pairs[1..], m, parseNumber)
  }

  /** The result table before sorting: one entry per material, in the order of `materials`. */
  function UsageTable(materials: seq<Cell>, rows: seq<Row>, pairs: seq<(string, string)>,
                      parseNumber: string -> Option<real>): seq<MaterialUsage>
  {
    seq(|materials|, i requires 0 <= i < |materials| =>
      MaterialUsage(materials[i], MaterialTotal(rows, pairs, materials[i], parseNumber)))
  }

  /**
    The loops of lines 102-111: for each material, `total_value` starts at 0,
    gets each slot pair's column total added, and is appended with its
    material to `result_data`.
  */
  method AggregateUsage(filtered: seq<Row>, materials: seq<Cell>, pairs: seq<(string, string)>,
                        parseNumber: string -> Option<real>)
    returns (result: seq<MaterialUsage>)
    ensures |result| == |materials|
    ensures forall i :: 0 <= i < |result| ==>
      result[i].material == materials[i] &&
      result[i].total == MaterialTotal(filtered, pairs, materials[i], parseNumber)
  {
    result := [];
    var i := 0;
    while i < |materials|
      invariant 0 <= i <= |materials|
      invariant |result| == i
      invariant forall j :: 0 <= j < i ==>
        result[j].material == materials[j] &&
        result[j].total == MaterialTotal(filtered, pairs, materials[j], parseNumber)
    {
      var material := materials[i];
      var total := 0.0;
      var k := 0;
      while k < |pairs|
        invariant 0 <= k <= |pairs|
        invariant total + MaterialTotal(filtered, pairs[k..], material, parseNumber)
               == MaterialTotal(filtered, pairs, material, parseNumber)
      {
        assert pairs[k..][1..] == pairs[k + 1..];
        total := total + ColumnTotal(filtered, pairs[k], material, parseNumber);
        k := k + 1;
      }
      result := result + [MaterialUsage(material, total)];
      i := i + 1;
    }
  }

  // ---------------------------------------------------------------------
  // An independent reference: the same double sum taken row by row.

  /** All that one row adds to `m` across the slot pairs. */
  function RowTotal(r: Row, pairs: seq<(string, string)>, m: Cell, parseNumber: string -> Option<real>): real {
    if pairs == [] then 0.0
    else Contribution(r, pairs[0], m, parseNumber) + RowTotal(r, pairs[1..], m, parseNumber)
  }

  /** The total of `m` summed over rows first, then slot pairs within each row. */
  function TotalByRows(rows: seq<Row>, pairs: seq<(string, string)>, m: Cell, parseNumber: string -> Option<real>): real {
    if rows == [] then 0.0
    else RowTotal(rows[0], pairs, m, parseNumber) + TotalByRows(rows[1..], pairs, m, parseNumber)
  }

  lemma {:induction false} TotalByRowsSplit(rows: seq<Row>, pairs: seq<(string, string)>, m: Cell,
                                            parseNumber: string -> Option<real>)
    requires pairs != []
    ensures TotalByRows(rows, pairs, m, parseNumber)
         == ColumnTotal(rows, pairs[0], m, parseNumber) + TotalByRows(rows, pairs[1..], m, parseNumber)
  {
    if rows != [] {
      TotalByRowsSplit(rows[1..], pairs, m, parseNumber);
    }
  }

  /**
    The column-by-column total the source computes equals the row-by-row
    sum of usage times QTY over every row and every slot whose name is `m`.
  */
  lemma {:induction false} MaterialTotalByRows(rows: seq<Row>, pairs: seq<(string, string)>, m: Cell,
                                               parseNumber: string -> Option<real>)
    ensures MaterialTotal(rows, pairs, m, parseNumber) == TotalByRows(rows, pairs, m, parseNumber)
  {
    if pairs == [] {
      TotalByRowsEmptyPairs(rows, m, parseNumber);
    } else {
      MaterialTotalByRows(rows, pairs[1..], m, parseNumber);
      TotalByRowsSplit(rows, pairs, m, parseNumber);
    }
  }

  lemma {:induction false} TotalByRowsEmptyPairs(rows: seq<Row>, m: Cell, parseNumber: string -> Option<real>)
    ensures TotalByRows(rows, [], m, parseNumber) == 0.0
  {
    if rows != [] {
      TotalByRowsEmptyPairs(rows[1..], m, parseNumber);
    }
  }

  /**
    A material that no row names in any paired slot gets total 0, even
    though it is listed; this is the case of a material that occurs only in
    rows the filter dropped, or only in an unpaired name column.
  */
  lemma {:induction false} UnnamedMaterialTotalsZero(rows: seq<Row>, pairs: seq<(string, string)>, m: Cell,
                                                     parseNumber: string -> Option<real>)
    requires forall r, p :: r in rows && p in pairs ==> Lookup(r, p.0) != m
    ensures MaterialTotal(rows, pairs, m, parseNumber) == 0.0
  {
    if pairs != [] {
      ColumnTotalZero(rows, pairs[0], m, parseNumber);
      UnnamedMaterialTotalsZero(rows, pairs[1..], m, parseNumber);
    }
  }

  lemma {:induction false} ColumnTotalZero(rows: seq<Row>, pair: (string, string), m: Cell,
                                           parseNumber: string -> Option<real>)
    requires forall r :: r in rows ==> Lookup(r, pair.0) != m
    ensures ColumnTotal(rows, pair, m, parseNumber) == 0.0
  {
    if rows != [] {
      ColumnTotalZero(rows[1..], pair, m, parseNumber);
    }
  }

  // ---------------------------------------------------------------------
  // Conservation: the totals of all materials add up to the weighted usage
  // of every named slot.

  /** The slot value of a row when its name cell is not blank, else 0. */
  function NamedSlotValue(r: Row, pair: (string, string), parseNumber: string -> Option<real>): real {
    if Lookup(r, pair.0) != Blank then SlotValue(r, pair.1, parseNumber) else 0.0
  }

  function ColumnWeightedUsage(rows: seq<Row>, pair: (string, string), parseNumber: string -> Option<real>): real {
    if rows == [] then 0.0
    else NamedSlotValue(rows[0], pair, parseNumber) + ColumnWeightedUsage(rows[1..], pair, parseNumber)
  }

  /** Usage times QTY over every row and every slot pair whose name cell is not blank. */
  function WeightedUsage(rows: seq<Row>, pairs: seq<(string, string)>, parseNumber: string -> Option<real>): real {
    if pairs == [] then 0.0
    else ColumnWeightedUsage(rows, pairs[0], parseNumber) + WeightedUsage(rows, pairs[1..], parseNumber)
  }

  /** The sum of the 'Total Usage' column. */
  function TotalUsage(s: seq<MaterialUsage>): real {
    if s == [] then 0.0 else s[0].total + TotalUsage(s[1..])
  }

  /** `f(m)` summed over the keys `keys`. */
  function SumOver(keys: seq<Cell>, f: Cell -> real): real {
    if keys == [] then 0.0 else f(keys[0]) + SumOver(keys[1..], f)
  }

  lemma {:induction false} SumOverAdd(keys: seq<Cell>, f: Cell -> real, g: Cell -> real, h: Cell -> real)
    requires forall m :: h(m) == f(m) + g(m)
    ensures SumOver(keys, h) == SumOver(keys, f) + SumOver(keys, g)
  {
    if keys != [] {
      SumOverAdd(keys[1..], f, g, h);
    }
  }

  /** Over distinct keys, a function that is `v` at `x` and 0 elsewhere sums to `v` when `x` is a key. */
  lemma {:induction false} SumOverSingle(keys: seq<Cell>, x: Cell, v: real, f: Cell -> real)
    requires NoDup(keys)
    requires forall m :: f(m) == if m == x then v else 0.0
    ensures SumOver(keys, f) == if x in keys then v else 0.0
  {
    if keys != [] {
      assert NoDup(keys[1..]) by {
        forall i, j | 0 <= i < j < |keys[1..]| ensures keys[1..][i] != keys[1..][j] {
          assert keys[1..][i] == keys[i + 1] && keys[1..][j] == keys[j + 1];
        }
      }
      SumOverSingle(keys[1..], x, v, f);
      assert keys == [keys[0]] + keys[1..];
      assert keys[0] !in keys[1..];
    }
  }

  lemma {:induction false} ColumnConservation(keys: seq<Cell>, rows: seq<Row>, pair: (string, string),
                                              parseNumber: string -> Option<real>)
    requires NoDup(keys) && Blank !in keys
    requires forall r :: r in rows && Lookup(r, pair.0) != Blank ==> Lookup(r, pair.0) in keys
    ensures SumOver(keys, m => ColumnTotal(rows, pair, m, parseNumber)) == ColumnWeightedUsage(rows, pair, parseNumber)
  {
    if rows == [] {
      SumOverZero(keys, m => ColumnTotal(rows, pair, m, parseNumber));
    } else {
      var r := rows[0];
      assert forall x :: x in rows[1..] ==> x in rows;
      ColumnConservation(keys, rows[1..], pair, parseNumber);
      var here := m => Contribution(r, pair, m, parseNumber);
      SumOverAdd(keys, here, m => ColumnTotal(rows[1..], pair, m, parseNumber),
                 m => ColumnTotal(rows, pair, m, parseNumber));
      SumOverSingle(keys, Lookup(r, pair.0), SlotValue(r, pair.1, parseNumber), here);
    }
  }

  lemma {:induction false} SumOverZero(keys: seq<Cell>, f: Cell -> real)
    requires forall m :: f(m) == 0.0
    ensures SumOver(keys, f) == 0.0
  {
    if keys != [] {
      SumOverZero(keys[1..], f);
    }
  }

  /**
    When `keys` are distinct, not blank, and include every name cell of the
    paired columns, the totals over `keys` add up to the weighted usage of
    all named slots: no slot is counted twice and none is lost.
  */
  lemma {:induction false} Conservation(keys: seq<Cell>, rows: seq<Row>, pairs: seq<(string, string)>,
                                        parseNumber: string -> Option<real>)
    requires NoDup(keys) && Blank !in keys
    requires forall r, p :: r in rows && p in pairs && Lookup(r, p.0) != Blank ==> Lookup(r, p.0) in keys
    ensures SumOver(keys, m => MaterialTotal(rows, pairs, m, parseNumber)) == WeightedUsage(rows, pairs, parseNumber)
  {
    if pairs == [] {
      SumOverZero(keys, m => MaterialTotal(rows, pairs, m, parseNumber));
    } else {
      assert forall p :: p in pairs[1..] ==> p in pairs;
      Conservation(keys, rows, pairs[1..], parseNumber);
      ColumnConservation(keys, rows, pairs[0], parseNumber);
      SumOverAdd(keys, m => ColumnTotal(rows, pairs[0], m, parseNumber),
                 m => MaterialTotal(rows, pairs[1..], m, parseNumber),
                 m => MaterialTotal(rows, pairs, m, parseNumber));
    }
  }

  /** The 'Total Usage' column of the table sums to the totals summed over its materials. */
  lemma {:induction false} UsageTableTotal(materials: seq<Cell>, rows: seq<Row>, pairs: seq<(string, string)>,
                                           parseNumber: string -> Option<real>)
    ensures TotalUsage(UsageTable(materials, rows, pairs, parseNumber))
         == SumOver(materials, m => MaterialTotal(rows, pairs, m, parseNumber))
  {
    if materials != [] {
      UsageTableTotal(materials[1..], rows, pairs, parseNumber);
      assert UsageTable(materials, rows, pairs, parseNumber)[1..] == UsageTable(materials[1..], rows, pairs, parseNumber);
    }
  }
}
