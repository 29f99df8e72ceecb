/**
  The wood-material usage report of `main()`: from the sheet as read, drop
  the all-blank rows, filter the orders by the selections, list the
  distinct wood materials of the whole sheet, total each material's usage
  times QTY over the filtered rows, and sort by total usage, largest first.
*/
module WoodMaterial {
  import opened Wrappers
  import opened Seqs
  import opened Table
  import opened OrderFilter
  import opened Materials
  import opened Usage
  import opened Sorting

  /** The column the result table is sorted by (line 114). */
  const TOTAL_USAGE := "Total Usage"

  /**
    How a run of the page ends. `MissingColumn`: a column the page reads
    before showing anything is absent, and `df[column]` raises `KeyError`.
    `Halted`: the filtered orders were shown (line 93), then `KeyError` on
    `column` stopped the report. `Report`: the filtered orders and the
    sorted usage table.
  */
  datatype Outcome =
    | MissingColumn(column: string)
    | Halted(filtered: seq<Row>, column: string)
    | Report(filtered: seq<Row>, table: seq<MaterialUsage>)

  /** Some name column of the sheet holds a non-blank cell: the material list is not empty. */
  ghost predicate HasMaterial(sheet: Sheet) {
    exists m :: m != Blank && NamedIn(sheet.rows, NameColumns(sheet.header), m)
  }

  /**
    Lines 55-114. `monthOf` is the month label of a TIMESTAMP cell and
    `parseNumber` the numeric coercion of a text usage cell.

    The run stops with `KeyError` in three cases. A column of `PageColumns`
    is missing (lines 61-76). There is no material at all: `result_data` is
    empty, `pd.DataFrame([])` has no 'Total Usage' column, and the sort at
    line 114 fails. QTY is missing while the loops of lines 105-110 run at
    least once, which they do when there is a material and a slot pair.
  */
  method WoodUsageReport(sheet: Sheet, sel: Selection, monthOf: Cell -> Option<string>,
                         parseNumber: string -> Option<real>)
    returns (outcome: Outcome)
    ensures outcome.MissingColumn? <==> FirstMissing(sheet.header, PageColumns).Some?
    ensures outcome.MissingColumn? ==> FirstMissing(sheet.header, PageColumns) == Some(outcome.column)
    ensures outcome.Halted? <==>
      (FirstMissing(sheet.header, PageColumns).None? &&
       (!HasMaterial(sheet) || (SlotPairs(sheet.header) != [] && QTY !in sheet.header)))
    ensures outcome.Halted? ==> outcome.column == if HasMaterial(sheet) then QTY else TOTAL_USAGE
    ensures !outcome.MissingColumn? ==> outcome.filtered == FilterOrders(DropBlankRows(sheet.rows), sel, monthOf)
    ensures outcome.Report? ==> SortedByUsage(outcome.table) && DistinctMaterials(outcome.table)
    ensures outcome.Report? ==> forall m :: (exists u :: u in outcome.table && u.material == m) <==>
      m != Blank && NamedIn(sheet.rows, NameColumns(sheet.header), m)
    ensures outcome.Report? ==> forall u :: u in outcome.table ==>
      u.total == MaterialTotal(outcome.filtered, SlotPairs(sheet.header), u.material, parseNumber)
    ensures outcome.Report? ==>
      TotalUsage(outcome.table) == WeightedUsage(outcome.filtered, SlotPairs(sheet.header), parseNumber)
  {
    var missing := FirstMissing(sheet.header, PageColumns);
    if missing.Some? {
      return MissingColumn(missing.value);
    }
    var df := DropBlankRows(sheet.rows);
    var filtered := FilterOrders(df, sel, monthOf);
    var pairs := SlotPairs(sheet.header);
    var materials := UniqueMaterials(df, NameColumns(sheet.header));
    MaterialListEmpty(sheet);
    if materials == [] {
      return Halted(filtered, TOTAL_USAGE);
    }
    if pairs != [] && QTY !in sheet.header {
      return Halted(filtered, QTY);
    }
    var table := AggregateUsage(filtered, materials, pairs, parseNumber);
    assert table == UsageTable(materials, filtered, pairs, parseNumber);
    ReportFacts(sheet, sel, monthOf, parseNumber);
    outcome := Report(filtered, SortByUsage(table));
  }

  /** The material list is empty exactly when no name column of the sheet holds a non-blank cell. */
  lemma MaterialListEmpty(sheet: Sheet)
    ensures UniqueMaterials(DropBlankRows(sheet.rows), NameColumns(sheet.header)) == [] <==> !HasMaterial(sheet)
  {
    var materials := UniqueMaterials(DropBlankRows(sheet.rows), NameColumns(sheet.header));
    forall m | m != Blank {
      NamedInDropBlankRows(sheet.rows, NameColumns(sheet.header), m);
    }
    if materials != [] {
      assert materials[0] in materials;
    }
  }

  /**
    The sorted table of a run that reaches line 114: descending, one entry
    per non-blank name of the unfiltered sheet, each with its usage x QTY
    total over the filtered rows, and the totals summing to all weighted
    named usage of the filtered rows.
  */
  lemma ReportFacts(sheet: Sheet, sel: Selection, monthOf: Cell -> Option<string>,
                    parseNumber: string -> Option<real>)
    ensures var df := DropBlankRows(sheet.rows);
      var filtered := FilterOrders(df, sel, monthOf);
      var pairs := SlotPairs(sheet.header);
      var report := SortByUsage(UsageTable(UniqueMaterials(df, NameColumns(sheet.header)), filtered, pairs, parseNumber));
      && SortedByUsage(report) && DistinctMaterials(report)
      && (forall m :: (exists u :: u in report && u.material == m) <==>
            m != Blank && NamedIn(sheet.rows, NameColumns(sheet.header), m))
      && (forall u :: u in report ==> u.total == MaterialTotal(filtered, pairs, u.material, parseNumber))
      && TotalUsage(report) == WeightedUsage(filtered, pairs, parseNumber)
  {
    var df := DropBlankRows(sheet.rows);
    var filtered := FilterOrders(df, sel, monthOf);
    var pairs := SlotPairs(sheet.header);
    var materials := UniqueMaterials(df, NameColumns(sheet.header));
    forall m | m != Blank {
      NamedInDropBlankRows(sheet.rows, NameColumns(sheet.header), m);
    }
    SortedTableFacts(materials, filtered, pairs, parseNumber);
    PairedNamesAreMaterials(df, filtered, sheet.header);
    Conservation(materials, filtered, pairs, parseNumber);
    UsageTableTotal(materials, filtered, pairs, parseNumber);
  }

  /** What sorting the table keeps: its materials, distinct, each with its total, and the sum. */
  lemma SortedTableFacts(materials: seq<Cell>, rows: seq<Row>, pairs: seq<(string, string)>,
                         parseNumber: string -> Option<real>)
    requires NoDup(materials)
    ensures var report := SortByUsage(UsageTable(materials, rows, pairs, parseNumber));
      && DistinctMaterials(report)
      && (forall m :: (exists u :: u in report && u.material == m) <==> m in materials)
      && (forall u :: u in report ==> u.total == MaterialTotal(rows, pairs, u.material, parseNumber))
      && TotalUsage(report) == TotalUsage(UsageTable(materials, rows, pairs, parseNumber))
  {
    var table := UsageTable(materials, rows, pairs, parseNumber);
    var report := SortByUsage(table);
    SortKeepsDistinct(table);
    SortKeepsTotal(table);
    forall m ensures (exists u :: u in report && u.material == m) <==> m in materials {
      if m in materials {
        var i :| 0 <= i < |materials| && materials[i] == m;
        assert table[i] in report;
      }
      if u :| u in report && u.material == m {
        var i :| 0 <= i < |table| && table[i] == u;
      }
    }
    forall u | u in report ensures u.total == MaterialTotal(rows, pairs, u.material, parseNumber) {
      var i :| 0 <= i < |table| && table[i] == u;
    }
  }

  /** Every name cell of a paired slot of a filtered row is one of the listed materials. */
  lemma PairedNamesAreMaterials(df: seq<Row>, filtered: seq<Row>, header: seq<string>)
    requires forall r :: r in filtered ==> r in df
    ensures forall r, p :: r in filtered && p in SlotPairs(header) && Lookup(r, p.0) != Blank ==>
      Lookup(r, p.0) in UniqueMaterials(df, NameColumns(header))
  {
    var pairs, nameColumns := SlotPairs(header), NameColumns(header);
    forall r, p | r in filtered && p in pairs && Lookup(r, p.0) != Blank
      ensures Lookup(r, p.0) in UniqueMaterials(df, nameColumns)
    {
      var k :| 0 <= k < |pairs| && pairs[k] == p;
      assert p.0 == nameColumns[k];
    }
  }

  /**
    With an empty selection for any clause, the table still lists every
    material of the sheet, each with total 0: the material list comes from
    the whole sheet, not from the filtered rows.
  */
  lemma EmptySelectionZeroTotals(sheet: Sheet, sel: Selection, monthOf: Cell -> Option<string>,
                                 parseNumber: string -> Option<real>)
    requires sel.months == {} || sel.categories == {} || sel.trips == {}
    ensures var df := DropBlankRows(sheet.rows);
      var table := UsageTable(UniqueMaterials(df, NameColumns(sheet.header)),
                              FilterOrders(df, sel, monthOf), SlotPairs(sheet.header), parseNumber);
      |table| == |UniqueMaterials(df, NameColumns(sheet.header))| &&
      forall u :: u in table ==> u.total == 0.0
  {
    var df := DropBlankRows(sheet.rows);
    EmptySelectionKeepsNothing(df, sel, monthOf);
    forall m {
      UnnamedMaterialTotalsZero([], SlotPairs(sheet.header), m, parseNumber);
    }
  }

  /**
    A material that appears in the sheet but in no paired name slot of any
    filtered row is still in the table, with total 0.
  */
  lemma FilteredOutMaterialTotalsZero(sheet: Sheet, sel: Selection, monthOf: Cell -> Option<string>,
                                      parseNumber: string -> Option<real>, m: Cell)
    requires var df := DropBlankRows(sheet.rows);
      m in UniqueMaterials(df, NameColumns(sheet.header)) &&
      forall r, p :: r in FilterOrders(df, sel, monthOf) && p in SlotPairs(sheet.header) ==> Lookup(r, p.0) != m
    ensures var df := DropBlankRows(sheet.rows);
      MaterialUsage(m, 0.0) in UsageTable(UniqueMaterials(df, NameColumns(sheet.header)),
                                          FilterOrders(df, sel, monthOf), SlotPairs(sheet.header), parseNumber)
  {
    var df := DropBlankRows(sheet.rows);
    var materials := UniqueMaterials(df, NameColumns(sheet.header));
    var filtered := FilterOrders(df, sel, monthOf);
    UnnamedMaterialTotalsZero(filtered, SlotPairs(sheet.header), m, parseNumber);
    var i :| 0 <= i < |materials| && materials[i] == m;
    assert UsageTable(materials, filtered, SlotPairs(sheet.header), parseNumber)[i] == MaterialUsage(m, 0.0);
  }
}
