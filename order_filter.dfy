/**
  The order filter of the wood report: a row is kept when its order month,
  its CATEGORY and its TRIP are each among the values the user selected.
  The three clauses form one boolean mask over the rows.
*/
module OrderFilter {
  import opened Wrappers
  import opened Seqs
  import opened Table

  /** The user's selections: order months ("Jan 2024" labels), categories and trips. */
  datatype Selection = Selection(months: set<string>, categories: set<Cell>, trips: set<Cell>)

  /**
    `df['month_year'].isin(selected_months)`. The month label of a row is
    `monthOf` applied to its TIMESTAMP cell (date parsing and formatting);
    a row whose timestamp does not parse has no label and is never kept.
  */
  predicate InMonths(r: Row, months: set<string>, monthOf: Cell -> Option<string>) {
    var m := monthOf(Lookup(r, TIMESTAMP));
    m.Some? && m.value in months
  }

  /** `df['CATEGORY'].isin(selected_category)`. */
  predicate InCategories(r: Row, categories: set<Cell>) {
    Lookup(r, CATEGORY) in categories
  }

  /** `df['TRIP'].isin(selected_trip)`. */
  predicate InTrips(r: Row, trips: set<Cell>) {
    Lookup(r, TRIP) in trips
  }

  function MonthClause(sel: Selection, monthOf: Cell -> Option<string>): Row -> bool {
    r => InMonths(r, sel.months, monthOf)
  }

  function CategoryClause(sel: Selection): Row -> bool {
    r => InCategories(r, sel.categories)
  }

  function TripClause(sel: Selection): Row -> bool {
    r => InTrips(r, sel.trips)
  }

  /** The whole mask of lines 87-90: the three clauses joined by `&`. */
  function KeepClause(sel: Selection, monthOf: Cell -> Option<string>): Row -> bool {
    r => InMonths(r, sel.months, monthOf) && InCategories(r, sel.categories) && InTrips(r, sel.trips)
  }

  /**
    `filtered_df = df[mask]`. A row is in the result exactly when it is in
    the input and passes all three clauses; the kept rows are unchanged and
    stay in their original order.
  */
  function FilterOrders(rows: seq<Row>, sel: Selection, monthOf: Cell -> Option<string>): (r: seq<Row>)
    ensures forall x :: x in r <==>
      x in rows && InMonths(x, sel.months, monthOf) && InCategories(x, sel.categories) && InTrips(x, sel.trips)
    ensures forall x :: multiset(r)[x] == (if KeepClause(sel, monthOf)(x) then multiset(rows)[x] else 0)
    ensures IsSubsequence(r, rows)
    ensures |r| <= |rows|
  {
    SelectIsSubsequence(rows, KeepClause(sel, monthOf));
    Select(rows, KeepClause(sel, monthOf))
  }

  /** The mask is the three clauses applied one after another: month, then category, then trip. */
  lemma FilterIsClauseByClause(rows: seq<Row>, sel: Selection, monthOf: Cell -> Option<string>)
    ensures FilterOrders(rows, sel, monthOf)
         == Select(Select(Select(rows, MonthClause(sel, monthOf)), CategoryClause(sel)), TripClause(sel))
  {
    var m, c, t := MonthClause(sel, monthOf), CategoryClause(sel), TripClause(sel);
    var mc: Row -> bool := r => m(r) && c(r);
    SelectSelect(rows, m, c, mc);
    SelectSelect(rows, mc, t, KeepClause(sel, monthOf));
  }

  /** The clauses can be applied in any order: here trip, then category, then month. */
  lemma FilterClauseOrderIrrelevant(rows: seq<Row>, sel: Selection, monthOf: Cell -> Option<string>)
    ensures FilterOrders(rows, sel, monthOf)
         == Select(Select(Select(rows, TripClause(sel)), CategoryClause(sel)), MonthClause(sel, monthOf))
  {
    var m, c, t := MonthClause(sel, monthOf), CategoryClause(sel), TripClause(sel);
    FilterIsClauseByClause(rows, sel, monthOf);
    // (m c) t  =  (m t) c  =  (t m) c  =  (t c) m
    SelectCommutes(Select(rows, m), c, t);
    SelectCommutes(rows, m, t);
    SelectCommutes(Select(rows, t), m, c);
  }

  /** An empty selection for any one clause keeps no row at all. */
  lemma EmptySelectionKeepsNothing(rows: seq<Row>, sel: Selection, monthOf: Cell -> Option<string>)
    requires sel.months == {} || sel.categories == {} || sel.trips == {}
    ensures FilterOrders(rows, sel, monthOf) == []
  {
    var r := FilterOrders(rows, sel, monthOf);
    assert forall x :: x !in r;
  }

  /** Filtering an already filtered table with the same selection changes nothing. */
  lemma FilterIdempotent(rows: seq<Row>, sel: Selection, monthOf: Cell -> Option<string>)
    ensures FilterOrders(FilterOrders(rows, sel, monthOf), sel, monthOf) == FilterOrders(rows, sel, monthOf)
  {
    var k := KeepClause(sel, monthOf);
    SelectSelect(rows, k, k, k);
  }

  /**
    Rows that are blank in every cell never pass the month clause, since a
    blank TIMESTAMP has no month, so dropping them first (line 55) does not
    change the filtered table.
  */
  lemma FilterIgnoresBlankRows(rows: seq<Row>, sel: Selection, monthOf: Cell -> Option<string>)
    requires monthOf(Blank) == None
    ensures FilterOrders(DropBlankRows(rows), sel, monthOf) == FilterOrders(rows, sel, monthOf)
  {
    var k := KeepClause(sel, monthOf);
    forall x ensures k(x) == (HasData(x) && k(x)) {
      if IsBlankRow(x) {
        BlankRowReadsBlank(x, TIMESTAMP);
      }
    }
    SelectSelect(rows, HasData, k, k);
  }
}
