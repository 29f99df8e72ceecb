# Wood-material usage report, modelled in Dafny

This project models the core of the "Data BOM for Wood Material" page of the
bom-dashboard repository: `main()` in `WOOD_MATERIAL.py`. The page reads the
"ORDER BY WOOD" sheet and drops the rows whose cells are all empty. It keeps
the orders whose month, CATEGORY and TRIP were selected. It then reshapes the
wide slot columns (`MATERIAL WOOD i` names paired with `WOOD i` usages) into
one total per wood material: usage times QTY, summed over all filtered rows
and all slot pairs. Last, it sorts the table by total usage, largest first.

Modules (one file each):

- `Wrappers` (`wrappers.dfy`): `Option`.
- `Seqs` (`seqs.dfy`): the boolean-mask selection `Select`, `Zip`, `Unique`, subsequences.
- `Table` (`table.dfy`): cells, rows, the sheet, numeric coercion, the blank-row drop, and the two column selections with their pairing.
- `OrderFilter` (`order_filter.dfy`): the three-clause order filter.
- `Materials` (`materials.dfy`): the distinct material names of the whole sheet.
- `Usage` (`usage.dfy`): the per-material totals, the aggregation loops as a method, and conservation.
- `Sorting` (`sorting.dfy`): the descending sort by total.
- `WoodMaterial` (`wood_material.dfy`): the whole report, from sheet to sorted table.
- `WoodExamples` (`examples_wood.dfy`): worked instances on a small sheet.

A cell is `Blank` (NaN), `Text` or `Number`. A row maps column names to cells,
and a header column that a row's map lacks reads as `Blank`, the NaN that pandas
puts in an empty cell. Whether a column exists is decided by the sheet's header
alone: a column the page reads by name and the header lacks ends the run with
`KeyError`, which the model returns as an outcome of its own. Material keys are
non-blank cells compared with `==`: there is no trimming and no case folding. Date parsing and the
`'%b %Y'` month label are a parameter `monthOf` of the model. Coercing a text
usage cell with `pd.to_numeric(errors='coerce')` is a parameter `parseNumber`,
where `None` stands for a coercion failure.

What the page does not do, and the model therefore does not do either:

- It does not normalise names.
- It does not take the material list from the filtered rows: the list comes from the unfiltered sheet (line 99). A material found only in filtered-out rows is listed with total 0.
- It does not reject mismatched name and usage column counts. `zip` drops the surplus columns, but names in an unpaired name column are still listed.
- It does not drop totals that are `<= 0`.
- It does not join any price list.

## Model

| member | source | states |
|---|---|---|
| Table.FirstMissing | WOOD_MATERIAL.py:61-76 | nothing is missing iff every required column is in the header; otherwise the result is the first required column, in reading order, that the header lacks |
| Table.DropBlankRows | WOOD_MATERIAL.py:55 | a row survives `dropna(how="all")` iff some cell of it is filled; every copy of such a row survives and no copy of a blank one; survivors keep their order (subsequence) |
| Table.ToNumeric | WOOD_MATERIAL.py:109 | a number coerces to itself, a blank coerces to nothing (dropped by `dropna`), text coerces to what `parseNumber` makes of it |
| Table.Qty | WOOD_MATERIAL.py:110 | a row has a quantity exactly when its QTY cell is a number, and the quantity is that number |
| Table.StartsWith | WOOD_MATERIAL.py:96 | definition: `str.startswith` |
| Table.Contains | WOOD_MATERIAL.py:95 | definition: Python `sub in s` on strings, a prefix match at some position (see `Table.ContainsAt`) |
| Table.ContainsAt | WOOD_MATERIAL.py:95 | the model of Python `sub in s` is equivalent, both directions, to "`sub` occurs at some position of `s`" |
| Table.NameColumns | WOOD_MATERIAL.py:95 | a column is a name column iff it is in the header and contains "MATERIAL WOOD"; header order kept |
| Table.UsageColumns | WOOD_MATERIAL.py:96 | a column is a usage column iff it is in the header and starts with "WOOD"; header order kept |
| Seqs.Zip | WOOD_MATERIAL.py:107 | pairing has the length of the shorter list and pairs the k-th elements |
| Table.SlotPairs | WOOD_MATERIAL.py:95-96 | the k-th slot pair is (k-th name column, k-th usage column); pairs = min of the two counts |
| Seqs.Select | WOOD_MATERIAL.py:87-90 | the mask keeps exactly the elements that satisfy the predicate, each as many times as it occurs in the input, and no copy of the others |
| Seqs.SelectIsSubsequence | WOOD_MATERIAL.py:87-90 | a mask selection is a subsequence of its input: rows are dropped, never changed or reordered |
| Seqs.SelectCommutes | WOOD_MATERIAL.py:87-90 | two masks applied in either order give the same rows |
| Seqs.SelectSelect | WOOD_MATERIAL.py:87-90 | two successive masks equal one mask by the conjunction |
| OrderFilter.InMonths | WOOD_MATERIAL.py:87 | definition: the row's month label exists and is selected |
| OrderFilter.InCategories | WOOD_MATERIAL.py:88 | definition: the row's CATEGORY is selected |
| OrderFilter.InTrips | WOOD_MATERIAL.py:89 | definition: the row's TRIP is selected |
| OrderFilter.KeepClause | WOOD_MATERIAL.py:87-90 | definition: the three clauses joined by `&` |
| OrderFilter.FilterOrders | WOOD_MATERIAL.py:87-90 | a row is kept iff it is in the input and its month, category and trip are all selected; every copy of a kept row stays, so duplicate order lines are all counted; the result is a subsequence |
| OrderFilter.FilterIsClauseByClause | WOOD_MATERIAL.py:87-90 | the `&` of the three clauses equals applying the month, category and trip filters one after another |
| OrderFilter.FilterClauseOrderIrrelevant | WOOD_MATERIAL.py:87-90 | applying the clauses in the reverse order (trip, category, month) gives the same table |
| OrderFilter.EmptySelectionKeepsNothing | WOOD_MATERIAL.py:87-90 | an empty selection for any one clause yields no rows |
| OrderFilter.FilterIdempotent | WOOD_MATERIAL.py:87-90 | filtering the filtered table again changes nothing |
| OrderFilter.FilterIgnoresBlankRows | WOOD_MATERIAL.py:55-90 | given that a blank timestamp has no month (NaT), dropping all-blank rows does not change the filtered table |
| Materials.RowCells | WOOD_MATERIAL.py:99 | one row's part of the ravel: its cells in the given columns, in column order |
| Materials.Ravel | WOOD_MATERIAL.py:99 | a cell is in the ravel iff some row holds it in some of the columns |
| Materials.NamedCells | WOOD_MATERIAL.py:99 | after `dropna`, a cell is present iff it is non-blank and some row holds it in a name column |
| Seqs.Unique | WOOD_MATERIAL.py:99 | `unique()` has no duplicates and the same members as its input |
| Materials.UniqueMaterials | WOOD_MATERIAL.py:99 | the material list is duplicate-free, has no blank, and holds m iff m is non-blank and in some name column of some row of the unfiltered sheet |
| Materials.NamedInDropBlankRows | WOOD_MATERIAL.py:55 | for a non-blank name, occurring in the sheet before or after the blank-row drop is the same |
| Materials.MaterialsIgnoreBlankRows | WOOD_MATERIAL.py:55 | the material list is identical, order included, with or without the blank-row drop |
| Materials.NamedCellsIgnoreBlankRows | WOOD_MATERIAL.py:55 | the non-blank ravel is identical with or without the blank-row drop |
| Materials.BlankRowHasNoNames | WOOD_MATERIAL.py:55 | an all-blank row holds no name in any column |
| Usage.SlotValue | WOOD_MATERIAL.py:109-110 | when the usage coerces to a number and QTY is a number, the slot adds usage x QTY; otherwise (blank or unparseable usage, blank QTY) it adds 0 |
| Usage.Contribution | WOOD_MATERIAL.py:108-110 | definition: a row's slot value when its name cell equals the material (`material_mask`), else 0 |
| Usage.ColumnTotal | WOOD_MATERIAL.py:108-110 | definition: the masked, vectorised `(wood_values * QTY).sum()` of one slot pair, as a sum of contributions over the rows |
| Usage.MaterialTotal | WOOD_MATERIAL.py:106-110 | definition: `total_value`, the column totals summed over the slot pairs (independent row-by-row form: `Usage.MaterialTotalByRows`) |
| Usage.UsageTable | WOOD_MATERIAL.py:111 | definition: `result_data`, one entry per material with its total, in material order |
| Usage.WeightedUsage | WOOD_MATERIAL.py:107-110 | definition: usage x QTY over every row and every slot pair whose name cell is filled (see `Usage.Conservation`) |
| Usage.AggregateUsage | WOOD_MATERIAL.py:102-111 | the nested loops give one entry per material, in material order, whose total is the sum over slot pairs and rows of usage x QTY where the name cell equals the material |
| Usage.MaterialTotalByRows | WOOD_MATERIAL.py:106-110 | the column-by-column total equals the row-by-row double sum of usage x QTY over slots named m |
| Usage.TotalByRowsSplit | WOOD_MATERIAL.py:107-110 | the row-by-row sum splits off the first slot pair's column total |
| Usage.TotalByRowsEmptyPairs | WOOD_MATERIAL.py:107 | with no slot pairs the row-by-row total is 0 |
| Usage.UnnamedMaterialTotalsZero | WOOD_MATERIAL.py:105-111 | a material no row names in any paired slot gets total 0 |
| Usage.ColumnTotalZero | WOOD_MATERIAL.py:108-110 | a column sum over rows none of which names m is 0 |
| Usage.SumOverAdd | WOOD_MATERIAL.py:105-110 | a sum over the materials of f + g is the sum of f plus the sum of g |
| Usage.SumOverSingle | WOOD_MATERIAL.py:105-108 | over distinct materials, a slot's value is counted once when its name is a material and not at all otherwise |
| Usage.SumOverZero | WOOD_MATERIAL.py:105 | summing zeros over the materials gives 0 |
| Usage.ColumnConservation | WOOD_MATERIAL.py:99-110 | for one slot pair, the totals of all materials add up to the weighted usage of its named cells |
| Usage.Conservation | WOOD_MATERIAL.py:99-111 | when the materials are distinct and cover every named slot, the sum of their totals equals usage x QTY over all named paired slots |
| Usage.UsageTableTotal | WOOD_MATERIAL.py:111-113 | the 'Total Usage' column of the table sums to the totals summed over its materials |
| Sorting.Insert | WOOD_MATERIAL.py:114 | inserting into a descending table keeps it descending and adds exactly the new entry |
| Sorting.SortByUsage | WOOD_MATERIAL.py:114 | the result is in non-increasing order of total and is a permutation (same multiset) of the input |
| Sorting.InsertTotal | WOOD_MATERIAL.py:114 | insertion adds exactly the new entry's total |
| Sorting.SortKeepsTotal | WOOD_MATERIAL.py:114 | sorting keeps the sum of the totals |
| Sorting.DistinctTail | WOOD_MATERIAL.py:114 | dropping the first entry keeps the materials distinct |
| Sorting.DistinctCons | WOOD_MATERIAL.py:114 | a new material in front of a distinct table keeps it distinct |
| Sorting.HeadNotInTail | WOOD_MATERIAL.py:114 | in a distinct table the first material does not recur |
| Sorting.InsertDistinct | WOOD_MATERIAL.py:114 | inserting an entry with a new material keeps materials distinct |
| Sorting.SortKeepsDistinct | WOOD_MATERIAL.py:114 | sorting keeps every material on exactly one entry |
| WoodMaterial.HasMaterial | WOOD_MATERIAL.py:99 | definition: some name column of the sheet holds a non-blank cell |
| WoodMaterial.WoodUsageReport | WOOD_MATERIAL.py:55-114 | the run stops with the first missing column of TIMESTAMP, DELIVERY PLAN DATE, CATEGORY, TRIP iff one is missing; otherwise it shows the filtered orders and then stops with 'Total Usage' iff there is no material, or with QTY iff there are materials and slot pairs but no QTY column. Otherwise the report is sorted descending and has one entry per distinct non-blank name of any name column of the sheet (iff). Each entry's total is its usage x QTY over the filtered rows and slot pairs. The totals sum to the weighted usage of all named paired slots of the filtered rows |
| WoodMaterial.MaterialListEmpty | WOOD_MATERIAL.py:99-114 | the material list is empty iff no name column of the sheet holds a non-blank cell, the case in which line 114 raises |
| WoodMaterial.ReportFacts | WOOD_MATERIAL.py:99-114 | the sorted table is descending, lists exactly the non-blank names of the unfiltered sheet once each, gives each its usage x QTY total over the filtered rows, and its totals sum to the weighted usage of the filtered rows |
| WoodMaterial.SortedTableFacts | WOOD_MATERIAL.py:111-114 | the sorted table has distinct materials, exactly the listed ones, each with its total, and the same sum |
| WoodMaterial.PairedNamesAreMaterials | WOOD_MATERIAL.py:95-99 | every name in a paired slot of a filtered row is in the material list: filtered rows are sheet rows, paired columns are name columns |
| WoodMaterial.EmptySelectionZeroTotals | WOOD_MATERIAL.py:87-111 | with an empty selection the table still lists every material of the sheet, each with total 0 |
| WoodMaterial.FilteredOutMaterialTotalsZero | WOOD_MATERIAL.py:99-111 | a material of the sheet that no filtered row names in a paired slot is in the table with total 0 |
| WoodExamples.ExactNameMatching | WOOD_MATERIAL.py:108-110 | "Plywood" (6) and "plywood " (4) are separate materials; "N/A" usage adds 0, so Oak is 3 |
| WoodExamples.SampleColumnKinds | WOOD_MATERIAL.py:95-96 | which sample headers are name columns and which are usage columns |
| WoodExamples.ShortHasNoContains | WOOD_MATERIAL.py:95 | a string shorter than the pattern does not contain it |
| WoodExamples.SampleNameColumns | WOOD_MATERIAL.py:95 | the sample header has name columns "MATERIAL WOOD 1" and "MATERIAL WOOD 2" |
| WoodExamples.SampleUsageColumns | WOOD_MATERIAL.py:96 | the sample header has the single usage column "WOOD 1" |
| WoodExamples.PairingTruncates | WOOD_MATERIAL.py:95-96 | with two name columns and one usage column, `zip` yields one pair and drops "MATERIAL WOOD 2" |

## Left out

- The Streamlit interface (lines 16-51, 78-93, 116-121) is not modelled. This covers login state, reruns, `time.sleep`, the sidebar multiselects and their "everything selected" defaults, and the displayed tables. The selections are an input of the model.
- `load_credentials` and `authenticate` (lines 8-13) are not modelled. They are authentication, outside the report.
- The Google Sheets read (lines 53-54) is not modelled. It is I/O; the sheet is an input.
- Date parsing, the `'%b %Y'` labels and the sorted month lists for the widgets (lines 60-73) are not modelled. The month label of a TIMESTAMP cell is the parameter `monthOf`. The only property assumed about it is that a blank timestamp has no month (NaT), and only `FilterIgnoresBlankRows` uses that. The delivery-month column (lines 63-64, 71-73) feeds only a commented-out widget.
- Text parsing inside `pd.to_numeric` is not modelled. It is the parameter `parseNumber`.
- Floating-point arithmetic is not modelled. Usage, QTY and totals are exact `real`s.
- Duplicate column names in the header are not modelled: pandas would then return a frame, not a column, for `df[name]`. Each header name is taken to occur once.
- Table.Qty: a QTY cell holding text makes the source raise a type error in the product at line 110. The model counts such a row as contributing 0.
- Material keys are cells, not pandas objects. The model does not capture that `1 == 1.0 == True` in Python.
- Sorting.SortByUsage: `sort_values` uses a non-stable quicksort by default. The model promises only a sorted permutation, so the order of equal totals is left open, as in the source.
- The bar chart (lines 119-121) is not modelled.
