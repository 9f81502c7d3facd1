# Expense tracker ledger, in Dafny

A model of the client-side state of a personal finance tracker (`scripts.js`).
The tracker keeps two ledgers, expenses and incomes. Each ledger is an
ordered list of records `{name, category, amount, date}`. Each list is kept in
step with a snapshot in key-value storage under its own key (`"expenses"`,
`"incomes"`). The model covers:

- loading and saving the snapshot;
- adding a record on form submission, after the presence and number checks;
- removing a record by position (delete and edit on expenses);
- removing every record with a given name (delete on incomes);
- the fold that computes per-category totals for the charts;
- the table search (case-insensitive substring match on any cell);
- the inclusive date-range filter on table rows.

The two ledgers are one generic `Ledgers.Ledger` class with a `kind` tag.
They share one `Ledgers.Storage` object, a `map` from key to list of records.
Each method's contract says what the list becomes and that the storage map
changes only under the ledger's own key.

Files and modules:

- `wrappers.dfy` (`Wrappers`): `Option`.
- `records.dfy` (`Records`): the record, the two kinds and their storage keys, the three seed expenses.
- `ledger.dfy` (`Ledgers`): `RemoveAt` (JavaScript `splice(index, 1)`), `WithoutName` (the name filter), `Storage`, `Ledger`.
- `aggregate.dfy` (`Aggregation`): the category fold and its reference definitions.
- `table.dfy` (`TableView`): upper-casing, `indexOf`, the row search, dates and the range test, and a `Table` class holding row visibility.

Representation choices:

- Amounts are integer cents, so sums are exact.
- A dated record keeps its date as the ISO text the form gives.
- The date filter reads each row's first cell with a `parse` parameter that stands for `new Date(text)`. Its result is `None` for an invalid date. Any comparison with an invalid date is false, so such rows are hidden, and so is every row when a range bound is invalid.
- "The amount is a number" is an `Option<int>` input: `None` stands for `NaN`.

Behaviour of the code that is easy to miss:

- With no income snapshot stored, `loadIncomes` writes the income list it already holds. That is empty at start-up, but it is not a seed (scripts.js:233-235).
- `deleteExpense` with a negative index removes a record counted from the end, as `splice` does. An index past the end removes nothing. In both cases the snapshot is still rewritten.
- `editExpense` with an index that holds no record fails at `expense.name` before anything is removed. The model returns `None` and changes nothing.
- The date filter changes only row visibility. It does not narrow the chart totals (scripts.js:202-224).
- A search assigns every row's visibility afresh, so it undoes an earlier date filter (`TableView.FilterThenSearch`).

## Model

| member | source | states |
|---|---|---|
| `Records.Seed` | scripts.js:8-10 | the three sample expenses Lunch, Uber and Movie Ticket, amounts in cents; `Ledger.Load` installs them when no expense snapshot exists |
| `Records.Kind.Key` | scripts.js:6-6 | the storage key of each ledger: "expenses" for expenses only (scripts.js:6, 19) and "incomes" for incomes (scripts.js:230, 241); `KeysDiffer` shows they differ |
| `Ledgers.Ledger.constructor` | scripts.js:2-2 | a ledger starts with an empty list |
| `Ledgers.Ledger.Save` | scripts.js:18-20 | the snapshot under the ledger's key becomes the whole list; every other key is unchanged |
| `Ledgers.Ledger.Load` | scripts.js:5-12 | a stored snapshot becomes the list; with none, expenses get the three seed records and incomes keep their current list (scripts.js:229-235); that list is then the snapshot and no other key changes |
| `Ledgers.SaveThenLoad` | scripts.js:5-20 | save followed by load gives back the same list, for both kinds |
| `Ledgers.Ledger.Submit` | scripts.js:43-56 | added iff name, category and date are non-empty and the amount is a number; when added the list is the old list plus the new record at the end and the snapshot is rewritten; when rejected neither the list nor storage changes (same handler for incomes at scripts.js:262-275) |
| `Ledgers.Ledger.DeleteAt` | scripts.js:103-108 | the list becomes `RemoveAt(old list, index)` and the snapshot is rewritten |
| `Ledgers.Ledger.EditAt` | scripts.js:88-100 | for an index holding a record, returns that record for the form and leaves the same list as a delete at that index; for any other index, nothing changes and nothing is returned |
| `Ledgers.Ledger.DeleteByName` | scripts.js:306-311 | the list becomes the records with a different name and the snapshot is rewritten |
| `Ledgers.ActionLeavesOtherLedger` | scripts.js:18-20 | any load, save, submit, delete by index, edit or delete by name on one ledger leaves the other ledger's list unchanged and still in step with its snapshot, since each writes only its own key (scripts.js:19, 241) |
| `Ledgers.RemoveAt` | scripts.js:104-104 | `splice(index, 1)`: exactly one record goes when the list is non-empty and the index is below its length, otherwise none, and nothing is added; `RemoveAtInRange`, `RemoveAtPastEnd` and `RemoveAtNegative` say which record goes |
| `Ledgers.RemoveAtInRange` | scripts.js:104-104 | for `0 <= i < length`: one record fewer, records before `i` in place, records after it shifted down by one, and the removed one is `s[i]` (multiset) |
| `Ledgers.RemoveAtPastEnd` | scripts.js:104-104 | an index at or past the end removes nothing |
| `Ledgers.RemoveAtNegative` | scripts.js:104-104 | a negative index removes the record that far from the end, or the first record when it reaches past the start |
| `Ledgers.WithoutName` | scripts.js:307-307 | no longer than the input, and every kept record comes from the input and has a different name |
| `Ledgers.WithoutNameCounts` | scripts.js:307-307 | no record with the name survives, and every record with another name survives as many times as it occurred |
| `Ledgers.WithoutNameAppend` | scripts.js:307-307 | removal by name distributes over concatenation, so survivors keep their relative order |
| `Ledgers.WithoutNameAbsent` | scripts.js:307-307 | a list with no record of that name is unchanged |
| `Ledgers.WithoutNameIdempotent` | scripts.js:306-308 | deleting the same name twice equals deleting it once |
| `Aggregation.AddTo` | scripts.js:117-117 | one step `acc[c] = (acc[c] \|\| 0) + amount` adds at most one entry; `AddToLabels`, `AddToTotals` and `AddToSum` say which entry changes and by how much |
| `Aggregation.Aggregate` | scripts.js:116-119 | the `reduce` over the ledger: at most one entry per record, empty only for an empty ledger; its labels (`Labels`, the `Object.keys` of scripts.js:121) and totals are characterised by `AggregateLabels`, `AggregateOrder`, `AggregateTotals` and `AggregateSum` |
| `Aggregation.FirstIndex` | scripts.js:121-121 | the position of the first record in a category, or the length when none; every earlier record has another category |
| `Aggregation.FirstIndexAppend` | scripts.js:116-119 | appending a record does not move a category's first occurrence; a category first seen in the appended record is first seen at the old length |
| `Aggregation.AddToLabels` | scripts.js:117-117 | one fold step keeps the keys as they are when the category is known and appends it otherwise |
| `Aggregation.AddToTotals` | scripts.js:117-117 | one fold step adds the amount to the record's own category total only; a new category starts at the amount |
| `Aggregation.AddToSum` | scripts.js:117-117 | one fold step grows the sum of totals by the amount |
| `Aggregation.AggregateLabels` | scripts.js:116-121 | the labels are distinct and are exactly the categories occurring in the ledger |
| `Aggregation.AggregateOrder` | scripts.js:116-121 | labels come out in order of first appearance in the ledger |
| `Aggregation.AggregateTotals` | scripts.js:116-122 | each label's total is the sum of the amounts of that category's records; a category without a label sums to 0 |
| `Aggregation.AggregateSum` | scripts.js:116-119 | the category totals add up to the sum of all amounts |
| `Aggregation.SumOfAppend` | scripts.js:55-58 | appending a record raises only its own category's sum, by its amount; with `AggregateTotals`, after a submit the new record's category total grows by its amount and every other total stays |
| `TableView.ToUpper` | scripts.js:175-175 | `toUpperCase` (the letters a to z, by `UpperChar`) keeps the length; with `ToUpperIdempotent` and `SearchIgnoresCase` it makes the search case-blind (also scripts.js:185) |
| `TableView.RowMatches` | scripts.js:179-191 | the visibility rule: some cell, upper-cased, contains the upper-cased query; `RowVisible` and `Table.Search` are proved to compute it |
| `TableView.InRange` | scripts.js:216-216 | `date >= start && date <= end`, false when any side is an invalid date; `ReversedRangeHidesAll`, `OneDayRange` and `WiderRangeKeepsRows` state its range properties |
| `TableView.ToUpperIdempotent` | scripts.js:175-185 | upper-casing twice equals upper-casing once |
| `TableView.IndexOf` | scripts.js:185-185 | the result is the first position where the pattern occurs, and -1 iff it occurs nowhere |
| `TableView.RowVisible` | scripts.js:180-190 | the cell loop with early exit shows the row iff some cell, upper-cased, contains the upper-cased query |
| `TableView.SearchIgnoresCase` | scripts.js:175-185 | a query and its upper-cased form show the same rows |
| `TableView.EmptyQueryShowsRow` | scripts.js:179-191 | an empty query shows every row that has a cell |
| `TableView.CellShowsRow` | scripts.js:182-188 | a cell containing the query, spelled in any letter case, shows its row |
| `TableView.FoodFindsLunch` | scripts.js:173-191 | the query "food" shows the seed lunch row, whose category is "Food" |
| `TableView.Table.constructor` | scripts.js:67-84 | a freshly rendered table displays every row |
| `TableView.Table.Search` | scripts.js:173-192 | afterwards each row is shown iff one of its cells contains the query, ignoring case |
| `TableView.Table.ApplyDateFilter` | scripts.js:202-224 | afterwards each row is shown iff the date read from its first cell lies in the inclusive range |
| `TableView.FilterThenSearch` | scripts.js:173-221 | after a date filter then a search, visibility depends on the query alone |
| `TableView.DateLeTotalOrder` | scripts.js:216-216 | date order is reflexive, antisymmetric, transitive and total |
| `TableView.ReversedRangeHidesAll` | scripts.js:216-216 | a range whose end is before its start hides every row |
| `TableView.OneDayRange` | scripts.js:216-216 | both ends are inclusive: a one-day range shows exactly that day |
| `TableView.WiderRangeKeepsRows` | scripts.js:216-216 | widening the range never hides a row that was shown |

## Left out

- The modal dialogs, reading and resetting the form, building rows as markup, `alert`, and the two `window.onclick` handlers (scripts.js:23-30, 67-85, 165-170, 372-377). These are page plumbing. `Table.constructor` keeps only the fact that a fresh render shows every row.
- Chart construction and destruction (scripts.js:125-161, 326-369). Chart.js is a foreign library. Only the fold that feeds it is modelled.
- The text form of snapshots (`JSON.stringify`/`JSON.parse`). Storage is a map from key to list of records, so a corrupt snapshot that fails to parse cannot arise in the model.
- Trimming of form fields. `Ledger.Submit` takes the field values after `trim()`.
- Number parsing (`parseFloat`, `isNaN`), floating-point amounts and `toFixed(2)`. Amounts are integer cents, and "is a number" is the `Option` input.
- Date parsing (`new Date(...)`). `Table.ApplyDateFilter` takes it as the `parse` parameter.
- Which rows and cells the search and filter visit. The search skips header row `tr[0]`, reads `textContent || innerText` and writes `style.display`. `Table` holds only the body rows' cell texts and a shown flag per row. `Table.ApplyDateFilter` requires every row to have a first cell, which every rendered row has; on a row without one the source would fail at `dateCell.textContent`.
- `TableView.UpperChar`: upper-cases only the letters a to z. JavaScript `toUpperCase` also maps other letters, and some to more than one character.
- `Aggregation.Aggregate`: keeps keys in insertion order. Two JavaScript object behaviours are not modelled: `Object.keys` lists integer-like keys first, in numeric order, and a category named after an `Object.prototype` member (such as `constructor`) starts from that inherited value instead of 0.
- `editIncome` is called from the income table (scripts.js:298) but is not defined in scripts.js. The model has no separate income edit; `Ledger.EditAt` is the expense edit.
- `applyDateFilterForIncome` closes the expense filter dialog (scripts.js:429). This is page plumbing.
- Both ledgers store their charts in the same page-wide fields (`window.pieChart`, `window.barChart`), so each redraw destroys the other ledger's chart. This is chart lifecycle, not modelled.
