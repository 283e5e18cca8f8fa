# Finora personal finance: ledger and spreadsheet export

This project models the core of Finora, a single-page personal finance app,
in Dafny:

- **The transaction ledger of the `App` component.** Its state is the list
  of transactions, the form `input`, the id being edited (`editId`) and the
  error message. Its handlers are `handleChange`, `addTransaction`,
  `removeTransaction` and `editTransaction`. It also derives views from the
  list: the income and expense totals, the balance and the list filtered by
  type. `src/App.jsx:401-462` and `fintrack/frontend/src/App.jsx:209-272`
  hold the same code, apart from two comments. The table cites the first
  copy; the class `Ledger.FinanceApp` models both.
- **`exportToExcel` (`src/App.jsx:7-195`).** It folds the transactions into
  twelve monthly income buckets and six category rows of twelve monthly
  spending buckets. It keeps the months that carry data and builds nine
  report rows rounded to cents. It lays them out as a worksheet and formats
  that worksheet.

Modules follow the program's structure:

- `Common`: filtering and sums over sequences.
- `Text`: `String.prototype.trim`.
- `Records`: transactions, the form, dates.
- `Ledger`: the handlers, the derived views and the stateful app class.
- `Aggregation`: the bucket fold, done in place on arrays, and the active
  months.
- `Money`: `toFixed(2)` rounding.
- `Report`: the nine rows.
- `Sheet`: the spreadsheet operations the export uses, as values.
- `Export`: the worksheet layout and formatting, and the whole export.

Where the code and its description disagree, the model follows the code:

- A month is active when its income or one of its category buckets is
  strictly positive (`> 0`), not merely non-zero.
- The header row is first centred (line 138). `eachRow` then visits the
  header too (lines 150-151) and overrides that centring with right/middle,
  then with left for the first cell. The model keeps the override, so the
  header never ends up centred.
- The header's thin borders are replaced by the thick bottom rule alone
  (lines 185-189).
- The number format is set on whole columns (lines 176-179). It therefore
  also lands on the header cells of the month and total columns.
- Saving an edit whose id is no longer in the list leaves the list as it
  was, because the `map` replaces nothing. Edit mode still ends.
- A rejected form sets `error` and changes nothing else. An accepted form
  does not clear `error`; only `handleChange` clears it.
- The category rows follow the list on line 8: alimentacao, lazer, moradia,
  transporte, saude, outros. The description orders them food, transport,
  housing, leisure, health, other.
- `type` and `category` are never validated: any string is stored. An
  expense whose category is not in the list is left out of the report
  without notice.

## Model

| member | source | states |
|---|---|---|
| Text.Trim | src/App.jsx:407 | `trim` keeps a contiguous run of the input that starts after the leading whitespace. What it cuts on either side is all whitespace, neither end of the result is whitespace, and the result is empty exactly when the input is blank. |
| Text.TrimIdempotent | src/App.jsx:420 | A stored name is already trimmed: trimming it again changes nothing. |
| Records.MonthIndex | src/App.jsx:34-37 | `getMonth()` gives the month index 0..11 (calendar month minus one) exactly for a date that parses, and nothing otherwise. |
| Records.SumAmountsConcat | src/App.jsx:453 | The `reduce` sum of amounts over a concatenation is the sum of the two parts. |
| Records.SumAmountsPermutation | src/App.jsx:451-457 | The sum of amounts does not depend on the order of the list. |
| Records.SumAmounts | src/App.jsx:453 | The `reduce` sum of amounts as a left fold; it is characterised by `SumAmountsConcat` and `SumAmountsPermutation`. |
| Common.Filter | src/App.jsx:442 | `Array.prototype.filter`: no longer than the input, every kept element is in the input and passes, and every element that passes is kept (its own contract); `FilterConcat`, `FilterIdempotent`, `FilterCount` and `FilterPermutation` give its algebra. |
| Common.Sum | src/App.jsx:80 | `sumArray` as a left fold; it is characterised by `SumOfSums`, `SumOfDifferences` and `SumOfColumnSums`. |
| Ledger.Validate | src/App.jsx:407-415 | A blank description is rejected first, whatever the amount. A missing, non-numeric or non-positive amount is rejected only when the description is not blank. The form is accepted exactly when neither applies, and then the amount is the positive typed value. |
| Ledger.Message | src/App.jsx:408-413 | The two texts `setError` shows: the missing-description message and the invalid-amount message, word for word; `Validate` decides which one applies. |
| Ledger.AmountRejected | src/App.jsx:412 | The amount test: an empty or non-numeric amount, or one not above zero; `Validate` states where it applies. |
| Ledger.BlankForm | src/App.jsx:432-438 | The reset form: empty name and amount, type `expense`, the given date, category `outros`; `AfterAdd` and the constructor state where it is used. |
| Ledger.Edited | src/App.jsx:402 | The field named by the change event takes the new value and every other field keeps its own. |
| Ledger.NewTransaction | src/App.jsx:417-423 | The new record has the given id and amount and the trimmed name, and keeps the form's type, date and category. |
| Ledger.FormOf | src/App.jsx:447 | The form shows the record's name, amount, type, date and category. |
| Ledger.ReplaceById | src/App.jsx:426 | The list keeps its length. Each entry with the id is replaced in place and every other entry is kept; with no entry to match, the list is unchanged. |
| Ledger.RemoveById | src/App.jsx:442 | No entry with the id remains. Every remaining entry was in the list, and every entry with another id remains; with no entry to match, the list is unchanged. |
| Ledger.RemoveKeepsOrder | src/App.jsx:442 | Removal distributes over concatenation, so survivors keep their relative order. |
| Ledger.RemoveIdempotent | src/App.jsx:442 | Removing the same id twice is the same as removing it once. |
| Ledger.RemoveCounts | src/App.jsx:442 | Every occurrence of a matching entry is dropped, and every occurrence of any other entry is kept. |
| Ledger.FindById | src/App.jsx:446 | `find` gives nothing exactly when no entry has the id. Otherwise it gives an entry with the id that has no entry with that id before it. |
| Ledger.TotalsOfPrepend | src/App.jsx:451-457 | A new head entry adds its amount to the income total only if it is an income, and to the expense total only if it is an expense. Any other type changes neither. |
| Ledger.IncomeData | src/App.jsx:451-453 | `incomeData`, the sum of the income amounts; `TotalsOfPrepend` states how each entry moves it. |
| Ledger.ExpenseData | src/App.jsx:455-457 | `expenseData`, the sum of the expense amounts; `TotalsOfPrepend` states how each entry moves it. |
| Ledger.Balance | src/App.jsx:459 | `balance`, income minus expense; `BalanceIsSignedSum` proves it equal to the signed sum over the list. |
| Ledger.BalanceIsSignedSum | src/App.jsx:451-459 | The balance equals an independent definition: the sum of amounts, counted positive for incomes and negative for expenses. |
| Ledger.FilteredTransactions | src/App.jsx:461-462 | For "all" the view is the whole list. Otherwise it holds only entries of that type that are in the list, and every list entry of that type appears in it. |
| Ledger.FilteredCounts | src/App.jsx:461-462 | The view holds each entry of the shown type (every entry for "all") exactly as many times as the list does, and no entry of another type. |
| Ledger.FilteredKeepsOrder | src/App.jsx:461-462 | The filtered view distributes over concatenation, so it keeps the list's order. |
| Ledger.SaveKeepsConsistent | src/App.jsx:417-430 | A record with a fresh id and a positive amount keeps ids unique and amounts positive, both when it is prepended and when it replaces the edited entry. |
| Ledger.RemoveKeepsConsistent | src/App.jsx:441-443 | Removal keeps ids unique and amounts positive. |
| Ledger.AcceptedState | src/App.jsx:425-438 | The accepted branch of `addTransaction`: the record replaces the edited entry in edit mode or is prepended otherwise; edit mode ends, the form resets and `error` stays. Its properties are stated in `AfterAdd` and `AcceptedKeepsConsistent`. |
| Ledger.AcceptedKeepsConsistent | src/App.jsx:417-430 | From a consistent state, saving a record with a fresh id and a positive amount, in either mode, leaves a consistent state. |
| Ledger.AfterAdd | src/App.jsx:406-439 | A rejected form changes only `error`. An accepted form is prepended outside edit mode, or replaces the edited entry in edit mode. Edit mode then ends and the form resets. A consistent state with a fresh id stays consistent. |
| Ledger.AfterRemove | src/App.jsx:441-443 | The new list is the old one with the id removed (`RemoveById`: every other entry stays, in order). Form, edit mode and error are untouched, and consistency is kept. |
| Ledger.AfterEdit | src/App.jsx:445-449 | The list and error are untouched. Edit mode holds the id, and the form shows the first entry with that id. |
| Ledger.FinanceApp.constructor | src/App.jsx:371-395 | Mounting gives an empty or loaded list, the blank form, no edit mode and no error. |
| Ledger.FinanceApp.HandleChange | src/App.jsx:401-404 | The one field the event names takes its new value (`Edited`), the error clears, and nothing else changes. |
| Ledger.FinanceApp.AddTransaction | src/App.jsx:406-439 | The new field values are the state `AfterAdd` describes. |
| Ledger.FinanceApp.RemoveTransaction | src/App.jsx:441-443 | The new field values are the state `AfterRemove` describes. |
| Ledger.FinanceApp.EditTransaction | src/App.jsx:445-449 | The new field values are the state `AfterEdit` describes. |
| Aggregation.CategoryIndex | src/App.jsx:41-52 | A listed category names the row at its own position in the category list. |
| Aggregation.CategoriesDistinct | src/App.jsx:8 | The six categories are distinct strings, so each bucket row belongs to one category. |
| Aggregation.RecordFeedsItsBucket | src/App.jsx:47-54 | One more record adds its amount to the income bucket of its month if it is an income, and to the bucket of its category and month if it is an expense of a listed category. Every other bucket keeps its value. |
| Aggregation.UncountedChangesNoBucket | src/App.jsx:47-54 | A record of another type, an expense outside the six categories, or a record whose date does not parse changes no bucket. |
| Aggregation.Deposit | src/App.jsx:48-53 | The `forEach` body, on the arrays in place: exactly the bucket the record feeds grows by its amount. |
| Aggregation.Aggregate | src/App.jsx:39-54 | The two arrays, filled by the in-place fold, equal the reference buckets: each bucket is the sum of the amounts of the records that feed it. |
| Aggregation.BucketsDependOnlyOnMonth | src/App.jsx:34-54 | Records that agree on type, category, amount and month give the same buckets, whatever their year, day, id or name. |
| Aggregation.BucketsPermutation | src/App.jsx:47-54 | The buckets do not depend on the order of the transactions. |
| Aggregation.ActiveFrom | src/App.jsx:57-61 | The months from a starting month on that have data, strictly increasing, and each of them. |
| Aggregation.ActiveMonths | src/App.jsx:57-61 | The active months are strictly increasing month indexes: every one of them has data, and every month with data is among them. |
| Aggregation.IsActive | src/App.jsx:58-60 | A month has data when its income or one of its category buckets is positive; `ActiveMonths` keeps exactly these months. |
| Aggregation.NothingCountedAllZero | src/App.jsx:40-54 | When no record lands in any bucket, every bucket stays zero. |
| Aggregation.CountedMakesActive | src/App.jsx:47-61 | With positive amounts, a record that lands in a bucket makes its month active. |
| Aggregation.NothingToExportIffNothingCounted | src/App.jsx:57-66 | With positive amounts, there is no month to export exactly when no record is an income or a listed-category expense with a parsable date. |
| Money.Cents | src/App.jsx:83 | The whole number of cents of a non-negative value, rounding half up: within half a cent above and below. |
| Money.RoundCents | src/App.jsx:83 | `formatNumber`; `RoundCentsNearest` proves it gives whole cents within half a cent with ties away from zero, and `RoundCentsOdd` that it commutes with negation. |
| Money.RoundCentsNearest | src/App.jsx:83 | `formatNumber` gives a whole number of cents within half a cent of its input. On a tie it moves away from zero. |
| Money.RoundCentsOdd | src/App.jsx:83 | Rounding commutes with negation. |
| Money.RoundCentsKeepsCents | src/App.jsx:83 | A value that is already a whole number of cents is left unchanged. |
| Money.RoundHalfCentUp | src/App.jsx:83 | 10.005 is shown as 10.01. |
| Report.SeriesLine | src/App.jsx:92-95 | Each month value of a row is its rounded bucket. The total is the rounded sum of the unrounded values. |
| Report.MonthSpend | src/App.jsx:110 | A month's spending summed over the six categories; `ExpenseTotalIsSumOfCategories` relates its yearly sum to the category totals. |
| Report.IncomeSeries | src/App.jsx:95 | The income row before rounding: one value per active month, that month's income bucket. |
| Report.CategorySeries | src/App.jsx:104 | A category row before rounding: one value per active month, that category's bucket for the month. |
| Report.ExpenseSeries | src/App.jsx:109-111 | `totalDespesaPorMes`: one value per active month, the month's spending over the six categories. |
| Report.SaldoSeries | src/App.jsx:120 | `saldoPorMes`: one value per active month, its income minus its total spending. |
| Report.LineAt | src/App.jsx:89-126 | Row `k` of `linhas` in push order: income, the six categories, total spending, balance; `ReportLines`, `LineShapes` and `LineTotals` state what each row holds. |
| Report.ReportLines | src/App.jsx:86-126 | There are nine rows, in push order: income, the six categories in list order, total spending and the month's balance, each with its label. Every row has one value per active month, and each value is the rounded amount it shows. |
| Report.LineShapes | src/App.jsx:88-126 | The label and month values of each row, row by row. |
| Report.ExpenseTotalIsSumOfCategories | src/App.jsx:109-116 | Before rounding, the yearly spending total equals the sum of the six category totals. |
| Report.SaldoTotalIsIncomeMinusExpense | src/App.jsx:119-125 | Before rounding, the yearly balance equals yearly income minus yearly spending. |
| Report.LineTotals | src/App.jsx:95-125 | Each row's total is the rounded sum of its unrounded values. The spending and balance totals are rewritten by the two identities above. |
| Report.ReportTotals | src/App.jsx:95-125 | The same totals, stated for the rows the report holds. |
| Common.SumOfColumnSums | src/App.jsx:109-116 | Summing a matrix column by column gives the same total as summing it row by row. |
| Sheet.RowValues | src/App.jsx:129-131 | A row's values, cell by cell, without their styles. |
| Sheet.PlainRow | src/App.jsx:130 | `addRow` creates cells holding exactly the given values, with no style and no height. |
| Sheet.NewSheet | src/App.jsx:70-77 | The new sheet has the given name and columns and no views. Its single row holds the column headers unstyled. |
| Sheet.AddRow | src/App.jsx:130 | The sheet gains one last row holding exactly the given values, unstyled and without a height. Name, columns, views and every earlier row are unchanged. |
| Sheet.RestyleRow | src/App.jsx:137-171 | A row setter applies its change to every cell of that row, and to nothing else. |
| Sheet.RestyleCell | src/App.jsx:153 | `getCell` restyles one cell, and nothing else. |
| Sheet.SetHeight | src/App.jsx:144 | Only the height of that row changes. |
| Sheet.SetColumnFormat | src/App.jsx:177-179 | The column's format and the format of that column's cell in every row change; nothing else does. |
| Sheet.SetColumnWidth | src/App.jsx:182 | That column takes the new width. Every other column, every row, the name and the views are unchanged. |
| Export.Columns | src/App.jsx:73-77 | The description column (width 30), then one column per active month keyed and headed by its month key (width 15), then "TOTAL ANO" keyed `total` (width 18). |
| Export.MonthKeysDistinct | src/App.jsx:18-31 | Distinct months have distinct keys. |
| Export.ColumnKeysDistinct | src/App.jsx:176-182 | All column keys are distinct, so `getColumn(key)` finds the column at the position the key was given. |
| Export.GetColumnFindsPosition | src/App.jsx:176-182 | `getColumn` of a month key, of `total` and of `desc` can only find that month's column, the last column and the first column, so formatting by position formats the columns the keys name. |
| Export.LineValues | src/App.jsx:129-131 | `addRow` of a row object puts the description first, then the month values in column order, then the total. |
| Export.BuildSheet | src/App.jsx:69-131 | The header row, then one plain row per report row in push order. Every row has a cell per column, and nothing is styled yet. |
| Export.RowsShowLines | src/App.jsx:128-131 | Formatting leaves the values alone: the header shows the column headers, and row `k + 1` shows report row `k`. |
| Export.StyleHeader | src/App.jsx:136-147 | Only the header row is restyled: bold white 12-point font, centred, blue fill, height 20. The first row and column are then frozen. |
| Export.StripeRow | src/App.jsx:150-172 | The `eachRow` callback restyles only its own row. Each cell is aligned right and middle, except the first, which is aligned left. Each cell gets thin gray borders on all sides. A row below the header gets a gray fill for an even row number and a white fill for an odd one. |
| Export.StripeFill | src/App.jsx:165-172 | Row 1 (the header) keeps its fill; from row 2 on, even row numbers are light gray and odd ones white. |
| Export.StripeRows | src/App.jsx:150-173 | Every row, header included, gets the callback's styling. The header keeps its own fill, and values and heights are unchanged. |
| Export.FormatMoneyColumns | src/App.jsx:175-179 | Every month column and the total column, and every cell in them, get the currency format; the description column does not. |
| Export.FinishedIsLaid | src/App.jsx:68-131 | The finished columns and rows are exactly the layout the buckets determine. |
| Export.FormatSheet | src/App.jsx:133-189 | Values are kept. The description column widens to 35 and the other columns take the currency format. Every cell ends with its final style: header font, alignment, fill, border (the thick blue bottom rule on the header) and number format. |
| Export.ExportToExcel | src/App.jsx:7-195 | It ends with the alert message exactly when no month has data. Otherwise the sheet "Orçamento Familiar" is saved as "orçamento.xlsx", with the columns and rows of the buckets and the final styling of every cell. |

## Left out

- Rendering (JSX), icons and the category list shown in the form are not modelled. They are presentation only.
- The `localStorage` save effect is not modelled. It writes the list to storage and changes no state. Loading the saved list appears only as the constructor's optional argument.
- `Date.now()` and today's date are parameters (`now`, `today`). Clocks are outside the model. Two saves in the same millisecond get the same id, so `AfterAdd` keeps `Consistent` only when `now` is fresh (`FreshId(now, …)`).
- A date's year and day are carried but not checked: only the month of a parsed date is used by the program, so any year and day count as parsed.
- Local time zones are not modelled: a parsed date's month is the calendar month of its `YYYY-MM-DD` text.
- Amounts are exact reals, not IEEE doubles, so sums and `toFixed` have no binary rounding error.
- String-to-number coercion (`isNaN`, `parseFloat`) is not modelled: the form carries the parsed amount or none.
- ExcelJS's byte output, `writeBuffer`, `Blob` and `saveAs` are not modelled. The model stops at the finished worksheet and the file name.
- `alert` is not modelled as a side effect: it is the `NothingToExport` outcome carrying its message.
- Fills are the fill colour only. The `pattern`/`solid` kind is the same everywhere.
- Style that ExcelJS keeps on rows and columns themselves, which would style cells added later, is not modelled. The model applies each setter to the cells that exist.
- Ledger.FinanceApp.EditTransaction and Ledger.AfterEdit require the id to be present. The handler is reached only from a row of the displayed list; with an absent id the source would pass `undefined` to `setInput`, and the next render would fail reading `input.name` (src/App.jsx:561); every call site passes the id of a displayed row (src/App.jsx:638-643).
- The backend files (`fintrack/backend`) are not part of this model.
