# Farm control: record-update rules and ledger lists, in Dafny

This project models the parts of the farm-management system that hold logic
of their own, and proves what they guarantee.

- **Stock withdrawal** (`MaterialController::decreaseStock`). The quantity is
  validated. A withdrawal larger than the stock is refused. Otherwise the
  quantity is subtracted, and `value` and the `critical` / `low` / `ok` status
  are recomputed. `store` and `update` are modelled too; they save fields as
  given and derive nothing.
- **Salary payment status** (`SalaryController`). The `paid` / `pending` /
  `unpaid` rule, which the controller writes out three times, is one function,
  `Payroll.PayStatusFor`. `store` fills in defaults, `update` recomputes the
  status only when an amount field was sent, and `pay` adds an accepted amount.
  Each method is proved to agree with the rule.
- **Mobile ledger screens** (`Income.tsx`, `Expense.tsx`, `Report.tsx`). Each
  screen is a class holding its list as a `seq`, plus its form and selection.
  The methods are add, edit-by-id, delete-by-id, search and form reset. Edit,
  delete and search are proved against the pure `filter` / `map` functions of
  module `Sequences` and the string functions of module `Text`; add and report
  generation state the new list directly.

Modules: `Options` (the optional value), `Text` (`toLowerCase`, `includes`,
`split(c)[0]`), `Sequences` (`filter`, conditional `map`), `Calendar` (what a
JavaScript `Date` prints), `Inventory`, `Payroll`, `IncomeLedger`,
`ExpenseLedger`, `Reports`. Money is `real`, so sums are exact. Stock is `int`.

- `store` and `update` save `value` and `status` as given; only
  `decreaseStock` recomputes them (see `Inventory.UpdateCanDesynchronize`).
- The test `paid_amount >= base_salary` comes first. So with a base salary of
  0 or less the status is `paid` for a paid amount at least the base (so for
  any non-negative paid amount), and `Payroll.PayStatusFor` states that. With
  a positive base salary the status is `unpaid` exactly when nothing was
  paid, `pending` for a partial payment and `paid` from the base salary up
  (`Payroll.TiersForPositiveBase`).
- A rejected `pay` amount is caught by `catch (\Exception $e)` and answered
  with a 500. The model records only that the payment is refused and nothing
  changes.

## Model

| member | source | states |
|---|---|---|
| `Inventory.StatusFor` | backend/app/Http/Controllers/MaterialController.php:92-98 | `critical` iff stock <= 0; `low` iff 0 < stock <= minStock (a stock equal to minStock is low); `ok` iff stock is positive and above minStock |
| `Inventory.Material.DecreaseStock` | backend/app/Http/Controllers/MaterialController.php:76-106 | a quantity other than an integer >= 1 is rejected; a quantity above the stock gives "Not enough stock available"; in both cases the record is unchanged and not saved; on success stock = old stock - quantity >= 0, value = new stock * price, status = StatusFor(new stock, minStock), critical exactly when the stock is 0, value and status consistent; minStock, price and the other columns are untouched |
| `Inventory.WithdrawWholeStock` | backend/app/Http/Controllers/MaterialController.php:88-93 | for every material with stock at least 1, withdrawing the whole stock succeeds and leaves stock 0, value 0 and the status `critical` |
| `Inventory.QuantityAccepted` | backend/app/Http/Controllers/MaterialController.php:80-82 | the rule required, integer, min 1: only an integer quantity of at least 1 passes |
| `Inventory.Material.Create` | backend/app/Http/Controllers/MaterialController.php:23-33 | `store` saves the validated fields as given, value and status included, with no recomputation |
| `Inventory.Material.Update` | backend/app/Http/Controllers/MaterialController.php:48-58 | each supplied column is overwritten and each absent one kept: the other columns the request names are merged in, an explicit null among them clearing its column, and every column the request leaves out keeps its value; value and status change only if they are supplied |
| `Payroll.PayStatusFor` | backend/app/Http/Controllers/SalaryController.php:29-32 | the rule is total with exactly one tier: paid iff paid >= base (so paid == base is paid); pending iff 0 < paid < base; unpaid iff paid <= 0 and paid < base |
| `Payroll.TiersForPositiveBase` | backend/app/Http/Controllers/SalaryController.php:121-122 | for a positive base salary: unpaid iff paid <= 0, pending iff 0 < paid < base, paid iff paid >= base |
| `Payroll.AmountAccepted` | backend/app/Http/Controllers/SalaryController.php:116-118 | the rule required, numeric, min 0.01: only a number of at least 0.01 passes |
| `Payroll.Store` | backend/app/Http/Controllers/SalaryController.php:23-38 | paid amount defaults to 0 and the month to the current one; a supplied status is kept verbatim; without one, the status is the rule applied to the stored amounts |
| `Payroll.Salary.Create` | backend/app/Http/Controllers/SalaryController.php:34 | `Salary::create` stores exactly the fields it is given |
| `Payroll.Salary.Update` | backend/app/Http/Controllers/SalaryController.php:72-76 | supplied fields overwrite, absent ones stay; if paid_amount or base_salary was supplied, the status follows the rule on the post-fill amounts; otherwise it is the supplied status or the old one |
| `Payroll.Salary.Pay` | backend/app/Http/Controllers/SalaryController.php:116-122 | accepted iff the amount is numeric and >= 0.01; a refused amount changes nothing; on acceptance the new paid amount is old + amount, strictly larger, with no cap, and the status follows the rule on it and the unchanged base salary |
| `Text.ToLower` | mobile/components/financial/Income.tsx:126-128 | same length, each character lower-cased (ASCII letters) |
| `Text.Includes` | mobile/components/financial/Expense.tsx:96 | `includes` can only hold when the needle is no longer than the haystack, and the empty needle is included in every string, so an empty search matches everything |
| `Text.IncludesIff` | mobile/components/financial/Income.tsx:126-128 | `includes` holds iff the needle occurs at some index of the haystack |
| `Text.IncludesLoweredPrefix` | mobile/components/financial/Income.tsx:126-128 | a text that starts with the query is matched by it case aside, as the search does |
| `Text.BeforeFirst` | mobile/components/financial/Income.tsx:84 | `split(c)[0]` is a prefix without `c`, followed in the string by `c` unless it is the whole string |
| `Text.BeforeFirstWithout` | mobile/components/financial/Income.tsx:102 | a string without `c` is returned whole |
| `Text.BeforeFirstAppend` | mobile/components/financial/Income.tsx:84 | splitting `a + b` with no `c` in `a` keeps `a` whole |
| `Sequences.Filter` | mobile/components/financial/Income.tsx:113 | the result keeps only elements of the input that satisfy the predicate, and every input element that satisfies it is kept |
| `Sequences.FilterAppend` | mobile/components/financial/Expense.tsx:147 | filter distributes over concatenation: the kept elements stay in their original order |
| `Sequences.FilterKeepsAll` | mobile/components/financial/Income.tsx:124-129 | when every element satisfies the predicate, the filter returns the list itself |
| `Sequences.FilterMultiplicity` | mobile/components/financial/Report.tsx:59 | each kept value occurs as often as in the input; every removed value occurs zero times |
| `Sequences.MapWhere` | mobile/components/financial/Income.tsx:96-105 | same length; position i is replaced iff it is a hit, and every other element stays identical and in place |
| `Sequences.MapWhereNoHit` | mobile/components/financial/Expense.tsx:107-111 | an edit whose id matches nothing leaves the list unchanged |
| `Calendar.Weekday` | mobile/components/financial/Income.tsx:84 | the weekday that `toString()` prints, 0 for Sunday to 6 for Saturday; it advances by one per day (`Calendar.WeekdayOfNextDay`) from the anchor 16 January 2024, a Tuesday (`Calendar.WeekdayExample`) |
| `Calendar.Padded` | mobile/components/financial/Expense.tsx:259 | a date field as `toISOString` and `toString` print it: exactly `width` characters, all decimal digits, reading back as n modulo 10 to the width (`Calendar.PaddedValue`) |
| `Calendar.IsoDate` | mobile/components/financial/Expense.tsx:259 | the date in the form YYYY-MM-DD: 10 characters with dashes at positions 4 and 7, whose groups read back as the year, the month and the day (`Calendar.IsoDateSpellsDate`) |
| `Calendar.ToIsoString` | mobile/components/financial/Report.tsx:48 | `toISOString()` in the form YYYY-MM-DDTHH:mm:ss.sssZ: 24 characters, the YYYY-MM-DD date first, then 'T', ':' at 13 and 16, '.' at 19 and 'Z' last |
| `Calendar.ToDateString` | mobile/components/financial/Income.tsx:84 | `toString()` in UTC, `Www Mmm DD YYYY HH:MM:SS GMT+0000 (Coordinated Universal Time)`: the three-letter weekday name first, then a space, and the zone text from position 24 on |
| `Calendar.IsoDateShape` | mobile/components/financial/Expense.tsx:259 | a date's YYYY-MM-DD form is 10 characters, digits with dashes at positions 4 and 7, with no 'T' |
| `Calendar.IsoStringDatePart` | mobile/components/financial/Expense.tsx:259 | `toISOString().split('T')[0]` is exactly the YYYY-MM-DD date |
| `Calendar.IsoDateExample` | mobile/components/financial/Expense.tsx:259 | 16 January 2024 is written "2024-01-16" |
| `Calendar.PaddedValue` | mobile/components/financial/Expense.tsx:259 | the fixed-width decimal field read back is the number modulo 10 to the width |
| `Calendar.IsoDateGroups` | mobile/components/financial/Expense.tsx:259 | the first four, middle two and last two characters of YYYY-MM-DD are the padded year, month and day |
| `Calendar.IsoDateSpellsDate` | mobile/components/financial/Expense.tsx:259 | the digit groups of YYYY-MM-DD read back as exactly the year, the month and the day |
| `Calendar.WeekdayOfNextDay` | mobile/components/financial/Income.tsx:84 | the weekday that `toString()` prints advances by one, modulo 7, from each calendar day (leap years, month and year ends included) to the next |
| `Calendar.DayNumberStep` | mobile/components/financial/Income.tsx:84 | the day count behind the weekday grows by 1, or falls by 27 or 34 at a month's end, from a day to the next: always 1 modulo 7 |
| `Calendar.YearTermStep` | mobile/components/financial/Income.tsx:84 | the year part of that count grows by 2 into a leap year and by 1 into any other year |
| `Calendar.WeekdayExample` | mobile/components/financial/Income.tsx:84 | 16 January 2024 is a Tuesday, printed "Tue" |
| `Calendar.DateStringSplitAtT` | mobile/components/financial/Income.tsx:84 | `toString().split('T')[0]` is empty for a Tuesday or a Thursday, and otherwise ends just before the 'T' of "GMT" |
| `Calendar.DateStringNeverIsoDate` | mobile/components/financial/Income.tsx:84 | `toString().split('T')[0]` never equals the date's YYYY-MM-DD form |
| `IncomeLedger.StoredDateAsWritten` | mobile/components/financial/Income.tsx:84 | as written, `date.toString().split('T')[0]`: the result holds no 'T', and it differs from the corrected rule only for a Date chosen in the picker (also the edit path at line 102) |
| `IncomeLedger.StoredDate` | mobile/components/financial/Income.tsx:84 | a string date is cut before its first 'T', so a 'YYYY-MM-DD' string is stored unchanged; a picked Date is stored as YYYY-MM-DD (the corrected rule) |
| `IncomeLedger.PickedDateStoredWrongly` | mobile/components/financial/Income.tsx:84 | as written, a picked Date is never stored as its calendar date, and is stored empty on Tuesdays and Thursdays |
| `IncomeLedger.TuesdayStoredEmpty` | mobile/components/financial/Income.tsx:84 | as written, 2024-01-16 picked in the form is stored as ""; corrected, as "2024-01-16" |
| `IncomeLedger.Complete` | mobile/components/financial/Income.tsx:73 | the guard of add and edit (line 91 adds the selection): every field truthy, so an empty text, the amount 0 or no date counts as missing |
| `IncomeLedger.MatchesQueryIff` | mobile/components/financial/Income.tsx:124-129 | an item is kept iff the lower-cased query occurs in its lower-cased category, description or customer |
| `IncomeLedger.EmptySearchKeepsAll` | mobile/components/financial/Income.tsx:124-129 | an empty query keeps every item, in order |
| `IncomeLedger.AddContinuesNumbering` | mobile/components/financial/Income.tsx:77 | with ids 1..n and no form id, `length + 1` continues the numbering and is fresh |
| `IncomeLedger.AddAfterDeleteRepeatsId` | mobile/components/financial/Income.tsx:77-86 | after deleting id 1 from ids 1, 2, the next `length + 1` id is 2 again |
| `IncomeLedger.IncomeScreen.constructor` | mobile/components/financial/Income.tsx:40-66 | the initial empty form, no selection, and the two initial records |
| `IncomeLedger.IncomeScreen.OpenAddForm` | mobile/components/financial/Income.tsx:169-175 | the Add button opens the form outside edit mode |
| `IncomeLedger.IncomeScreen.SetSearchQuery` | mobile/components/financial/Income.tsx:165-168 | the search box sets the query to the typed text, and `FilteredIncome` then shows what matches it (as `IncomeLedger.SearchScenario` does for "Manure") |
| `IncomeLedger.IncomeScreen.BeginEdit` | mobile/components/financial/Income.tsx:142-147 | the Edit button selects the item and loads it, id included, into the form |
| `IncomeLedger.IncomeScreen.FillForm` | mobile/components/financial/Income.tsx:255-292 | the inputs replace the form's fields and keep its id |
| `IncomeLedger.IncomeScreen.AddIncome` | mobile/components/financial/Income.tsx:72-88 | refused, with nothing changed, iff a field is missing or falsy (amount 0 counts as missing); otherwise exactly one record is appended at the end, with id = old length + 1 when no item is selected, and the form is reset; the date is stored by the corrected rule `StoredDate` (see ## Findings) |
| `IncomeLedger.IncomeScreen.EditIncome` | mobile/components/financial/Income.tsx:90-108 | refused, with nothing changed, without a selection or with a missing field; otherwise the length and every id are kept, the form is overlaid exactly on the records with the selected id, every other record stays identical and in place, and the form is reset; the date is stored by the corrected rule `StoredDate` (see ## Findings) |
| `IncomeLedger.IncomeScreen.DeleteIncome` | mobile/components/financial/Income.tsx:110-115 | every record with the id is removed; every other record is kept, in order |
| `IncomeLedger.IncomeScreen.ResetForm` | mobile/components/financial/Income.tsx:117-122 | empty form defaults, no selection, form closed, edit mode off |
| `IncomeLedger.IncomeScreen.FilteredIncome` | mobile/components/financial/Income.tsx:124-129 | exactly the records the search predicate keeps, and all of them for an empty query |
| `ExpenseLedger.Complete` | mobile/components/financial/Expense.tsx:101 | the guard of handleSubmit: every field truthy, so an empty text, the amount 0 or an empty date counts as missing |
| `ExpenseLedger.NextId` | mobile/components/financial/Expense.tsx:114-116 | with increasing ids, the next id (last id + 1, or 1 for an empty list) exceeds every id in the list |
| `ExpenseLedger.MatchesQueryIff` | mobile/components/financial/Expense.tsx:95-97 | an expense is kept iff the lower-cased query occurs in its lower-cased description |
| `ExpenseLedger.IncreasingIdsAreUnique` | mobile/components/financial/Expense.tsx:114-116 | strictly increasing ids are pairwise distinct |
| `ExpenseLedger.AppendKeepsIdsIncreasing` | mobile/components/financial/Expense.tsx:114-120 | appending with last id + 1 (1 for an empty list) keeps ids strictly increasing, and the new id exceeds every old one |
| `ExpenseLedger.DeleteKeepsIdsIncreasing` | mobile/components/financial/Expense.tsx:147 | deleting by id keeps ids strictly increasing |
| `ExpenseLedger.EditKeepsIds` | mobile/components/financial/Expense.tsx:106-112 | replacing the selected id's records keeps every id in place |
| `ExpenseLedger.ExpenseScreen.constructor` | mobile/components/financial/Expense.tsx:62-93 | the empty form, no selection, and the two initial records |
| `ExpenseLedger.ExpenseScreen.OpenForm` | mobile/components/financial/Expense.tsx:162-166 | the Add Expense button only shows the form; the selection and the form data stay, so pressing it during an edit keeps edit mode |
| `ExpenseLedger.ExpenseScreen.SetSearchQuery` | mobile/components/financial/Expense.tsx:157-160 | the search box sets the query to the typed text, and `FilteredExpenses` then shows what matches it (as `ExpenseLedger.SearchScenario` does for "Purchase") |
| `ExpenseLedger.ExpenseScreen.HandleEdit` | mobile/components/financial/Expense.tsx:134-138 | selects the item and loads it, id included, into the form |
| `ExpenseLedger.ExpenseScreen.FillForm` | mobile/components/financial/Expense.tsx:220-260 | the inputs replace the form's fields and keep its id |
| `ExpenseLedger.ExpenseScreen.HandleSubmit` | mobile/components/financial/Expense.tsx:99-132 | refused, with nothing changed, iff a field is falsy; in edit mode the length and ids are kept and only records with the selected id are replaced; in add mode one record with last id + 1 (or 1) is appended; ids stay strictly increasing, so unique; then the form is empty and nothing is selected |
| `ExpenseLedger.ExpenseScreen.Cancel` | mobile/components/financial/Expense.tsx:275-285 | closes the form, clears the selection, empties the form |
| `ExpenseLedger.ExpenseScreen.HandleDelete` | mobile/components/financial/Expense.tsx:140-150 | exactly the records with the id are removed; the rest stay, in order; ids stay increasing |
| `ExpenseLedger.ExpenseScreen.FilteredExpenses` | mobile/components/financial/Expense.tsx:95-97 | exactly the records whose description matches the query |
| `Reports.Title` | mobile/components/financial/Report.tsx:32-36 | `reportTitles`: every report type has a title, and it is non-empty |
| `Reports.CanGenerate` | mobile/components/financial/Report.tsx:41 | the guard of generateReport: a type is chosen, and a custom period has both dates |
| `Reports.TitlesDistinct` | mobile/components/financial/Report.tsx:32-36 | the three report titles are distinct |
| `Reports.PrependKeepsIdsInRange` | mobile/components/financial/Report.tsx:45-52 | while the ids of n reports are distinct and within 1..n, prepending with id `length + 1` keeps that so and the new id is fresh |
| `Reports.PrependAfterDeleteRepeatsId` | mobile/components/financial/Report.tsx:45-59 | deleting report 1 from the initial list leaves report 2, and the next `length + 1` id is 2 again |
| `Reports.ReportScreen.constructor` | mobile/components/financial/Report.tsx:21-30 | the initial choices and the two initial reports, whose ids 1, 2 are distinct and within 1..2 |
| `Reports.ReportScreen.OpenDialog` | mobile/components/financial/Report.tsx:69 | the Generate button opens the dialog |
| `Reports.ReportScreen.Choose` | mobile/components/financial/Report.tsx:115-143 | the pickers and date fields set the current choices |
| `Reports.ReportScreen.GenerateReport` | mobile/components/financial/Report.tsx:40-54 | refused, with nothing changed and the dialog left open, iff no type is chosen or a custom period lacks a date; otherwise exactly one report goes in front, with id = old length + 1, name = the type's title, the chosen format and type, and the date `now.toISOString().split('T')[0]`, which is `now`'s YYYY-MM-DD date; the old reports follow in order and the dialog closes; while no report was deleted, the ids stay distinct and within 1..n and the new id is fresh |
| `Reports.ReportScreen.DeleteReport` | mobile/components/financial/Report.tsx:56-61 | exactly the reports with the id are removed; the rest stay, in order |

## Findings

| source | as written | input that shows it | evidently intended | confidence | as-written member | corrected member |
|---|---|---|---|---|---|---|
| mobile/components/financial/Income.tsx:84 | a date chosen in the picker (a `Date` object) is stored as `date.toString().split('T')[0]`; `toString()` starts with the weekday ("Tue Jan 16 2024 00:00:00 GMT+0000 …"), so the text is cut at the first 'T' it holds | 16 January 2024 (a Tuesday) is stored as ""; a Monday is stored as "Mon Jan 15 2024 00:00:00 GM"; line 102 (edit) does the same | the YYYY-MM-DD date, as `toISOString().split('T')[0]` gives it (Expense.tsx:259, the list display at Income.tsx:138 and the range field at Income.tsx:198 use that form) | high, not executed | `IncomeLedger.StoredDateAsWritten`, shown by `IncomeLedger.PickedDateStoredWrongly` and `IncomeLedger.TuesdayStoredEmpty` | `IncomeLedger.StoredDate` |

The screen classes use the corrected `StoredDate`. A stored `""` also means
that a later edit of that record which does not pick a new date is refused:
the form's date is falsy.

## Left out

- Persistence and HTTP: `findOrFail`, `save`, `create`, `load('user')`, JSON
  responses, status codes, logging in the catch blocks, and the routes. A
  modelled method that reports success stands for "saved and answered".
- Database failures in `SalaryController` (the `QueryException` and generic
  exception branches). They come from the store, not from these rules.
- Concurrency: two simultaneous withdrawals or payments on one record belong
  to the database layer.
- The request-validation classes `StoreMaterialRequest`, `UpdateMaterialRequest`,
  `StoreSalaryRequest` and `UpdateSalaryRequest` are not part of this model.
  Their field lists and rules are unknown, so their validated output is a
  parameter: `MaterialPatch`, `StoreRequest`, `UpdateRequest`.
- `Inventory.Material.Update`: an explicit `null` for `currentStock`,
  `minStock`, `pricePerUnit`, `value` or `status` is treated as absent.
  Eloquent's `fill` would write it; the model keeps these five columns
  non-null so that `decreaseStock`'s arithmetic stays on numbers. An explicit
  `null` in any other column is written (`None`).
- `Payroll.Salary.Update`: an explicit `null` in an update request is merged
  with an absent field. Eloquent's `fill` would write the null into the
  column; the model keeps the old value.
- Clocks: the current month default of `store` and the report's
  `new Date()` are parameters (`currentMonth`, `now`).
- The device's time zone is taken as UTC, so `toString` and `toISOString` see
  the same calendar fields. `Calendar.Instant` does not check a day against
  the length of its month; only `Calendar.NextDay` and the weekday lemmas
  about it require a day within its month.
- Number parsing and floating point: `Number(...)`, NaN and binary rounding
  are out. Amounts are exact `real`s. A falsy amount is the amount 0; in the
  expense form it also stands for the empty string.
- `Text.ToLower`: lower-cases ASCII letters only, not the full Unicode case
  mapping of `toLowerCase`.
- Pass-through CRUD and glue: `index`, `show` and `destroy` in both
  controllers; the staff, sale, borrowing, user and auth controllers;
  `Sale.tsx` and `OverView.tsx`.
- Display-only components, styles, themes and layout arithmetic.
- UI interaction: `Alert.alert` and the confirmation dialogs are out. Only the
  list change after confirmation is modelled. A refused operation returns
  `false` where the screen shows its error alert.
- The income screen's time filter and custom date range pickers. They are
  state with no effect on `filteredIncome`.
