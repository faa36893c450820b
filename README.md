# Matsya Hisab ledger in Dafny

Matsya Hisab is a browser bookkeeping tool for a small fish-trading business.
Its logic lives in one class, `MatsyaHisab` (`script.js`), which keeps a list of
expense records (`this.expenses`) and mirrors it to the browser's local storage.
This project models that class without its DOM wiring. It covers:

- the record list and the operations that change it: a daily entry appends one
  record per positive form line, an invoice save appends one record per kept
  invoice line, delete filters by id, and the dashboard's recent-entries table
  sorts the list in place, newest first;
- the sums: the day, month and year cards, the five-key category tables of the
  monthly and yearly pages, the relative bar percentages and the twelve-month
  overview;
- the invoice form: which rows become lines, and the proposed invoice number
  `INV-YYYYMM-NNN`;
- the CSV export, and the search, date-range and category filters.

Modules, one per concern:

| file | module | contents |
|---|---|---|
| `seqs.dfy` | `Seqs` | `Option`, the order-preserving `Filter` (`Array.prototype.filter`) and its laws |
| `dates.dfy` | `Dates` | `(year, month, day)` dates, validity, chronological order |
| `records.dfy` | `Records` | `Expense`, `Category`, category labels, `Sum` (`reduce`) |
| `decimal.dfy` | `Decimal` | `String(n)`, `padStart`, reading digits back |
| `filters.dfy` | `Filters` | `searchExpenses`, `filterByDateRange`, `filterByCategory` |
| `aggregate.dfy` | `Aggregate` | dashboard cards, category tables, bars, monthly overview |
| `invoice.dfy` | `Invoice` | invoice-form rows, `collectInvoiceData`, `generateInvoiceNumber` |
| `csv.dfy` | `Csv` | `convertToCSV` and a reader that shows what it preserves |
| `recent.dfy` | `Recent` | the newest-first stable sort and the ten-row table |
| `ledger.dfy` | `Ledger` | the daily form, invoice records, delete, and the class `MatsyaHisab` |

The class has two fields. `expenses` is the list in memory. `persisted` is what
`saveExpenses` last wrote. Every mutating operation pushes or filters, saves,
and then refreshes the dashboard. `updateRecentEntries` sorts `this.expenses`
in place during that refresh. So between operations the list in memory is
always the saved list sorted newest first, and that is the class invariant
`Valid()`. "New records are appended after the existing ones" is therefore
stated about the saved list.

Three behaviours of the code are worth stating plainly:

- The invoice counter counts expense records that carry an invoice id
  (script.js:602), so a two-line invoice advances it by two: after one
  two-line invoice the next number ends in `003`
  (`Ledger.InvoiceNumberCountsRecords`).
- The CSV header has eight columns, the unit column among them (script.js:436).
- The monthly and yearly pages report on the fixed year 2025 (script.js:305,
  354, 395).

## Model

| member | source | states |
|---|---|---|
| `Records.CategoryName` | script.js:489-498 | every category has a non-empty display label |
| `Records.CategoryNameInjective` | script.js:489-498 | different categories have different labels |
| `Records.SumPermutation` | script.js:113-126 | a `reduce` sum of amounts does not depend on the order of the records |
| `Records.SumFilterMonotone` | script.js:117-126 | with non-negative amounts, a sum over a stricter filter is no larger |
| `Filters.Search` | script.js:535-540 | every record returned is stored and matches the query |
| `Filters.SearchSpec` | script.js:535-540 | a record is found exactly when it is stored and its lowered item or lowered category label contains the lowered query; every copy of a matching record is kept, in the ledger's order |
| `Filters.SearchEmptyQuery` | script.js:535-540 | the empty query returns the whole list |
| `Filters.SearchIgnoresCase` | script.js:535-540 | two queries with the same lower case give the same result |
| `Filters.ContainsIff` | script.js:537-538 | `includes` holds exactly when the needle occurs at some offset |
| `Filters.LowerIdempotent` | script.js:537-538 | lowering twice is lowering once |
| `Filters.FilterByDateRange` | script.js:542-547 | every record returned is stored and dated within the bounds |
| `Filters.DateRangeSpec` | script.js:542-547 | a record is kept exactly when its date and both bounds parse and the date lies between the bounds, inclusive; every copy is kept, in order |
| `Filters.DateRangeInverted` | script.js:542-547 | a range whose end is before its start selects nothing |
| `Filters.FilterByCategory` | script.js:549-551 | every record returned is stored and has the chosen category |
| `Filters.CategorySpec` | script.js:549-551 | a record is kept exactly when its category matches, as often as it was stored, in order |
| `Aggregate.Dashboard` | script.js:108-126 | with non-negative amounts, none of the three cards is negative |
| `Aggregate.DashboardNested` | script.js:108-126 | with non-negative amounts, 0 ≤ today's total ≤ the month's total ≤ the year's total |
| `Aggregate.DashboardPermutation` | script.js:108-126 | the three dashboard cards do not depend on the order of the list |
| `Aggregate.CategoryTotals` | script.js:309-319 | the accumulated table has all five keys, each holding its category's sum (0 when it has no record) |
| `Aggregate.CategoryPartition` | script.js:362-372 | the five category totals add up to the total of all records |
| `Aggregate.SelectMonth` | script.js:303-328 | the month's records of 2025, a complete category table over them, and a table sum equal to the month total |
| `Aggregate.CategoryScenario` | script.js:303-328 | ice 500 and workers 300 on 1 June 2025 give a month total of 800 and the table storage 500, labor 300, others 0 |
| `Aggregate.MaxTotal` | script.js:375 | the maximum is at least every category total and equals one of them |
| `Aggregate.PercentageBounds` | script.js:379 | for 0 ≤ value ≤ max the percentage lies in [0, 100] and is 100 when value = max > 0 |
| `Aggregate.BarPercentages` | script.js:375-383 | the bar table has all five categories |
| `Aggregate.BarBounds` | script.js:375-383 | with non-negative totals every bar lies in [0, 100], a largest positive category gets 100, and all bars are 0 when the maximum is 0 |
| `Aggregate.MonthlyOverview` | script.js:389-400 | the overview has twelve month totals |
| `Aggregate.MonthlyPartition` | script.js:389-400 | the twelve month totals of a year add up to that year's total |
| `Aggregate.YearlyPage` | script.js:353-387 | the year total, a complete category table adding up to it, the bars of that table, and twelve month totals adding up to it |
| `Invoice.TrimSpec` | script.js:801 | a name trims to empty exactly when it is all white space; a trimmed name neither starts nor ends with white space; trimming is idempotent |
| `Invoice.KeptItems` | script.js:799-817 | every kept line has a non-empty name, positive quantity and unit price, and total = quantity × unit price |
| `Invoice.KeptItemsAreKeptRows` | script.js:799-817 | one kept line per row that passes the test, in row order, built from that row |
| `Invoice.KeptItemsEmpty` | script.js:799-817 | no line is kept exactly when no row passes the test |
| `Invoice.CollectInvoiceData` | script.js:795-817 | the row loop returns exactly the kept lines |
| `Invoice.InvoiceNumber` | script.js:598-603 | the number starts with `INV-` and has at least 11 characters |
| `Invoice.InvoiceNumberRoundTrip` | script.js:598-603 | for a four-digit year the number reads back as the year, the month and the count of invoiced records plus one |
| `Invoice.InvoiceNumberLength` | script.js:601-603 | the sequence part has exactly three characters, and the whole number 14, exactly when the count plus one is below 1000 |
| `Decimal.PaddedValue` | script.js:601-603 | a zero-padded decimal reads back as the number it was written from |
| `Csv.RowCells` | script.js:437-446 | eight cells per record in header order: the formatted date, the category label, the item, the quantity as text, the unit, the formatted unit price, the formatted amount and the invoice id; an absent or falsy quantity, unit, unit price or invoice id gives an empty cell |
| `Csv.ConvertToCsv` | script.js:435-450 | the export starts with the header row, and is only the header row for an empty list |
| `Csv.CsvLines` | script.js:448-450 | when no cell holds a line feed, the export has one line per record plus the header, header first, line i+1 rendering record i |
| `Csv.CsvRoundTrip` | script.js:435-450 | when no cell holds a line feed or a quote, every line reads back as the cells it was written from |
| `Csv.EmbeddedQuoteBreaksRow` | script.js:448-449 | for any row in which some cell holds a quote, the row does not read back as its cells under the quote-delimited reading |
| `Csv.AmbiguousCells` | script.js:448-449 | because quotes are not escaped, one cell holding `","` renders exactly as the two cells around it, so no reader can tell them apart |
| `Recent.SortByDateDesc` | script.js:139-140 | the sorted list has as many records as the list |
| `Recent.NoOlderTotalPreorder` | script.js:140 | the newest-first order of dates is reflexive, total and transitive |
| `Recent.SortSpec` | script.js:139-140 | the sorted list is newest first and a permutation of the list |
| `Recent.SortStable` | script.js:139-140 | records of the same date keep their stored order |
| `Recent.SortSortedIsIdentity` | script.js:139-140 | sorting a newest-first list leaves it unchanged |
| `Recent.SortIdempotent` | script.js:139-140 | sorting twice is sorting once |
| `Recent.FilterKeepsSorted` | script.js:520 | filtering a newest-first list keeps it newest first |
| `Recent.Newest` | script.js:141 | the table is the first min(10, n) records of the sorted list |
| `Recent.RecentSpec` | script.js:139-141 | the table shows min(10, n) stored records, newest first, none older than any record left out |
| `Ledger.PositiveLinesSpec` | script.js:231-234 | the positive lines are exactly the lines with amount > 0, once each, in form order |
| `Ledger.DailyEntriesFollowLines` | script.js:231-244 | record k of the entries is made from the k-th positive line |
| `Ledger.DailyEntries` | script.js:231-244 | at most fifteen records, each dated with the entry date and with a positive amount |
| `Ledger.DailyEntrySpec` | script.js:197-253 | one record per positive line, in form order, with the entry date, the line's category and item and its amount; all well formed |
| `Ledger.DailyEntriesEmpty` | script.js:231-249 | the form yields no record exactly when no amount entered is positive |
| `Ledger.CollectDailyEntries` | script.js:231-244 | the nested loop builds exactly the daily entries |
| `Ledger.MonthTotalAfterDailyEntry` | script.js:117-123 | a daily entry raises its own month's total by the sum entered and leaves every other month's total unchanged |
| `Ledger.InvoiceRecords` | script.js:774-787 | one record per kept line |
| `Ledger.InvoiceRecordsShape` | script.js:774-786 | every invoice record carries the invoice number and date, its line's fields, and amount = quantity × unit price > 0 |
| `Ledger.InvoiceRecordsSpec` | script.js:763-789 | one record per row that passes the test, in row order, with the row's category, trimmed name, quantity and unit price; none exactly when no row passes |
| `Ledger.InvoiceCountAfterSave` | script.js:602 | saving an invoice with a non-empty number raises the invoiced-record count by its number of lines |
| `Ledger.InvoiceCountAfterDailyEntry` | script.js:602 | daily entries never change the invoiced-record count |
| `Ledger.InvoiceNumberScenario` | script.js:598-603 | with one invoiced record, the number for June 2025 is `INV-202506-002` |
| `Ledger.InvoiceNumberCountsRecords` | script.js:598-603 | after one two-line invoice, the number for June 2025 is `INV-202506-003` |
| `Ledger.WithoutId` | script.js:520 | every record kept is stored and has a different id |
| `Ledger.DeleteSpec` | script.js:520 | delete removes exactly the records with that id, keeps the others with their multiplicity and order, is idempotent, and changes nothing for an absent id |
| `Ledger.MatsyaHisab.ValidSorted` | script.js:139-140 | between operations the list in memory is newest first and holds exactly the saved records |
| `Ledger.MatsyaHisab.constructor` | script.js:5-22 | the loaded list is saved as is and held in memory sorted newest first |
| `Ledger.MatsyaHisab.SaveExpenses` | script.js:24-26 | the saved copy becomes the list in memory |
| `Ledger.MatsyaHisab.UpdateRecentEntries` | script.js:137-141 | the list is replaced by its stable newest-first sort, and the table is its first ten records |
| `Ledger.MatsyaHisab.UpdateDashboard` | script.js:108-141 | the cards are the day, month and year totals of the list as it stands, equal to those of its sorted form; the list is replaced by its newest-first sort and the table is its first ten records; the saved copy is untouched; a list just saved, or one already in the invariant, ends in the invariant |
| `Ledger.MatsyaHisab.SaveDailyEntry` | script.js:197-257 | with no positive amount nothing changes and the count is 0; otherwise the saved list is the old list followed by the daily entries, and the list in memory is that sorted |
| `Ledger.MatsyaHisab.PushInvoiceRecords` | script.js:774-787 | the list becomes the old list followed by one record per kept line |
| `Ledger.MatsyaHisab.SaveInvoice` | script.js:763-792 | with no kept line nothing changes and the count is 0; otherwise the saved list is the old list followed by the invoice records, and the list in memory is that sorted |
| `Ledger.MatsyaHisab.DeleteEntry` | script.js:518-531 | without confirmation nothing changes; with it the saved list and the list in memory are the old list without the records of that id |

## Left out

- DOM and UI: event listeners, page switching, form reset, modal, preview, printing, row renumbering, placeholder auto-fill and the HTML of every table. These only present data. The monthly and yearly page refresh after a delete is display only too.
- Persistence: `localStorage` and JSON (de)serialisation in `loadExpenses`/`saveExpenses`. The constructor takes the loaded list as a parameter, and `persisted` stands for the stored copy.
- Downloads (`downloadFile`), the PDF stubs and `showToast`'s timer: these are browser I/O. A toast is reported as the count an operation returns (0 for the error notice).
- Text renderings: `formatCurrency` and `formatDate` (both in the `bn-BD` locale) and `String(quantity)`, which the CSV template string applies (`Number.prototype.toString`, locale-independent, left opaque because quantities are reals). These are the fields of `Csv.Locale`, a record of functions passed in whose text is not modelled.
- The subtotal, VAT and total that `collectInvoiceData` parses back from formatted text, and `updateInvoiceTotals`, which computes them. They go through locale formatting and floats.
- Aggregate.DashboardNested: the model takes all three dashboard cards from one clock date, the `today` parameter of the constructor and of every operation that refreshes the dashboard. The code takes the day from `toISOString()`, which is UTC (script.js:109), and the month and year from the local `getMonth`/`getFullYear` (script.js:110-111). Where local time is ahead of UTC, just after local midnight on the first of a month the day card sums the last day of the previous month while the month card sums the new month, so the program can show a day total above the month total (and above the year total on 1 January). The nesting is proved for the single-clock model only.
- JavaScript `Date`: ISO strings parsed as UTC but read with local `getMonth`. Dates are a `(year, month, day)` datatype, and a date that does not parse is one that is not `Valid()`. Its month and year tests are then false, as with `NaN`. Out-of-range days such as `2025-02-30`, which the date input does not produce, are not `Valid()`; JavaScript engines differ on them (some roll them over into the next month), and that behaviour is not modelled.
- Floats: amounts are `real`; `parseFloat(...) || 0` and float rounding are not modelled. The form inputs arrive as parsed numbers.
- Ids: the `Date.now() + Math.random()` ids are supplied by the caller. The loose `!=` between a string id and a number id is modelled as equality of ids.
- `editEntry` only shows a notice and changes nothing, so it is not modelled.
- Recent.SortByDateDesc: places records with unparsable dates after all others. The JavaScript comparator returns `NaN` for them, and the resulting order is up to the engine.
- Ledger.CollectDailyEntries: the nested `forEach` over categories and items is one loop over the fifteen form lines, visited in the same order.
- Filters.Lower: lowers the letters A to Z only. JavaScript's `toLowerCase` also lowers other cased letters; the category labels and form items are Bengali, which has no case.
- Invoice.ParseInvoiceNumber and Invoice.InvoiceNumberRoundTrip: read the number back only for a four-digit year.
