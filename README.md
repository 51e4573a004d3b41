# Shop reports: period filter, totals and report rendering

This project models the reporting engine of a small shop-management app, the
module `utils/pdfGenerator.ts`. The app stores sales and expenses as records
dated `DD/MM/YYYY`. From them the engine builds four documents:

- a sales report;
- an expenses report;
- a financial balance ("bilan"): takings, expenses and the net profit;
- an invoice for one sale.

Each document exists in two forms. One is an HTML string. The other is a
jsPDF document, drawn command by command with a moving `yPosition` cursor that
starts a new page when it passes the bottom of the page.

The model has these parts:

- `Calendar`: calendar dates as `(year, month 0..11, day)` triples.
  - A day ordinal and the weekday, with Sunday = 0.
  - `Normalize`, the day roll-over of `Date.setDate`.
  - Parsing of the stored `DD/MM/YYYY` text. It goes the way the source does it:
    `split('/')`, `reverse()`, `join('-')`, then a `YYYY-MM-DD` date.
- `PeriodFilter`: `filterDataByPeriod` as a generic function over any record
  type, given the record's date field.
  - "Today" is a parameter.
  - Lemmas describe the day, week, month and quarter windows, and how the
    filters nest.
- `Aggregate`: the `reduce` totals and the balance net, plus the invoice line
  totals.
- `Labels`:
  - the period label;
  - the payment-method label;
  - the paid/unpaid status of an invoice.
- `HtmlReports`: the four HTML builders. Each returns a structured document,
  a list of blocks: logo, title, fields, contact block, tables with one row
  per record, headings. `Markup` writes the document out as HTML.
- `PdfLayout`: a jsPDF document.
  - It is a class whose `commands` field records, in order, every
    `text`, `line` and `addPage` call.
  - `Paginate` is the shared row layout: before each row, a page break if the
    cursor has passed the limit; then the row; then the cursor moves down 8.
  - `Stack` is the invoice's rows, which have no page breaks.
- `PdfReports`: the four jsPDF generators.
  - Each generator is a method that draws into a fresh `PdfDocument`. Its
    `forEach` loops become loops (`for` over the records, `while` over the
    invoice items) with invariants on the cursor and on the commands drawn so
    far.
  - Each generator is proved to draw exactly the commands of a specification
    function (`SalesReportDrawing`, `ExpensesReportDrawing`,
    `BalanceReportDrawing`, `InvoiceDrawing`).
  - Layout lemmas are proved about those functions: where rows go, page
    breaks, truncated cells, the totals and the net line.

Some values are inputs to the model rather than computed by it:

- today's date;
- the generation-date text;
- the shop name;
- the optional logo and contact strings.

## Model

| member | source | states |
|---|---|---|
| Strings.Take | utils/pdfGenerator.ts:139 | `substring(0, n)` keeps the first `n` characters, or the whole string when it is shorter; the result is a prefix and equals the input exactly when the input fits |
| Strings.StartsWith | utils/pdfGenerator.ts:183 | `startsWith(prefix)`: the prefix is no longer than the text and equals its first characters (definition; used by LogoBlocks) |
| Strings.Join | utils/pdfGenerator.ts:52 | `join(sep)`: the parts with `sep` between neighbours, "" for no parts (definition; JoinSplit relates it to Split) |
| Strings.Split | utils/pdfGenerator.ts:52 | `split(sep)` never returns an empty list and no part contains the separator |
| Strings.Reverse | utils/pdfGenerator.ts:52 | `reverse()` keeps the length and puts element `i` at position `n - 1 - i` |
| Strings.JoinSplit | utils/pdfGenerator.ts:52 | joining the parts of a split with the same separator gives the original text back |
| Strings.SplitAfter | utils/pdfGenerator.ts:52 | a separator-free head followed by the separator is split off as the first part |
| Strings.Upper | utils/pdfGenerator.ts:105 | `toUpperCase` keeps the length, maps each character, and leaves no lower-case ASCII letter |
| Strings.UpperIdempotent | utils/pdfGenerator.ts:105 | upper-casing twice is the same as upper-casing once |
| Strings.NatToString | utils/pdfGenerator.ts:142 | a non-negative number prints as at least one decimal digit, with no leading zero |
| Strings.NatToStringValue | utils/pdfGenerator.ts:142 | reading the printed digits back gives the number |
| Strings.IntToString | utils/pdfGenerator.ts:142 | `${n}` starts with `-` exactly when `n` is negative, and is all digits otherwise |
| Strings.IntToStringInjective | utils/pdfGenerator.ts:142 | different amounts print differently |
| Strings.PaddedValue | utils/pdfGenerator.ts:52 | a zero-padded field reads back as its number when the number fits in the width |
| Calendar.DaysInMonth | utils/pdfGenerator.ts:59-62 | every month has 28 to 31 days |
| Calendar.Weekday | utils/pdfGenerator.ts:60 | `getDay()` lies in 0..6; WeekdayAnchors and WeekdayStep fix which day is which |
| Calendar.YearStep | utils/pdfGenerator.ts:59-62 | the ordinal of 1 January advances by the length of the year, 366 in a leap year |
| Calendar.MonthStep | utils/pdfGenerator.ts:59-62 | the first day of the next month, or of January of the next year, follows the current month's last day |
| Calendar.Normalize | utils/pdfGenerator.ts:59-62 | `setDate(d)` rolls over into a valid date whose ordinal is the month's first day plus `d - 1`, for any `d`, negative and past month end included |
| Calendar.OrdinalWithinMonth | utils/pdfGenerator.ts:59-62 | a valid date's ordinal lies within its own month's span |
| Calendar.MonthStartMonotone | utils/pdfGenerator.ts:59-62 | a later month starts after an earlier month has ended |
| Calendar.OrdinalInjective | utils/pdfGenerator.ts:63 | two valid dates with the same ordinal are the same date, so comparing time values compares calendar dates |
| Calendar.NormalizeValid | utils/pdfGenerator.ts:61 | `new Date(d)` of a valid date, rolled by zero days, is `d` itself |
| Calendar.AddDays | utils/pdfGenerator.ts:59-62 | adding `n` days gives the valid date whose ordinal is `n` more |
| Calendar.WeekdayAnchors | utils/pdfGenerator.ts:60 | weekday 0 is Sunday: 1 January 1970 gives 4 (a Thursday) and 29 December 2024 gives 0 (a Sunday) |
| Calendar.WeekdayStep | utils/pdfGenerator.ts:60 | the day after a valid date has the next weekday, Saturday (6) wrapping round to Sunday (0) |
| Calendar.WeekdayShift | utils/pdfGenerator.ts:60-62 | moving `j` days on (0 <= j < 7) moves the weekday `j` places round the week |
| Calendar.MakeDate | utils/pdfGenerator.ts:52 | a parsed year, month and day form a date exactly when the month is 1..12 and the day exists in that month, and that date is the given year, month - 1 (as `getMonth` counts) and day |
| Calendar.ParseIsoDate | utils/pdfGenerator.ts:52 | every date that parses is a valid calendar date |
| Calendar.ParseDisplayDate | utils/pdfGenerator.ts:52 | the stored `DD/MM/YYYY` text, split, reversed and joined, parses only to valid dates |
| Calendar.DisplayDate | utils/pdfGenerator.ts:52 | a date written as stored is ten characters with slashes at positions 2 and 5 |
| Calendar.SplitDisplayDate | utils/pdfGenerator.ts:52 | splitting the stored text at `/` gives day, month and year fields |
| Calendar.JoinReversedFields | utils/pdfGenerator.ts:52 | reversing and joining the fields with `-` gives `YYYY-MM-DD` |
| Calendar.DisplayDateRoundTrip | utils/pdfGenerator.ts:52 | parsing a date written as stored gives back the same date |
| PeriodFilter.QuarterStart | utils/pdfGenerator.ts:70-72 | the quarter's first month is a multiple of 3 and today's month lies within its three months |
| PeriodFilter.WeekStart | utils/pdfGenerator.ts:59-60 | the week's start is a valid date that is a Sunday, at most six days before today |
| PeriodFilter.WeekEnd | utils/pdfGenerator.ts:61-62 | the week's end is a valid date that is a Saturday, six days after the week's start |
| PeriodFilter.InPeriod | utils/pdfGenerator.ts:54-79 | the `switch` on a parsed date: same date, inside the week, same month and year, same year and quarter, `true` otherwise (definition; DayIsToday, WeekWindow and QuarterWindow restate each branch in calendar terms) |
| PeriodFilter.Keeps | utils/pdfGenerator.ts:51-80 | the filter callback: a date that does not parse fails every named period and passes the default branch; a parsed date goes through InPeriod (definition; FilterByPeriod is specified by it) |
| PeriodFilter.FilterByPeriod | utils/pdfGenerator.ts:47-81 | the result is a subsequence of the input, in input order; it holds a record exactly when the record is in the input and its date satisfies the period; under a named period every kept date parses |
| PeriodFilter.FilterAppend | utils/pdfGenerator.ts:51 | filtering a concatenation is concatenating the filtered parts |
| PeriodFilter.FilterUnrecognised | utils/pdfGenerator.ts:77-78 | an unrecognised period keeps every record |
| PeriodFilter.DayIsToday | utils/pdfGenerator.ts:55-56 | `day` keeps a record exactly when its date parses to today |
| PeriodFilter.WeekBounds | utils/pdfGenerator.ts:58-62 | the week starts on the Sunday `getDay()` days before today and ends six days after that Sunday |
| PeriodFilter.WeekWindow | utils/pdfGenerator.ts:58-63 | `week` keeps a date exactly when its ordinal lies in [today − weekday, today − weekday + 6], across month and year ends |
| PeriodFilter.QuarterWindow | utils/pdfGenerator.ts:69-75 | `quarter` keeps a date exactly when it has today's year and today's month / 3 |
| PeriodFilter.TodayInEveryPeriod | utils/pdfGenerator.ts:54-75 | today itself is in today's day, week, month and quarter |
| PeriodFilter.TodaysRecordKept | utils/pdfGenerator.ts:55-56 | a record stamped with today's date in the stored form is kept by `day` |
| PeriodFilter.MonthWithinQuarter | utils/pdfGenerator.ts:65-75 | filtering the quarter's records by month is filtering by month alone, so every record `month` keeps is kept by `quarter` |
| PeriodFilter.DayWithinWeek | utils/pdfGenerator.ts:55-63 | filtering the week's records by day is filtering by day alone |
| Aggregate.SumAppend | utils/pdfGenerator.ts:95 | the `reduce` total over a concatenation is the sum of the two totals |
| Aggregate.SumPermutation | utils/pdfGenerator.ts:95 | the order of the records does not change a total |
| Aggregate.SumNonNegative | utils/pdfGenerator.ts:223 | records with non-negative amounts have a non-negative total |
| Aggregate.SumOf | utils/pdfGenerator.ts:95 | `reduce((sum, x) => sum + amount(x), 0)` added from the left (definition; SumAppend, SumPermutation and SumNonNegative state its properties) |
| Aggregate.SalesTotal | utils/pdfGenerator.ts:95 | the sum of the sales' stored totals (definition; additive and order-free by SumAppend and SumPermutation) |
| Aggregate.ExpensesTotal | utils/pdfGenerator.ts:223 | the sum of the expense amounts (definition; additive and order-free by SumAppend and SumPermutation) |
| Aggregate.NetProfit | utils/pdfGenerator.ts:345-347 | takings less expenses (definition; NetAppend and EmptyTotals state its properties) |
| Aggregate.LineTotal | utils/pdfGenerator.ts:560 | `item.price * item.quantity` (definition; LineTotalBounded bounds it) |
| Aggregate.ItemsTotal | utils/pdfGenerator.ts:616-626 | the sum of an invoice's line totals; the source shows `sale.total` instead, and InvoiceTotalShown says when the two agree (definition) |
| Aggregate.EmptyTotals | utils/pdfGenerator.ts:95 | an empty list totals 0, and so does the net of two empty lists |
| Aggregate.NetAppend | utils/pdfGenerator.ts:345-347 | the net over the records of two stretches is the sum of the two nets |
| Aggregate.LineTotalBounded | utils/pdfGenerator.ts:560 | with positive quantities and non-negative prices, each line total `price * quantity` lies between 0 and the items' sum |
| Labels.PeriodLabel | utils/pdfGenerator.ts:83-91 | day, week, month and quarter map to "Aujourd'hui", "Cette semaine", "Ce mois" and "Ce trimestre"; the label is empty exactly for an unrecognised period |
| Labels.PaymentLabel | utils/pdfGenerator.ts:134-136 | cash, wave and orange map to "Espèces", "Wave" and "Orange Money"; the label is "Dette" exactly for every other method |
| Labels.StatusText | utils/pdfGenerator.ts:533-541 | the status reads "STATUT: NON PAYÉ" exactly for an unpaid debt, and "STATUT: PAYÉ" otherwise |
| Labels.SettledDebtIsPaid | utils/pdfGenerator.ts:533-541 | marking a debt sale paid turns its status to "PAYÉ"; an unpaid debt reads "NON PAYÉ" |
| HtmlReports.Descriptions | utils/pdfGenerator.ts:203 | one `${productName} (x${quantity})` text per item, in item order |
| HtmlReports.ItemsText | utils/pdfGenerator.ts:133 | no items give the empty text; one item gives its description alone |
| HtmlReports.LogoBlocks | utils/pdfGenerator.ts:183 | the logo image appears exactly when the URI starts with `data:image/`, and then shows that URI |
| HtmlReports.ContactLines | utils/pdfGenerator.ts:160-166 | one line per non-empty field, in the order phone, email, address: the phone first when set, the email next (first when there is no phone), the address last; no line is empty, and there are no lines exactly when all three are empty |
| HtmlReports.ContactBlocks | utils/pdfGenerator.ts:160-166 | the contact block is emitted exactly when phone, email or address is non-empty |
| HtmlReports.Rows | utils/pdfGenerator.ts:199-207 | `map(...).join('')` gives one row per record, row `i` from record `i` |
| HtmlReports.RowsAppend | utils/pdfGenerator.ts:199-207 | the rows of a concatenation are the rows of the first part followed by those of the second |
| HtmlReports.ReportHeader | utils/pdfGenerator.ts:183-187 | the header is, in order: the logo (exactly when the URI is an image), the title, the period label, the contact block (exactly when a contact field is set, and then holding the contact lines), and the generation date last; every contact block in it is `Contact(ContactLines(phone, email, address))` |
| HtmlReports.SalesTable | utils/pdfGenerator.ts:188-215 | one body row per sale, in order, with no filtering; the footer spans 4 columns and shows the total of exactly those sales |
| HtmlReports.SalesRowColumns | utils/pdfGenerator.ts:199-207 | a sales row holds the date, customer, items text, payment label and amount of its sale |
| HtmlReports.SalesReportDocument | utils/pdfGenerator.ts:158-219 | the sales page is exactly ReportHeader("Rapport des ventes", …) followed by the sales table; so it has the header's logo, title, period, contact block (lines in the order phone, email, address) and generation date, in that order, and no other block |
| HtmlReports.ExpensesTable | utils/pdfGenerator.ts:319-333 | one body row per expense, in order, holding date, description, category and `-amount`; the footer spans 3 columns and shows the negated total |
| HtmlReports.ExpensesReportDocument | utils/pdfGenerator.ts:279-338 | the expenses page is exactly ReportHeader("Rapport des charges", …) followed by the expenses table, so the header's order and rules hold and no other block comes between |
| HtmlReports.BalanceBody | utils/pdfGenerator.ts:468-504 | takings heading and table, expenses heading and table, one row per record, subtotals in the footers, and a net heading showing takings less expenses |
| HtmlReports.BalanceBodyPlain | utils/pdfGenerator.ts:468-504 | the balance body holds no logo, contact block or field, so the header alone decides those |
| HtmlReports.BalanceReportDocument | utils/pdfGenerator.ts:436-508 | the balance page is exactly ReportHeader("Bilan financier", …) followed by the five body blocks, so the header's order and rules hold and no other block comes between |
| HtmlReports.InvoiceBody | utils/pdfGenerator.ts:611-626 | the item table has one row per item in order and no footer, followed by the "Total à payer" heading with the stored sale total |
| HtmlReports.InvoiceRowColumns | utils/pdfGenerator.ts:616-623 | an item row shows name, quantity, unit price and `price * quantity` |
| HtmlReports.InvoiceHeader | utils/pdfGenerator.ts:604-606 | the top of the invoice is, in order, the logo (exactly when the URI is an image), the "Facture" title and the contact block (exactly when a contact field is set) |
| HtmlReports.InvoiceDocument | utils/pdfGenerator.ts:581-630 | the invoice page is the invoice header, then the invoice number, date, client and payment label in that order, then the item table and the stored total (`InvoiceBody`); the logo appears exactly when the URI is an image, and the contact block exactly when a contact field is set, holding the contact lines |
| HtmlReports.InvoiceTotalShown | utils/pdfGenerator.ts:626 | the displayed total equals the sum of the line totals exactly when the stored total is that sum; it is not recomputed |
| HtmlReports.MoneyInjective | utils/pdfGenerator.ts:205 | different amounts give different `${n} FCFA` texts |
| HtmlReports.RowsMarkupAppend | utils/pdfGenerator.ts:207 | the markup of concatenated rows is the concatenated markup |
| HtmlReports.SalesRowsInOrder | utils/pdfGenerator.ts:199-207 | the sales rows of two stretches of records are written one after the other, in record order |
| HtmlReports.Markup | utils/pdfGenerator.ts:167-218 | the HTML page: the blocks' markup in document order inside `<body>` (definition; RowsMarkupAppend and SalesRowsInOrder state its order) |
| HtmlReports.SalesReportHtml | utils/pdfGenerator.ts:158-219 | the string `generateSalesReportHtml` returns: the markup of SalesReportDocument (definition) |
| HtmlReports.ExpensesReportHtml | utils/pdfGenerator.ts:279-338 | the string `generateExpensesReportHtml` returns: the markup of ExpensesReportDocument (definition) |
| HtmlReports.BalanceReportHtml | utils/pdfGenerator.ts:436-508 | the string `generateBalanceReportHtml` returns: the markup of BalanceReportDocument (definition) |
| HtmlReports.InvoiceHtml | utils/pdfGenerator.ts:581-630 | the string `generateInvoiceHtml` returns: the markup of InvoiceDocument (definition) |
| PdfLayout.PdfDocument.constructor | utils/pdfGenerator.ts:98 | a new jsPDF document has nothing drawn |
| PdfLayout.PdfDocument.Text | utils/pdfGenerator.ts:105 | `doc.text` appends one text command and changes nothing else |
| PdfLayout.PdfDocument.Line | utils/pdfGenerator.ts:123 | `doc.line` appends one line command and changes nothing else |
| PdfLayout.PdfDocument.AddPage | utils/pdfGenerator.ts:129 | `doc.addPage` appends one page break and changes nothing else |
| PdfLayout.CursorAfter | utils/pdfGenerator.ts:127-145 | `yPosition` after `n` rows: each row resets it to 20 when it has passed the limit, then adds 8 (definition; RowYWithin, RowsBeforeBreak and CursorCompose state its properties) |
| PdfLayout.Paginate | utils/pdfGenerator.ts:127-145 | the commands of a paginated `forEach` (definition; PaginateWithin, PaginateAppend and RowInPlace state its properties) |
| PdfLayout.Stack | utils/pdfGenerator.ts:556-562 | the commands of the invoice's `forEach`, rows 8 apart with no break (definition; StackLength, StackPrefix and StackSlice state its properties) |
| PdfLayout.RowYWithin | utils/pdfGenerator.ts:128-131 | every row is drawn between y = 20 and the limit |
| PdfLayout.PaginateWithin | utils/pdfGenerator.ts:127-145 | no row text of a paginated table lies above 20 or below the break limit |
| PdfLayout.RowsBeforeBreak | utils/pdfGenerator.ts:144 | until the first page break, row `k` is `8 * k` below the first row |
| PdfLayout.CursorCompose | utils/pdfGenerator.ts:127-145 | the cursor after `m + k` rows is the cursor after `k` rows started where the first `m` left it |
| PdfLayout.PaginateAppend | utils/pdfGenerator.ts:127-145 | drawing two stretches of records is drawing the first, then the second from where the cursor stopped |
| PdfLayout.RowInPlace | utils/pdfGenerator.ts:127-145 | record `k`'s row appears at its cursor position, after the rows of the records before it and before those after it |
| PdfLayout.StackLength | utils/pdfGenerator.ts:556-562 | when every row draws `w` commands, a stack of `n` rows holds `w * n` commands |
| PdfLayout.StackPrefix | utils/pdfGenerator.ts:556-562 | the stacked rows of the first `m` records are a prefix of the stacked rows of all records |
| PdfLayout.StackSlice | utils/pdfGenerator.ts:556-562 | when every row draws `w` commands, commands `w * k` to `w * k + w - 1` of the stack are exactly row `k`, drawn at `start + 8 * k` |
| PdfLayout.PaginateWithoutBreaks | utils/pdfGenerator.ts:127-145 | a table whose rows all fit above the limit is drawn with no page break |
| PdfReports.ItemsCell | utils/pdfGenerator.ts:140 | the items cell is at most 23 characters; it is the whole text when that has at most 20 characters, and otherwise its first 20 followed by "..." |
| PdfReports.DrawHeading | utils/pdfGenerator.ts:104-111 | draws the upper-cased shop name, the title, the period label and the generation date |
| PdfReports.BreakPage | utils/pdfGenerator.ts:128-131 | adds a page exactly when the cursor has passed the limit, and then resets the cursor to 20 |
| PdfReports.DrawTotal | utils/pdfGenerator.ts:148-152 | draws the rule 10 below the cursor and the total 20 below it |
| PdfReports.SalesDrawing | utils/pdfGenerator.ts:98-152 | the sales PDF over given records: heading, column heads, paginated rows, the rule and the total (definition; FirstPageRows, ReportRowsOnPage and ReportTotalsShown state its layout) |
| PdfReports.SalesReportDrawing | utils/pdfGenerator.ts:93-152 | what `generateSalesReport` draws: SalesDrawing over the sales FilterByPeriod keeps (definition; GenerateSalesReport is proved to draw it, and FilterByPeriod and ReportTotalsShown state its properties) |
| PdfReports.DrawSalesTableHead | utils/pdfGenerator.ts:114-124 | draws the five column heads at y = 75 and the rule at 77 |
| PdfReports.SaleEntry | utils/pdfGenerator.ts:127-145 | one loop iteration: the break check, the sale's row at the placed cursor, and the cursor moved down 8 |
| PdfReports.DrawSaleRow | utils/pdfGenerator.ts:138-142 | a sales row: date, name cut to 15, items cell, payment label and amount |
| PdfReports.SaleStep | utils/pdfGenerator.ts:127-145 | after record `i` the drawing is that of the first `i + 1` records and the cursor is where their layout leaves it |
| PdfReports.DrawSalesRows | utils/pdfGenerator.ts:127-145 | the `forEach` draws exactly the paginated rows of the records, in order, and leaves the cursor after the last |
| PdfReports.GenerateSalesReport | utils/pdfGenerator.ts:93-156 | the sales PDF is the heading, column heads, the rows of exactly the period's sales, and their total |
| PdfReports.DrawSalesReport | utils/pdfGenerator.ts:98-152 | the drawing of a filtered sales list equals its specification |
| PdfReports.ExpensesDrawing | utils/pdfGenerator.ts:226-273 | the expenses PDF over given records: heading, column heads, paginated rows, the rule and the negated total (definition; ReportRowsOnPage and ReportTotalsShown state its layout) |
| PdfReports.ExpensesReportDrawing | utils/pdfGenerator.ts:221-273 | what `generateExpensesReport` draws: ExpensesDrawing over the expenses FilterByPeriod keeps (definition; GenerateExpensesReport is proved to draw it, and FilterByPeriod and ReportTotalsShown state its properties) |
| PdfReports.DrawExpensesTableHead | utils/pdfGenerator.ts:241-250 | draws the four column heads at y = 75 and the rule at 77 |
| PdfReports.ExpenseEntry | utils/pdfGenerator.ts:254-266 | one loop iteration of the expenses table: break check, row, cursor moved down 8 |
| PdfReports.DrawExpenseRow | utils/pdfGenerator.ts:260-263 | an expense row: date, description cut to 25, category and the negated amount |
| PdfReports.ExpenseStep | utils/pdfGenerator.ts:254-266 | after record `i` the drawing is that of the first `i + 1` expenses |
| PdfReports.DrawExpenseRows | utils/pdfGenerator.ts:254-266 | the `forEach` draws exactly the paginated rows of the expenses and leaves the cursor after the last |
| PdfReports.GenerateExpensesReport | utils/pdfGenerator.ts:221-277 | the expenses PDF is the heading, column heads, the rows of exactly the period's expenses, and their negated total |
| PdfReports.DrawExpensesReport | utils/pdfGenerator.ts:226-273 | the drawing of a filtered expenses list equals its specification |
| PdfReports.DrawBalanceMiddle | utils/pdfGenerator.ts:390-405 | draws the sales subtotal and the expenses section's heads, and returns where the expense rows start |
| PdfReports.DrawBalanceClosing | utils/pdfGenerator.ts:419-430 | draws the expenses subtotal, the rule and the net line |
| PdfReports.NetLine | utils/pdfGenerator.ts:430 | the text `BÉNÉFICE NET: ${balance} FCFA` (definition; NetLineSign states its properties) |
| PdfReports.BalanceDrawing | utils/pdfGenerator.ts:349-430 | the balance PDF for given records and totals: heading, sales section, expenses section starting 50 below the sales subtotal's cursor, and the net (definition; BalanceRowsOnPage, BalanceFirstPageRows and BalanceNetShown state its layout) |
| PdfReports.BalanceReportDrawing | utils/pdfGenerator.ts:340-430 | what `generateBalanceReport` draws: BalanceDrawing over both filtered lists, with their `reduce` totals (definition; GenerateBalanceReport is proved to draw it, and BalanceNetShown and BalanceRowsOnPage state its properties) |
| PdfReports.DrawBalanceSalesHead | utils/pdfGenerator.ts:364-375 | draws RECETTES at y = 75, the three column heads at 90 and the rule at 92 |
| PdfReports.DrawBalanceSaleRow | utils/pdfGenerator.ts:384-386 | a balance sales row: date, the name cut to 20 and the amount |
| PdfReports.DrawBalanceExpenseRow | utils/pdfGenerator.ts:413-415 | a balance expense row: date, the description cut to 25 and the negated amount |
| PdfReports.BalanceSaleEntry | utils/pdfGenerator.ts:378-388 | one iteration of the balance's sales loop, which breaks at 250 |
| PdfReports.BalanceExpenseEntry | utils/pdfGenerator.ts:407-417 | one iteration of the balance's expenses loop, which breaks at 270 |
| PdfReports.DrawBalanceSalesRows | utils/pdfGenerator.ts:378-388 | the sales `forEach` draws exactly the rows paginated at 250 |
| PdfReports.DrawBalanceExpenseRows | utils/pdfGenerator.ts:407-417 | the expenses `forEach` draws exactly the rows paginated at 270, from wherever the sales section ended |
| PdfReports.GenerateBalanceReport | utils/pdfGenerator.ts:340-434 | the balance PDF is the drawing of the period's sales and expenses with their totals and net |
| PdfReports.DrawBalanceReport | utils/pdfGenerator.ts:349-430 | the drawing equals the heading, the sales section and the expenses section closed by the net |
| PdfReports.DrawBalanceSalesSection | utils/pdfGenerator.ts:364-393 | draws the sales head, rows and subtotal, and returns the cursor the expenses section starts from |
| PdfReports.DrawBalanceExpensesSection | utils/pdfGenerator.ts:407-430 | draws the expense rows, the subtotal and the net |
| PdfReports.DrawInvoiceHeading | utils/pdfGenerator.ts:518-553 | draws the invoice's title, number, date, client, payment label, the paid or unpaid status, and the item heads |
| PdfReports.DrawInvoiceStatus | utils/pdfGenerator.ts:533-541 | draws one text at (120, 75): "STATUT: NON PAYÉ" for an unpaid debt, "STATUT: PAYÉ" otherwise (StatusText, whose contract states the iff) |
| PdfReports.InvoiceDrawing | utils/pdfGenerator.ts:512-575 | the invoice PDF: heading and status, item heads, one row per item with no page break, the total and the thanks (definition; InvoiceStatusShown, InvoiceTotalLine and InvoiceItemShown state its layout) |
| PdfReports.DrawInvoiceTableHead | utils/pdfGenerator.ts:543-553 | draws the four item heads at y = 95 and the rule at 97 |
| PdfReports.DrawInvoiceItem | utils/pdfGenerator.ts:557-560 | an item row: name, quantity, unit price and `price * quantity` |
| PdfReports.DrawInvoiceItems | utils/pdfGenerator.ts:556-562 | the items `forEach` draws one row per item, 8 apart from y = 105, and leaves the cursor after the last |
| PdfReports.DrawInvoiceClosing | utils/pdfGenerator.ts:564-575 | draws the rule, the stored total to pay and the footer |
| PdfReports.GenerateInvoice | utils/pdfGenerator.ts:510-579 | the invoice PDF is the heading, one row per item and the closing |
| PdfReports.ReportRowsOnPage | utils/pdfGenerator.ts:127-145 | no sales or expenses row is drawn above 20 or below 270 |
| PdfReports.BalanceRowsOnPage | utils/pdfGenerator.ts:378-417 | balance sales rows stay within 20..250 and expense rows within 20..270 |
| PdfReports.FirstPageRows | utils/pdfGenerator.ts:124-131 | the first 24 rows sit at 85 + 8k; the 25th row starts a new page at y = 20 |
| PdfReports.BalanceFirstPageRows | utils/pdfGenerator.ts:376-382 | the first 19 balance sales rows sit at 100 + 8k; the 20th starts a new page at y = 20 |
| PdfReports.CustomerNameCut | utils/pdfGenerator.ts:139 | the customer cell holds at most 15 characters, is a prefix of the name, and is the whole name exactly when the name fits |
| PdfReports.ReportTotalsShown | utils/pdfGenerator.ts:147-152 | a report's last command is its total, written 20 below where the rows left the cursor |
| PdfReports.BalanceNetShown | utils/pdfGenerator.ts:425-430 | the balance ends with the net line for takings less expenses, and the net carries a minus sign exactly when expenses exceed takings |
| PdfReports.NetLineSign | utils/pdfGenerator.ts:428-430 | the net line starts with "BÉNÉFICE NET: -", the case drawn in red, exactly for a loss |
| PdfReports.InvoiceStatusShown | utils/pdfGenerator.ts:533-541 | the invoice's seventh command is its status at (120, 75), reading "NON PAYÉ" exactly for an unpaid debt |
| PdfReports.InvoiceTotalLine | utils/pdfGenerator.ts:564-569 | the third-to-last command is the stored total to pay, 20 below where the item rows left the cursor |
| PdfReports.InvoiceItemShown | utils/pdfGenerator.ts:556-562 | item `k`'s row is drawn at 105 + 8k, after the rows of the items before it, with line total `price * quantity` in its last cell; the item rows hold 4 commands per item, and commands `4k` to `4k + 3` are item `k`'s row |

## Left out

- jsPDF calls that do not change the drawn content are not modelled:
  - `setFontSize` and `setTextColor`, so the red/green colouring of the net and of the invoice status is not modelled. `NetLineSign` and `InvoiceStatusShown` state the conditions on which the colour depends.
  - `addImage`. `addLogoToPDF` and its `try/catch` are not modelled.
  - `doc.save` and the file names built for it.
- The clock and the locale are inputs: today's date and the `toLocaleDateString('fr-FR')` text.
- The `getShopSettings` stub is replaced by a `shopName` parameter.
- JavaScript `Date` parsing is modelled only for `YYYY`, `YYYY-MM` and `YYYY-MM-DD` texts.
  - An out-of-range month or day counts as unparseable.
  - The other formats that engines accept are not modelled.
  - Date-only ISO texts are UTC while "today" is local midnight. This time-zone offset is not modelled: dates compare as calendar days. In practice:
    - East of UTC (UTC+1, say), a stored date is 01:00 local. The source's `itemDate <= weekEnd`, with the week end at Saturday 00:00 local, then drops Saturday records; the model keeps them.
    - West of UTC, a stored date is the previous local day. The source's `day`, `month` and `quarter` tests then look at that previous day; the model uses the stored day.
- Amounts are unbounded integers in FCFA. Floating-point numbers and their printing (decimals, exponents, `NaN`) are not modelled.
- Strings.Upper: upper-cases ASCII letters only. Other letters are left unchanged, whereas JavaScript upper-cases them too.
- `substring` lengths count characters, not UTF-16 code units.
- An absent optional string (`undefined`) is modelled as "". Both are falsy in the source and neither is rendered.
- HTML text is structured blocks plus a serialiser. The CSS, the `<head>` content and the whitespace of the templates are not modelled.
- HtmlReports.ItemsText: states the empty and single-item cases. The general case is its definition, a `, `-join of `Descriptions`.
- PdfReports.GenerateBalanceReport: only the row loops check for a page break. The model draws the other lines where the source does and proves nothing about their position, which can pass the bottom of the 297 mm page:
  - the sales subtotal, "CHARGES" and the expense column heads (`BalanceMiddle`), the heads landing up to y = 298;
  - the closing subtotal, rule and net line.
- PdfReports.GenerateSalesReport and PdfReports.GenerateExpensesReport: the rule and `TOTAL` line after the rows are drawn without a page-break check, up to y = 298.
- PdfReports.GenerateInvoice: the item rows never break the page, so a long invoice draws past its bottom. The model draws them where the source does.
- PdfReports.BalanceNetShown: is stated for any totals passed in. `BalanceReportDrawing` passes the `reduce` totals of the filtered sales and expenses.
- The screens and storage of the app are not part of this model. This covers `app/` (including the inline filters in `app/(tabs)/index.tsx`) and `hooks/useFrameworkReady.tsx`.
