/**
  The jsPDF reports `generateSalesReport`, `generateExpensesReport`,
  `generateBalanceReport` and `generateInvoice`. Each method draws on a
  fresh `PdfDocument` step by step with a `y` cursor, as the source does,
  and returns what was drawn; its postcondition ties that to a drawing
  function, about which the layout lemmas are proved.

  Unlike the HTML builders, the three reports filter their records by
  period themselves, and they cut long texts to fit the page.
*/
module PdfReports {
  import opened Strings
  import opened Calendar
  import opened Records
  import opened PeriodFilter
  import opened Aggregate
  import opened Labels
  import opened HtmlReports
  import opened PdfLayout

  /** First row of the sales and expenses tables, and the page-break limit of their rows. */
  const FIRST_ROW := 85
  const ROW_LIMIT := 270
  /** First sales row of the balance, and the lower limit its sales section breaks at. */
  const BALANCE_FIRST_ROW := 100
  const BALANCE_SALES_LIMIT := 250
  /** First item row of an invoice. */
  const INVOICE_FIRST_ROW := 105

  /** The articles cell: cut to 20 characters, with "..." appended only when something was cut. */
  function ItemsCell(itemsText: string): (cell: string)
    ensures |cell| <= 23
    ensures |itemsText| <= 20 ==> cell == itemsText
    ensures |itemsText| > 20 ==> cell == itemsText[..20] + "..."
  {
    Take(itemsText, 20) + (if |itemsText| > 20 then "..." else "")
  }

  /** Title block shared by the three reports: shop name in capitals, title, period, generation date. */
  function ReportHeading(shopName: string, title: string, period: string, generatedOn: string): seq<Draw> {
    [ TextAt(Upper(shopName), 20, 20), TextAt(title, 20, 30),
      TextAt("Période: " + PeriodLabel(period), 20, 45), TextAt("Date de génération: " + generatedOn, 20, 55) ]
  }

  function SaleRow(sale: Sale, y: int): seq<Draw> {
    [ TextAt(sale.date, 20, y), TextAt(Take(sale.customerName, 15), 50, y),
      TextAt(ItemsCell(ItemsText(sale.items)), 100, y), TextAt(PaymentLabel(sale.paymentMethod), 140, y),
      TextAt(Money(sale.total), 170, y) ]
  }

  function ExpenseRow(expense: Expense, y: int): seq<Draw> {
    [ TextAt(expense.date, 20, y), TextAt(Take(expense.description, 25), 60, y),
      TextAt(expense.category, 120, y), TextAt(Debit(expense.amount), 160, y) ]
  }

  function BalanceSaleRow(sale: Sale, y: int): seq<Draw> {
    [ TextAt(sale.date, 20, y), TextAt(Take(sale.customerName, 20), 60, y), TextAt(Money(sale.total), 160, y) ]
  }

  function BalanceExpenseRow(expense: Expense, y: int): seq<Draw> {
    [ TextAt(expense.date, 20, y), TextAt(Take(expense.description, 25), 60, y), TextAt(Debit(expense.amount), 160, y) ]
  }

  function InvoiceItemRow(item: SaleItem, y: int): seq<Draw> {
    [ TextAt(item.productName, 20, y), TextAt(IntToString(item.quantity), 100, y),
      TextAt(Money(item.price), 130, y), TextAt(Money(LineTotal(item)), 170, y) ]
  }

  /*
    The row stretches of each table, as first-order functions of the records
    (the loops below keep these in their invariants), each with the step that
    adds one record.
  */

  function SalesRows(rows: seq<Sale>): seq<Draw> {
    Paginate(rows, FIRST_ROW, ROW_LIMIT, SaleRow)
  }

  lemma SalesRowsStep(rows: seq<Sale>, i: nat)
    requires i < |rows|
    ensures SalesRows(rows[..i + 1])
         == SalesRows(rows[..i]) + BreakIf(CursorAfter(i, FIRST_ROW, ROW_LIMIT), ROW_LIMIT)
            + SaleRow(rows[i], Place(CursorAfter(i, FIRST_ROW, ROW_LIMIT), ROW_LIMIT))
  {
    PaginateLast(rows[..i + 1], FIRST_ROW, ROW_LIMIT, SaleRow);
    assert rows[..i + 1][..i] == rows[..i];
  }

  function ExpenseRows(rows: seq<Expense>): seq<Draw> {
    Paginate(rows, FIRST_ROW, ROW_LIMIT, ExpenseRow)
  }

  lemma ExpenseRowsStep(rows: seq<Expense>, i: nat)
    requires i < |rows|
    ensures ExpenseRows(rows[..i + 1])
         == ExpenseRows(rows[..i]) + BreakIf(CursorAfter(i, FIRST_ROW, ROW_LIMIT), ROW_LIMIT)
            + ExpenseRow(rows[i], Place(CursorAfter(i, FIRST_ROW, ROW_LIMIT), ROW_LIMIT))
  {
    PaginateLast(rows[..i + 1], FIRST_ROW, ROW_LIMIT, ExpenseRow);
    assert rows[..i + 1][..i] == rows[..i];
  }

  function BalanceSalesRows(rows: seq<Sale>): seq<Draw> {
    Paginate(rows, BALANCE_FIRST_ROW, BALANCE_SALES_LIMIT, BalanceSaleRow)
  }

  lemma BalanceSalesRowsStep(rows: seq<Sale>, i: nat)
    requires i < |rows|
    ensures BalanceSalesRows(rows[..i + 1])
         == BalanceSalesRows(rows[..i]) + BreakIf(CursorAfter(i, BALANCE_FIRST_ROW, BALANCE_SALES_LIMIT), BALANCE_SALES_LIMIT)
            + BalanceSaleRow(rows[i], Place(CursorAfter(i, BALANCE_FIRST_ROW, BALANCE_SALES_LIMIT), BALANCE_SALES_LIMIT))
  {
    PaginateLast(rows[..i + 1], BALANCE_FIRST_ROW, BALANCE_SALES_LIMIT, BalanceSaleRow);
    assert rows[..i + 1][..i] == rows[..i];
  }

  function BalanceExpenseRows(rows: seq<Expense>, start: int): seq<Draw> {
    Paginate(rows, start, ROW_LIMIT, BalanceExpenseRow)
  }

  lemma BalanceExpenseRowsStep(rows: seq<Expense>, i: nat, start: int)
    requires i < |rows|
    ensures BalanceExpenseRows(rows[..i + 1], start)
         == BalanceExpenseRows(rows[..i], start) + BreakIf(CursorAfter(i, start, ROW_LIMIT), ROW_LIMIT)
            + BalanceExpenseRow(rows[i], Place(CursorAfter(i, start, ROW_LIMIT), ROW_LIMIT))
  {
    PaginateLast(rows[..i + 1], start, ROW_LIMIT, BalanceExpenseRow);
    assert rows[..i + 1][..i] == rows[..i];
  }

  function InvoiceRows(items: seq<SaleItem>): seq<Draw> {
    Stack(items, INVOICE_FIRST_ROW, InvoiceItemRow)
  }

  lemma InvoiceRowsStep(items: seq<SaleItem>, i: nat)
    requires i < |items|
    ensures InvoiceRows(items[..i + 1]) == InvoiceRows(items[..i]) + InvoiceItemRow(items[i], INVOICE_FIRST_ROW + ROW_HEIGHT * i)
  {
    StackRow(items, i, INVOICE_FIRST_ROW, InvoiceItemRow);
  }

  /** The four heading lines of a report. */
  method DrawHeading(doc: PdfDocument, shopName: string, title: string, period: string, generatedOn: string)
    modifies doc
    ensures doc.commands == old(doc.commands) + ReportHeading(shopName, title, period, generatedOn)
  {
    doc.Text(Upper(shopName), 20, 20);
    doc.Text(title, 20, 30);
    doc.Text("Période: " + PeriodLabel(period), 20, 45);
    doc.Text("Date de génération: " + generatedOn, 20, 55);
  }

  /** `if (yPosition > limit) { doc.addPage(); yPosition = 20; }` */
  method BreakPage(doc: PdfDocument, y: int, limit: int) returns (y': int)
    modifies doc
    ensures doc.commands == old(doc.commands) + BreakIf(y, limit)
    ensures y' == Place(y, limit)
  {
    y' := y;
    if y > limit {
      doc.AddPage();
      y' := 20;
    }
  }

  /** The closing rule and total line under a table whose rows left the cursor at `y`. */
  method DrawTotal(doc: PdfDocument, y: int, text: string)
    modifies doc
    ensures doc.commands == old(doc.commands) + [LineAt(20, y + 10, 190, y + 10), TextAt(text, 140, y + 20)]
  {
    var yPosition := y + 10;
    doc.Line(20, yPosition, 190, yPosition);
    yPosition := yPosition + 10;
    doc.Text(text, 140, yPosition);
  }

  // ---------------------------------------------------------------------
  // Sales report
  // ---------------------------------------------------------------------

  function SalesTableHead(): seq<Draw> {
    [ TextAt("Date", 20, 75), TextAt("Client", 50, 75), TextAt("Articles", 100, 75),
      TextAt("Paiement", 140, 75), TextAt("Montant", 170, 75), LineAt(20, 77, 190, 77) ]
  }

  /** The sales report over the sales `kept` for the period: heading, one row per sale, the total line. */
  function SalesDrawing(kept: seq<Sale>, period: string, shopName: string, generatedOn: string): seq<Draw> {
    var y := CursorAfter(|kept|, FIRST_ROW, ROW_LIMIT);
    ReportHeading(shopName, "RAPPORT DES VENTES", period, generatedOn) + SalesTableHead()
    + SalesRows(kept)
    + [LineAt(20, y + 10, 190, y + 10), TextAt("TOTAL: " + Money(SalesTotal(kept)), 140, y + 20)]
  }

  /** What `generateSalesReport` draws: the sales report over the sales the period keeps. */
  function SalesReportDrawing(sales: seq<Sale>, period: string, today: Date, shopName: string, generatedOn: string): seq<Draw>
    requires Valid(today)
  {
    SalesDrawing(FilterByPeriod(sales, SaleDate, period, today), period, shopName, generatedOn)
  }

  method DrawSalesTableHead(doc: PdfDocument)
    modifies doc
    ensures doc.commands == old(doc.commands) + SalesTableHead()
  {
    var y := 75;
    doc.Text("Date", 20, y);
    doc.Text("Client", 50, y);
    doc.Text("Articles", 100, y);
    doc.Text("Paiement", 140, y);
    doc.Text("Montant", 170, y);
    doc.Line(20, y + 2, 190, y + 2);
  }

  /** One call of the `forEach` callback: break the page if needed, draw the row, move down 8. */
  method SaleEntry(doc: PdfDocument, sale: Sale, y: int) returns (y': int)
    modifies doc
    ensures doc.commands == old(doc.commands) + (BreakIf(y, ROW_LIMIT) + SaleRow(sale, Place(y, ROW_LIMIT)))
    ensures y' == Place(y, ROW_LIMIT) + ROW_HEIGHT
  {
    y' := BreakPage(doc, y, ROW_LIMIT);
    DrawSaleRow(doc, sale, y');
    y' := y' + 8;
  }

  method DrawSaleRow(doc: PdfDocument, sale: Sale, y: int)
    modifies doc
    ensures doc.commands == old(doc.commands) + SaleRow(sale, y)
  {
    var itemsText := ItemsText(sale.items);
    var paymentText := PaymentLabel(sale.paymentMethod);
    doc.Text(sale.date, 20, y);
    doc.Text(Take(sale.customerName, 15), 50, y);
    doc.Text(Take(itemsText, 20) + (if |itemsText| > 20 then "..." else ""), 100, y);
    doc.Text(paymentText, 140, y);
    doc.Text(Money(sale.total), 170, y);
  }

  /** The `forEach` callback on record `i`, which extends the drawing by that record's commands. */
  method SaleStep(doc: PdfDocument, rows: seq<Sale>, i: nat, y: int, ghost head: seq<Draw>) returns (y': int)
    modifies doc
    requires i < |rows|
    requires y == CursorAfter(i, FIRST_ROW, ROW_LIMIT)
    requires doc.commands == head + SalesRows(rows[..i])
    ensures y' == CursorAfter(i + 1, FIRST_ROW, ROW_LIMIT)
    ensures doc.commands == head + SalesRows(rows[..i + 1])
  {
    SalesRowsStep(rows, i);
    y' := SaleEntry(doc, rows[i], y);
    Extend(head, SalesRows(rows[..i]), BreakIf(y, ROW_LIMIT), SaleRow(rows[i], Place(y, ROW_LIMIT)));
  }

  /** The `forEach` over the sales: a page break when the cursor has passed the limit, then the row. */
  method DrawSalesRows(doc: PdfDocument, rows: seq<Sale>) returns (y: int)
    modifies doc
    ensures doc.commands == old(doc.commands) + SalesRows(rows)
    ensures y == CursorAfter(|rows|, FIRST_ROW, ROW_LIMIT)
  {
    y := FIRST_ROW;
    for i := 0 to |rows|
      invariant y == CursorAfter(i, FIRST_ROW, ROW_LIMIT)
      invariant doc.commands == old(doc.commands) + SalesRows(rows[..i])
    {
      y := SaleStep(doc, rows, i, y, old(doc.commands));
    }
    assert rows[..|rows|] == rows;
  }

  /** `generateSalesReport`: keep the period's sales, then draw the report over them. */
  method GenerateSalesReport(sales: seq<Sale>, period: string, today: Date, shopName: string, generatedOn: string)
    returns (drawn: seq<Draw>)
    requires Valid(today)
    ensures drawn == SalesReportDrawing(sales, period, today, shopName, generatedOn)
  {
    var filtered := FilterByPeriod(sales, SaleDate, period, today);
    drawn := DrawSalesReport(filtered, period, shopName, generatedOn);
  }

  /** The drawing part of `generateSalesReport`, on a fresh document. */
  method DrawSalesReport(filtered: seq<Sale>, period: string, shopName: string, generatedOn: string)
    returns (drawn: seq<Draw>)
    ensures drawn == SalesDrawing(filtered, period, shopName, generatedOn)
  {
    var total := SalesTotal(filtered);
    var doc := new PdfDocument();
    DrawHeading(doc, shopName, "RAPPORT DES VENTES", period, generatedOn);
    DrawSalesTableHead(doc);
    ghost var heading := doc.commands;
    var y := DrawSalesRows(doc, filtered);
    ghost var table := doc.commands;
    DrawTotal(doc, y, "TOTAL: " + Money(total));
    drawn := doc.commands;
    assert heading == ReportHeading(shopName, "RAPPORT DES VENTES", period, generatedOn) + SalesTableHead();
    assert table == heading + SalesRows(filtered);
  }

  // ---------------------------------------------------------------------
  // Expenses report
  // ---------------------------------------------------------------------

  function ExpensesTableHead(): seq<Draw> {
    [ TextAt("Date", 20, 75), TextAt("Description", 60, 75), TextAt("Catégorie", 120, 75),
      TextAt("Montant", 160, 75), LineAt(20, 77, 190, 77) ]
  }

  /** The expenses report over the expenses `kept` for the period. */
  function ExpensesDrawing(kept: seq<Expense>, period: string, shopName: string, generatedOn: string): seq<Draw> {
    var y := CursorAfter(|kept|, FIRST_ROW, ROW_LIMIT);
    ReportHeading(shopName, "RAPPORT DES CHARGES", period, generatedOn) + ExpensesTableHead()
    + ExpenseRows(kept)
    + [LineAt(20, y + 10, 190, y + 10), TextAt("TOTAL: " + Debit(ExpensesTotal(kept)), 140, y + 20)]
  }

  /** What `generateExpensesReport` draws: the expenses report over the expenses the period keeps. */
  function ExpensesReportDrawing(expenses: seq<Expense>, period: string, today: Date, shopName: string,
                                 generatedOn: string): seq<Draw>
    requires Valid(today)
  {
    ExpensesDrawing(FilterByPeriod(expenses, ExpenseDate, period, today), period, shopName, generatedOn)
  }

  method DrawExpensesTableHead(doc: PdfDocument)
    modifies doc
    ensures doc.commands == old(doc.commands) + ExpensesTableHead()
  {
    var y := 75;
    doc.Text("Date", 20, y);
    doc.Text("Description", 60, y);
    doc.Text("Catégorie", 120, y);
    doc.Text("Montant", 160, y);
    doc.Line(20, y + 2, 190, y + 2);
  }

  /** One call of the `forEach` callback: break the page if needed, draw the row, move down 8. */
  method ExpenseEntry(doc: PdfDocument, expense: Expense, y: int) returns (y': int)
    modifies doc
    ensures doc.commands == old(doc.commands) + (BreakIf(y, ROW_LIMIT) + ExpenseRow(expense, Place(y, ROW_LIMIT)))
    ensures y' == Place(y, ROW_LIMIT) + ROW_HEIGHT
  {
    y' := BreakPage(doc, y, ROW_LIMIT);
    DrawExpenseRow(doc, expense, y');
    y' := y' + 8;
  }

  method DrawExpenseRow(doc: PdfDocument, expense: Expense, y: int)
    modifies doc
    ensures doc.commands == old(doc.commands) + ExpenseRow(expense, y)
  {
    doc.Text(expense.date, 20, y);
    doc.Text(Take(expense.description, 25), 60, y);
    doc.Text(expense.category, 120, y);
    doc.Text(Debit(expense.amount), 160, y);
  }

  /** The `forEach` callback on record `i`, which extends the drawing by that record's commands. */
  method ExpenseStep(doc: PdfDocument, rows: seq<Expense>, i: nat, y: int, ghost head: seq<Draw>) returns (y': int)
    modifies doc
    requires i < |rows|
    requires y == CursorAfter(i, FIRST_ROW, ROW_LIMIT)
    requires doc.commands == head + ExpenseRows(rows[..i])
    ensures y' == CursorAfter(i + 1, FIRST_ROW, ROW_LIMIT)
    ensures doc.commands == head + ExpenseRows(rows[..i + 1])
  {
    ExpenseRowsStep(rows, i);
    y' := ExpenseEntry(doc, rows[i], y);
    Extend(head, ExpenseRows(rows[..i]), BreakIf(y, ROW_LIMIT), ExpenseRow(rows[i], Place(y, ROW_LIMIT)));
  }

  /** The `forEach` over the expenses. */
  method DrawExpenseRows(doc: PdfDocument, rows: seq<Expense>) returns (y: int)
    modifies doc
    ensures doc.commands == old(doc.commands) + ExpenseRows(rows)
    ensures y == CursorAfter(|rows|, FIRST_ROW, ROW_LIMIT)
  {
    y := FIRST_ROW;
    for i := 0 to |rows|
      invariant y == CursorAfter(i, FIRST_ROW, ROW_LIMIT)
      invariant doc.commands == old(doc.commands) + ExpenseRows(rows[..i])
    {
      y := ExpenseStep(doc, rows, i, y, old(doc.commands));
    }
    assert rows[..|rows|] == rows;
  }

  /** `generateExpensesReport`: keep the period's expenses, then draw the report over them. */
  method GenerateExpensesReport(expenses: seq<Expense>, period: string, today: Date, shopName: string,
                                generatedOn: string) returns (drawn: seq<Draw>)
    requires Valid(today)
    ensures drawn == ExpensesReportDrawing(expenses, period, today, shopName, generatedOn)
  {
    var filtered := FilterByPeriod(expenses, ExpenseDate, period, today);
    drawn := DrawExpensesReport(filtered, period, shopName, generatedOn);
  }

  /** The drawing part of `generateExpensesReport`, on a fresh document. */
  method DrawExpensesReport(filtered: seq<Expense>, period: string, shopName: string, generatedOn: string)
    returns (drawn: seq<Draw>)
    ensures drawn == ExpensesDrawing(filtered, period, shopName, generatedOn)
  {
    var total := ExpensesTotal(filtered);
    var doc := new PdfDocument();
    DrawHeading(doc, shopName, "RAPPORT DES CHARGES", period, generatedOn);
    DrawExpensesTableHead(doc);
    ghost var heading := doc.commands;
    var y := DrawExpenseRows(doc, filtered);
    ghost var table := doc.commands;
    DrawTotal(doc, y, "TOTAL: " + Debit(total));
    drawn := doc.commands;
    assert heading == ReportHeading(shopName, "RAPPORT DES CHARGES", period, generatedOn) + ExpensesTableHead();
    assert table == heading + ExpenseRows(filtered);
  }

  // ---------------------------------------------------------------------
  // Balance report
  // ---------------------------------------------------------------------

  /** Where the expenses section's first row goes, given where the sales rows left the cursor. */
  function ExpensesStart(salesEnd: int): int {
    salesEnd + 5 + 20 + 15 + 10
  }

  function BalanceSalesHead(): seq<Draw> {
    [ TextAt("RECETTES", 20, 75), TextAt("Date", 20, 90), TextAt("Client", 60, 90), TextAt("Montant", 160, 90),
      LineAt(20, 92, 190, 92) ]
  }

  /** Sales subtotal, then the expenses section's title and column heads, below the sales rows. */
  function BalanceMiddle(ys: int, totalSales: int): seq<Draw> {
    [ TextAt("Sous-total recettes: " + Money(totalSales), 120, ys + 5), TextAt("CHARGES", 20, ys + 25),
      TextAt("Date", 20, ys + 40), TextAt("Description", 60, ys + 40), TextAt("Montant", 160, ys + 40),
      LineAt(20, ys + 42, 190, ys + 42) ]
  }

  /** Expenses subtotal, the rule, and the net profit line, below the expense rows. */
  function BalanceClosing(ye: int, totalExpenses: int, net: int): seq<Draw> {
    [ TextAt("Sous-total charges: " + Debit(totalExpenses), 120, ye + 5), LineAt(20, ye + 25, 190, ye + 25),
      TextAt(NetLine(net), 120, ye + 35) ]
  }

  /** `BÉNÉFICE NET: ${balance} FCFA`. */
  function NetLine(net: int): string {
    "BÉNÉFICE NET: " + IntToString(net) + " FCFA"
  }

  /** What `generateBalanceReport` draws: the balance over the sales and expenses the period keeps. */
  function BalanceReportDrawing(sales: seq<Sale>, expenses: seq<Expense>, period: string, today: Date,
                                shopName: string, generatedOn: string): seq<Draw>
    requires Valid(today)
  {
    var fs := FilterByPeriod(sales, SaleDate, period, today);
    var fe := FilterByPeriod(expenses, ExpenseDate, period, today);
    BalanceDrawing(fs, fe, SalesTotal(fs), ExpensesTotal(fe), period, shopName, generatedOn)
  }

  /**
    The balance over sales `fs` and expenses `fe`, whose totals were computed beforehand as
    `totalSales` and `totalExpenses`: the sales section, the expenses section, then the net.
  */
  function BalanceDrawing(fs: seq<Sale>, fe: seq<Expense>, totalSales: int, totalExpenses: int,
                          period: string, shopName: string, generatedOn: string): seq<Draw>
  {
    var ys := CursorAfter(|fs|, BALANCE_FIRST_ROW, BALANCE_SALES_LIMIT);
    ReportHeading(shopName, "BILAN FINANCIER", period, generatedOn)
    + BalanceSalesSection(fs, totalSales)
    + BalanceExpensesSection(fe, ExpensesStart(ys), totalExpenses, totalSales - totalExpenses)
  }

  /** Title, column heads, rows and subtotal of the sales. */
  function BalanceSalesSection(fs: seq<Sale>, totalSales: int): seq<Draw> {
    BalanceSalesHead() + BalanceSalesRows(fs)
    + BalanceMiddle(CursorAfter(|fs|, BALANCE_FIRST_ROW, BALANCE_SALES_LIMIT), totalSales)
  }

  /** Rows and subtotal of the expenses from `start` on, then the net profit `net`. */
  function BalanceExpensesSection(fe: seq<Expense>, start: int, totalExpenses: int, net: int): seq<Draw> {
    BalanceExpenseRows(fe, start) + BalanceClosing(CursorAfter(|fe|, start, ROW_LIMIT), totalExpenses, net)
  }

  method DrawBalanceSalesHead(doc: PdfDocument)
    modifies doc
    ensures doc.commands == old(doc.commands) + BalanceSalesHead()
  {
    var y := 75;
    doc.Text("RECETTES", 20, y);
    y := y + 15;
    doc.Text("Date", 20, y);
    doc.Text("Client", 60, y);
    doc.Text("Montant", 160, y);
    doc.Line(20, y + 2, 190, y + 2);
  }

  method DrawBalanceMiddle(doc: PdfDocument, ys: int, totalSales: int) returns (y: int)
    modifies doc
    ensures doc.commands == old(doc.commands) + BalanceMiddle(ys, totalSales)
    ensures y == ExpensesStart(ys)
  {
    y := ys + 5;
    doc.Text("Sous-total recettes: " + Money(totalSales), 120, y);
    y := y + 20;
    doc.Text("CHARGES", 20, y);
    y := y + 15;
    doc.Text("Date", 20, y);
    doc.Text("Description", 60, y);
    doc.Text("Montant", 160, y);
    doc.Line(20, y + 2, 190, y + 2);
    y := y + 10;
  }

  method DrawBalanceClosing(doc: PdfDocument, ye: int, totalExpenses: int, net: int)
    modifies doc
    ensures doc.commands == old(doc.commands) + BalanceClosing(ye, totalExpenses, net)
  {
    var y := ye + 5;
    doc.Text("Sous-total charges: " + Debit(totalExpenses), 120, y);
    y := y + 20;
    doc.Line(20, y, 190, y);
    y := y + 10;
    doc.Text(NetLine(net), 120, y);
  }

  /** One call of the `forEach` callback: break the page if needed, draw the row, move down 8. */
  method BalanceSaleEntry(doc: PdfDocument, sale: Sale, y: int) returns (y': int)
    modifies doc
    ensures doc.commands == old(doc.commands) + (BreakIf(y, BALANCE_SALES_LIMIT) + BalanceSaleRow(sale, Place(y, BALANCE_SALES_LIMIT)))
    ensures y' == Place(y, BALANCE_SALES_LIMIT) + ROW_HEIGHT
  {
    y' := BreakPage(doc, y, BALANCE_SALES_LIMIT);
    DrawBalanceSaleRow(doc, sale, y');
    y' := y' + 8;
  }

  method DrawBalanceSaleRow(doc: PdfDocument, sale: Sale, y: int)
    modifies doc
    ensures doc.commands == old(doc.commands) + BalanceSaleRow(sale, y)
  {
    doc.Text(sale.date, 20, y);
    doc.Text(Take(sale.customerName, 20), 60, y);
    doc.Text(Money(sale.total), 160, y);
  }

  /** One call of the `forEach` callback: break the page if needed, draw the row, move down 8. */
  method BalanceExpenseEntry(doc: PdfDocument, expense: Expense, y: int) returns (y': int)
    modifies doc
    ensures doc.commands == old(doc.commands) + (BreakIf(y, ROW_LIMIT) + BalanceExpenseRow(expense, Place(y, ROW_LIMIT)))
    ensures y' == Place(y, ROW_LIMIT) + ROW_HEIGHT
  {
    y' := BreakPage(doc, y, ROW_LIMIT);
    DrawBalanceExpenseRow(doc, expense, y');
    y' := y' + 8;
  }

  method DrawBalanceExpenseRow(doc: PdfDocument, expense: Expense, y: int)
    modifies doc
    ensures doc.commands == old(doc.commands) + BalanceExpenseRow(expense, y)
  {
    doc.Text(expense.date, 20, y);
    doc.Text(Take(expense.description, 25), 60, y);
    doc.Text(Debit(expense.amount), 160, y);
  }

  /** The `forEach` callback on record `i`, which extends the drawing by that record's commands. */
  method BalanceSaleStep(doc: PdfDocument, rows: seq<Sale>, i: nat, y: int, ghost head: seq<Draw>) returns (y': int)
    modifies doc
    requires i < |rows|
    requires y == CursorAfter(i, BALANCE_FIRST_ROW, BALANCE_SALES_LIMIT)
    requires doc.commands == head + BalanceSalesRows(rows[..i])
    ensures y' == CursorAfter(i + 1, BALANCE_FIRST_ROW, BALANCE_SALES_LIMIT)
    ensures doc.commands == head + BalanceSalesRows(rows[..i + 1])
  {
    BalanceSalesRowsStep(rows, i);
    y' := BalanceSaleEntry(doc, rows[i], y);
    Extend(head, BalanceSalesRows(rows[..i]), BreakIf(y, BALANCE_SALES_LIMIT), BalanceSaleRow(rows[i], Place(y, BALANCE_SALES_LIMIT)));
  }

  /** The `forEach` over the period's sales, which breaks the page earlier, at 250. */
  method DrawBalanceSalesRows(doc: PdfDocument, rows: seq<Sale>) returns (y: int)
    modifies doc
    ensures doc.commands == old(doc.commands) + BalanceSalesRows(rows)
    ensures y == CursorAfter(|rows|, BALANCE_FIRST_ROW, BALANCE_SALES_LIMIT)
  {
    y := BALANCE_FIRST_ROW;
    for i := 0 to |rows|
      invariant y == CursorAfter(i, BALANCE_FIRST_ROW, BALANCE_SALES_LIMIT)
      invariant doc.commands == old(doc.commands) + BalanceSalesRows(rows[..i])
    {
      y := BalanceSaleStep(doc, rows, i, y, old(doc.commands));
    }
    assert rows[..|rows|] == rows;
  }

  /** The `forEach` callback on record `i`, which extends the drawing by that record's commands. */
  method BalanceExpenseStep(doc: PdfDocument, rows: seq<Expense>, i: nat, start: int, y: int, ghost head: seq<Draw>) returns (y': int)
    modifies doc
    requires i < |rows|
    requires y == CursorAfter(i, start, ROW_LIMIT)
    requires doc.commands == head + BalanceExpenseRows(rows[..i], start)
    ensures y' == CursorAfter(i + 1, start, ROW_LIMIT)
    ensures doc.commands == head + BalanceExpenseRows(rows[..i + 1], start)
  {
    BalanceExpenseRowsStep(rows, i, start);
    y' := BalanceExpenseEntry(doc, rows[i], y);
    Extend(head, BalanceExpenseRows(rows[..i], start), BreakIf(y, ROW_LIMIT), BalanceExpenseRow(rows[i], Place(y, ROW_LIMIT)));
  }

  /** The `forEach` over the period's expenses, starting wherever the sales section ended. */
  method DrawBalanceExpenseRows(doc: PdfDocument, rows: seq<Expense>, start: int) returns (y: int)
    modifies doc
    ensures doc.commands == old(doc.commands) + BalanceExpenseRows(rows, start)
    ensures y == CursorAfter(|rows|, start, ROW_LIMIT)
  {
    y := start;
    for i := 0 to |rows|
      invariant y == CursorAfter(i, start, ROW_LIMIT)
      invariant doc.commands == old(doc.commands) + BalanceExpenseRows(rows[..i], start)
    {
      y := BalanceExpenseStep(doc, rows, i, start, y, old(doc.commands));
    }
    assert rows[..|rows|] == rows;
  }

  method GenerateBalanceReport(sales: seq<Sale>, expenses: seq<Expense>, period: string, today: Date,
                               shopName: string, generatedOn: string) returns (drawn: seq<Draw>)
    requires Valid(today)
    ensures drawn == BalanceReportDrawing(sales, expenses, period, today, shopName, generatedOn)
  {
    var fs := FilterByPeriod(sales, SaleDate, period, today);
    var fe := FilterByPeriod(expenses, ExpenseDate, period, today);
    var totalSales := SalesTotal(fs);
    var totalExpenses := ExpensesTotal(fe);
    drawn := DrawBalanceReport(fs, fe, totalSales, totalExpenses, period, shopName, generatedOn);
  }

  /** The drawing part of `generateBalanceReport`, on a fresh document. */
  method DrawBalanceReport(fs: seq<Sale>, fe: seq<Expense>, totalSales: int, totalExpenses: int,
                           period: string, shopName: string, generatedOn: string) returns (drawn: seq<Draw>)
    ensures drawn == BalanceDrawing(fs, fe, totalSales, totalExpenses, period, shopName, generatedOn)
  {
    var balance := totalSales - totalExpenses;
    var doc := new PdfDocument();
    DrawHeading(doc, shopName, "BILAN FINANCIER", period, generatedOn);
    ghost var heading := doc.commands;
    var y := DrawBalanceSalesSection(doc, fs, totalSales);
    ghost var salesPart := doc.commands;
    DrawBalanceExpensesSection(doc, fe, y, totalExpenses, balance);
    drawn := doc.commands;
    BalanceAssembled(fs, fe, totalSales, totalExpenses, period, shopName, generatedOn, y, heading, salesPart, drawn);
  }

  /** The heading and the two sections, drawn one after the other, make up the balance. */
  lemma BalanceAssembled(fs: seq<Sale>, fe: seq<Expense>, totalSales: int, totalExpenses: int,
                         period: string, shopName: string, generatedOn: string,
                         y: int, heading: seq<Draw>, salesPart: seq<Draw>, drawn: seq<Draw>)
    requires heading == [] + ReportHeading(shopName, "BILAN FINANCIER", period, generatedOn)
    requires salesPart == heading + BalanceSalesSection(fs, totalSales)
    requires y == ExpensesStart(CursorAfter(|fs|, BALANCE_FIRST_ROW, BALANCE_SALES_LIMIT))
    requires drawn == salesPart + BalanceExpensesSection(fe, y, totalExpenses, totalSales - totalExpenses)
    ensures drawn == BalanceDrawing(fs, fe, totalSales, totalExpenses, period, shopName, generatedOn)
  {
    assert heading == ReportHeading(shopName, "BILAN FINANCIER", period, generatedOn);
  }

  /** The sales half of `generateBalanceReport`; returns where the expense rows start. */
  method DrawBalanceSalesSection(doc: PdfDocument, fs: seq<Sale>, totalSales: int) returns (y: int)
    modifies doc
    ensures doc.commands == old(doc.commands) + BalanceSalesSection(fs, totalSales)
    ensures y == ExpensesStart(CursorAfter(|fs|, BALANCE_FIRST_ROW, BALANCE_SALES_LIMIT))
  {
    ghost var start := doc.commands;
    DrawBalanceSalesHead(doc);
    y := DrawBalanceSalesRows(doc, fs);
    y := DrawBalanceMiddle(doc, y, totalSales);
    AppendThree(start, BalanceSalesHead(), BalanceSalesRows(fs),
                BalanceMiddle(CursorAfter(|fs|, BALANCE_FIRST_ROW, BALANCE_SALES_LIMIT), totalSales));
  }

  lemma AppendThree(s: seq<Draw>, a: seq<Draw>, b: seq<Draw>, c: seq<Draw>)
    ensures s + a + b + c == s + (a + b + c)
  {
  }

  /** The expenses half of `generateBalanceReport`, closed by the net profit. */
  method DrawBalanceExpensesSection(doc: PdfDocument, fe: seq<Expense>, start: int, totalExpenses: int, net: int)
    modifies doc
    ensures doc.commands == old(doc.commands) + BalanceExpensesSection(fe, start, totalExpenses, net)
  {
    var y := DrawBalanceExpenseRows(doc, fe, start);
    DrawBalanceClosing(doc, y, totalExpenses, net);
  }



  // ---------------------------------------------------------------------
  // Invoice
  // ---------------------------------------------------------------------

  /** The invoice's title, sale details, payment method and status, and the item table's head. */
  function InvoiceHeading(sale: Sale, shopName: string): seq<Draw> {
    [ TextAt(Upper(shopName), 20, 20), TextAt("FACTURE", 20, 30), TextAt("Facture N°: " + sale.id, 20, 45),
      TextAt("Date: " + sale.date, 20, 55), TextAt("Client: " + sale.customerName, 20, 65),
      TextAt("Mode de paiement: " + PaymentLabel(sale.paymentMethod), 20, 75), TextAt(StatusText(sale), 120, 75) ]
    + InvoiceTableHead()
  }

  function InvoiceTableHead(): seq<Draw> {
    [ TextAt("Article", 20, 95), TextAt("Quantité", 100, 95), TextAt("Prix unitaire", 130, 95), TextAt("Total", 170, 95),
      LineAt(20, 97, 190, 97) ]
  }

  /** The total to pay and the thanks, below the item rows that left the cursor at `y`. */
  function InvoiceClosing(sale: Sale, shopName: string, y: int): seq<Draw> {
    [ LineAt(20, y + 10, 190, y + 10), TextAt("TOTAL À PAYER: " + Money(sale.total), 120, y + 20),
      TextAt("Merci pour votre achat !", 20, y + 50), TextAt(shopName + " - Gestion des ventes", 20, y + 60) ]
  }

  /** What `generateInvoice` draws: the sale's details and status, one row per item, total and thanks. */
  function InvoiceDrawing(sale: Sale, shopName: string): seq<Draw> {
    InvoiceHeading(sale, shopName)
    + InvoiceRows(sale.items)
    + InvoiceClosing(sale, shopName, INVOICE_FIRST_ROW + ROW_HEIGHT * |sale.items|)
  }

  method DrawInvoiceHeading(doc: PdfDocument, sale: Sale, shopName: string)
    modifies doc
    ensures doc.commands == old(doc.commands) + InvoiceHeading(sale, shopName)
  {
    doc.Text(Upper(shopName), 20, 20);
    doc.Text("FACTURE", 20, 30);
    doc.Text("Facture N°: " + sale.id, 20, 45);
    doc.Text("Date: " + sale.date, 20, 55);
    doc.Text("Client: " + sale.customerName, 20, 65);
    var paymentText := PaymentLabel(sale.paymentMethod);
    doc.Text("Mode de paiement: " + paymentText, 20, 75);
    DrawInvoiceStatus(doc, sale);
    DrawInvoiceTableHead(doc);
  }

  /** The status line, red "NON PAYÉ" for an unpaid debt and green "PAYÉ" otherwise (colours not modelled). */
  method DrawInvoiceStatus(doc: PdfDocument, sale: Sale)
    modifies doc
    ensures doc.commands == old(doc.commands) + [TextAt(StatusText(sale), 120, 75)]
  {
    if sale.paymentMethod == "debt" && !sale.isPaid {
      doc.Text("STATUT: NON PAYÉ", 120, 75);
    } else {
      doc.Text("STATUT: PAYÉ", 120, 75);
    }
  }

  method DrawInvoiceTableHead(doc: PdfDocument)
    modifies doc
    ensures doc.commands == old(doc.commands) + InvoiceTableHead()
  {
    var y := 95;
    doc.Text("Article", 20, y);
    doc.Text("Quantité", 100, y);
    doc.Text("Prix unitaire", 130, y);
    doc.Text("Total", 170, y);
    doc.Line(20, y + 2, 190, y + 2);
  }

  method DrawInvoiceItem(doc: PdfDocument, item: SaleItem, y: int)
    modifies doc
    ensures doc.commands == old(doc.commands) + InvoiceItemRow(item, y)
  {
    doc.Text(item.productName, 20, y);
    doc.Text(IntToString(item.quantity), 100, y);
    doc.Text(Money(item.price), 130, y);
    doc.Text(Money(item.price * item.quantity), 170, y);
  }

  method DrawInvoiceClosing(doc: PdfDocument, sale: Sale, shopName: string, y: int)
    modifies doc
    ensures doc.commands == old(doc.commands) + InvoiceClosing(sale, shopName, y)
  {
    var yPosition := y + 10;
    doc.Line(20, yPosition, 190, yPosition);
    yPosition := yPosition + 10;
    doc.Text("TOTAL À PAYER: " + Money(sale.total), 120, yPosition);
    yPosition := yPosition + 30;
    doc.Text("Merci pour votre achat !", 20, yPosition);
    doc.Text(shopName + " - Gestion des ventes", 20, yPosition + 10);
  }

  /** The `forEach` over the sale's items: one row each, 8 apart, with no page break. */
  method DrawInvoiceItems(doc: PdfDocument, items: seq<SaleItem>) returns (y: int)
    modifies doc
    ensures doc.commands == old(doc.commands) + InvoiceRows(items)
    ensures y == INVOICE_FIRST_ROW + ROW_HEIGHT * |items|
  {
    y := INVOICE_FIRST_ROW;
    var i := 0;
    while i < |items|
      invariant 0 <= i <= |items|
      invariant y == INVOICE_FIRST_ROW + ROW_HEIGHT * i
      invariant doc.commands == old(doc.commands) + InvoiceRows(items[..i])
    {
      InvoiceRowsStep(items, i);
      DrawInvoiceItem(doc, items[i], y);
      y := y + 8;
      i := i + 1;
    }
    assert items[..i] == items;
  }

  method GenerateInvoice(sale: Sale, shopName: string) returns (drawn: seq<Draw>)
    ensures drawn == InvoiceDrawing(sale, shopName)
  {
    var doc := new PdfDocument();
    DrawInvoiceHeading(doc, sale, shopName);
    var y := DrawInvoiceItems(doc, sale.items);
    DrawInvoiceClosing(doc, sale, shopName, y);
    drawn := doc.commands;
    AppendThree([], InvoiceHeading(sale, shopName), InvoiceRows(sale.items), InvoiceClosing(sale, shopName, y));
  }

  // ---------------------------------------------------------------------
  // Layout properties
  // ---------------------------------------------------------------------

  /** Every row writes all of its texts on the row's own line. */
  lemma RowsOnTheirLine()
    ensures forall s, y :: TextsAt(SaleRow(s, y), y)
    ensures forall e, y :: TextsAt(ExpenseRow(e, y), y)
    ensures forall s, y :: TextsAt(BalanceSaleRow(s, y), y)
    ensures forall e, y :: TextsAt(BalanceExpenseRow(e, y), y)
  {
  }

  /** No row of the sales or expenses report lies above the top margin or below 270. */
  lemma ReportRowsOnPage(sales: seq<Sale>, expenses: seq<Expense>)
    ensures TextsWithin(SalesRows(sales), PAGE_TOP, ROW_LIMIT)
    ensures TextsWithin(ExpenseRows(expenses), PAGE_TOP, ROW_LIMIT)
  {
    RowsOnTheirLine();
    PaginateWithin(sales, FIRST_ROW, ROW_LIMIT, SaleRow);
    PaginateWithin(expenses, FIRST_ROW, ROW_LIMIT, ExpenseRow);
  }

  /**
    In the balance, no sales row lies below 250 and no expenses row below 270,
    wherever the sales section ended.
  */
  lemma BalanceRowsOnPage(sales: seq<Sale>, expenses: seq<Expense>)
    ensures TextsWithin(BalanceSalesRows(sales), PAGE_TOP, BALANCE_SALES_LIMIT)
    ensures TextsWithin(BalanceExpenseRows(expenses, ExpensesStart(CursorAfter(|sales|, BALANCE_FIRST_ROW, BALANCE_SALES_LIMIT))),
                        PAGE_TOP, ROW_LIMIT)
  {
    RowsOnTheirLine();
    PaginateWithin(sales, BALANCE_FIRST_ROW, BALANCE_SALES_LIMIT, BalanceSaleRow);
    RowYWithin(|sales|, BALANCE_FIRST_ROW, BALANCE_SALES_LIMIT);
    var start := ExpensesStart(CursorAfter(|sales|, BALANCE_FIRST_ROW, BALANCE_SALES_LIMIT));
    PaginateWithin(expenses, start, ROW_LIMIT, BalanceExpenseRow);
  }

  /**
    The first page of the sales and expenses reports holds 24 rows, 8 apart from
    y = 85; the 25th row is preceded by a page break and drawn at the top.
  */
  lemma FirstPageRows(k: nat)
    ensures k < 24 ==> RowY(k, FIRST_ROW, ROW_LIMIT) == FIRST_ROW + ROW_HEIGHT * k
    ensures BreakIf(CursorAfter(24, FIRST_ROW, ROW_LIMIT), ROW_LIMIT) == [PageBreak]
    ensures RowY(24, FIRST_ROW, ROW_LIMIT) == PAGE_TOP
  {
    if k < 24 {
      RowsBeforeBreak(k, FIRST_ROW, ROW_LIMIT);
    }
    RowsBeforeBreak(24, FIRST_ROW, ROW_LIMIT);
  }

  /** The balance's first page holds 19 sales rows, from y = 100; the 20th starts a new page. */
  lemma BalanceFirstPageRows(k: nat)
    ensures k < 19 ==> RowY(k, BALANCE_FIRST_ROW, BALANCE_SALES_LIMIT) == BALANCE_FIRST_ROW + ROW_HEIGHT * k
    ensures BreakIf(CursorAfter(19, BALANCE_FIRST_ROW, BALANCE_SALES_LIMIT), BALANCE_SALES_LIMIT) == [PageBreak]
    ensures RowY(19, BALANCE_FIRST_ROW, BALANCE_SALES_LIMIT) == PAGE_TOP
  {
    if k < 19 {
      RowsBeforeBreak(k, BALANCE_FIRST_ROW, BALANCE_SALES_LIMIT);
    }
    RowsBeforeBreak(19, BALANCE_FIRST_ROW, BALANCE_SALES_LIMIT);
  }

  /** The client cell of a sales row: at most 15 characters, the start of the name, all of a short name. */
  lemma CustomerNameCut(sale: Sale, y: int)
    ensures var cell := SaleRow(sale, y)[1];
      cell.TextAt? && |cell.s| <= 15 && cell.s <= sale.customerName
      && (|sale.customerName| <= 15 <==> cell.s == sale.customerName)
  {
  }

  /** A report's last line is its total: the sum over exactly the records drawn above it. */
  lemma ReportTotalsShown(sales: seq<Sale>, expenses: seq<Expense>, period: string, shopName: string, generatedOn: string)
    ensures var d := SalesDrawing(sales, period, shopName, generatedOn);
      d[|d| - 1] == TextAt("TOTAL: " + Money(SalesTotal(sales)), 140, CursorAfter(|sales|, FIRST_ROW, ROW_LIMIT) + 20)
    ensures var d := ExpensesDrawing(expenses, period, shopName, generatedOn);
      d[|d| - 1] == TextAt("TOTAL: " + Debit(ExpensesTotal(expenses)), 140, CursorAfter(|expenses|, FIRST_ROW, ROW_LIMIT) + 20)
  {
  }

  /**
    The balance ends on the net profit, takings less expenses, and the figure
    carries a minus sign exactly when expenses exceed takings.
  */
  lemma BalanceNetShown(fs: seq<Sale>, fe: seq<Expense>, totalSales: int, totalExpenses: int,
                        period: string, shopName: string, generatedOn: string)
    ensures var d := BalanceDrawing(fs, fe, totalSales, totalExpenses, period, shopName, generatedOn);
      |d| > 0 && var last := d[|d| - 1];
      last.TextAt? && last.s == NetLine(totalSales - totalExpenses)
      && (StartsWith(last.s, "BÉNÉFICE NET: -") <==> totalSales < totalExpenses)
  {
    var ys := CursorAfter(|fs|, BALANCE_FIRST_ROW, BALANCE_SALES_LIMIT);
    var ye := CursorAfter(|fe|, ExpensesStart(ys), ROW_LIMIT);
    var before := ReportHeading(shopName, "BILAN FINANCIER", period, generatedOn) + BalanceSalesSection(fs, totalSales)
      + BalanceExpenseRows(fe, ExpensesStart(ys));
    var closing := BalanceClosing(ye, totalExpenses, totalSales - totalExpenses);
    assert BalanceDrawing(fs, fe, totalSales, totalExpenses, period, shopName, generatedOn) == before + closing;
    NetLineSign(totalSales - totalExpenses);
  }

  /** The net line carries a minus sign exactly for a loss. */
  lemma NetLineSign(net: int)
    ensures StartsWith(NetLine(net), "BÉNÉFICE NET: -") <==> net < 0
  {
    var digits := IntToString(net);
    var text := NetLine(net);
    assert text[..15] == "BÉNÉFICE NET: " + [digits[0]];
    if StartsWith(text, "BÉNÉFICE NET: -") {
      assert text[14] == "BÉNÉFICE NET: -"[14];
    }
  }

  /** The invoice's seventh command is its status, which reads "NON PAYÉ" exactly for an unsettled debt. */
  lemma InvoiceStatusShown(sale: Sale, shopName: string)
    ensures var d := InvoiceDrawing(sale, shopName);
      d[6] == TextAt(StatusText(sale), 120, 75)
      && (d[6].s == "STATUT: NON PAYÉ" <==> sale.paymentMethod == "debt" && !sale.isPaid)
  {
  }

  /** The invoice's total line shows the sale's recorded total, 20 below the last item row. */
  lemma InvoiceTotalLine(sale: Sale, shopName: string)
    ensures var d := InvoiceDrawing(sale, shopName);
      d[|d| - 3] == TextAt("TOTAL À PAYER: " + Money(sale.total), 120, INVOICE_FIRST_ROW + ROW_HEIGHT * |sale.items| + 20)
  {
  }

  /**
    Item `k` of an invoice is drawn at y = 105 + 8k, right after the items
    before it, with its line total `price * quantity`.
  */
  lemma InvoiceItemShown(items: seq<SaleItem>, k: nat)
    requires k < |items|
    ensures InvoiceRows(items[..k]) + InvoiceItemRow(items[k], INVOICE_FIRST_ROW + ROW_HEIGHT * k) <= InvoiceRows(items)
    ensures InvoiceItemRow(items[k], INVOICE_FIRST_ROW + ROW_HEIGHT * k)[3]
         == TextAt(Money(items[k].price * items[k].quantity), 170, INVOICE_FIRST_ROW + ROW_HEIGHT * k)
    ensures |InvoiceRows(items)| == 4 * |items|
    ensures InvoiceRows(items)[4 * k .. 4 * k + 4] == InvoiceItemRow(items[k], INVOICE_FIRST_ROW + ROW_HEIGHT * k)
  {
    InvoiceRowsStep(items, k);
    StackPrefix(items, k + 1, INVOICE_FIRST_ROW, InvoiceItemRow);
    StackSlice(items, k, INVOICE_FIRST_ROW, 4, InvoiceItemRow);
  }
}
