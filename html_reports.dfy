/**
  The HTML builders `generateSalesReportHtml`, `generateExpensesReportHtml`,
  `generateBalanceReportHtml` and `generateInvoiceHtml`. Each builds a
  document, a list of blocks in page order, and `Markup` writes it out as
  the HTML string. The builders do no period filtering: they render the
  records they are given, one table row per record, in order.

  An optional string that is absent (`undefined`) is written "" here: both
  are falsy in the source's tests and neither is rendered.
*/
module HtmlReports {
  import opened Wrappers
  import opened Strings
  import opened Records
  import opened Aggregate
  import opened Labels

  /** A `<tfoot>` row: a label cell spanning `span` columns, then the value cell. */
  datatype Footer = Footer(caption: string, span: nat, value: string)

  datatype Table = Table(head: seq<string>, body: seq<seq<string>>, foot: Option<Footer>)

  datatype Block =
    | Logo(src: string)                   // <img src="..." class="logo" />
    | Title(text: string)                 // <h1>
    | Heading(text: string)               // <h2>
    | Field(name: string, value: string)  // <p><strong>name</strong> value</p>
    | Contact(lines: seq<string>)         // <div class="contact"> with one <div> per line
    | Grid(table: Table)                  // <table>

  type Document = seq<Block>

  // ---------------------------------------------------------------------
  // Cell texts
  // ---------------------------------------------------------------------

  /** `${n} FCFA`. */
  function Money(n: int): string {
    IntToString(n) + " FCFA"
  }

  /** `-${n} FCFA`: expenses are shown as debits. */
  function Debit(n: int): string {
    "-" + IntToString(n) + " FCFA"
  }

  /** `${item.productName} (x${item.quantity})`. */
  function ItemDescription(item: SaleItem): string {
    item.productName + " (x" + IntToString(item.quantity) + ")"
  }

  function Descriptions(items: seq<SaleItem>): (r: seq<string>)
    ensures |r| == |items|
    ensures forall i :: 0 <= i < |items| ==> r[i] == ItemDescription(items[i])
  {
    if items == [] then [] else [ItemDescription(items[0])] + Descriptions(items[1..])
  }

  /** The articles column: the item descriptions joined by ", ". */
  function ItemsText(items: seq<SaleItem>): (r: string)
    ensures items == [] ==> r == ""
    ensures |items| == 1 ==> r == ItemDescription(items[0])
  {
    Join(Descriptions(items), ", ")
  }

  /** `logoUri && logoUri.startsWith('data:image/')`: the logo is shown only for an inline image. */
  function LogoBlocks(logoUri: string): (r: Document)
    ensures |r| <= 1
    ensures r != [] <==> StartsWith(logoUri, "data:image/")
    ensures r != [] ==> r[0] == Logo(logoUri)
  {
    if logoUri != "" && StartsWith(logoUri, "data:image/") then [Logo(logoUri)] else []
  }

  /** The contact lines: phone, email, address, each only when present. */
  function ContactLines(phone: string, email: string, address: string): (lines: seq<string>)
    ensures lines == [] <==> phone == "" && email == "" && address == ""
    ensures forall i :: 0 <= i < |lines| ==> lines[i] != ""
    ensures phone != "" ==> lines[0] == phone
    ensures address != "" ==> lines[|lines| - 1] == address
    ensures |lines| == (if phone != "" then 1 else 0) + (if email != "" then 1 else 0) + (if address != "" then 1 else 0)
    ensures email != "" ==> lines[if phone != "" then 1 else 0] == email
  {
    (if phone != "" then [phone] else []) + (if email != "" then [email] else []) + (if address != "" then [address] else [])
  }

  /** `contactBlock`: emitted only when at least one contact detail is present. */
  function ContactBlocks(phone: string, email: string, address: string): (r: Document)
    ensures |r| <= 1
    ensures r != [] <==> phone != "" || email != "" || address != ""
    ensures r != [] ==> r[0] == Contact(ContactLines(phone, email, address))
  {
    if phone != "" || email != "" || address != "" then [Contact(ContactLines(phone, email, address))] else []
  }

  /**
    What every page shows at its top: the logo exactly when its URI is an
    inline image, and a contact block exactly when some contact field is set,
    holding the contact lines.
  */
  ghost predicate Letterhead(d: Document, logoUri: string, phone: string, email: string, address: string) {
    && (Logo(logoUri) in d <==> StartsWith(logoUri, "data:image/"))
    && ((exists b :: b in d && b.Contact?) <==> phone != "" || email != "" || address != "")
    && (forall b :: b in d && b.Contact? ==> b == Contact(ContactLines(phone, email, address)))
  }

  /** A page whose logo and contact blocks are exactly those of `LogoBlocks` and `ContactBlocks` has the letterhead. */
  lemma LetterheadOf(d: Document, logoUri: string, phone: string, email: string, address: string)
    requires forall b :: b in d && (b.Logo? || b.Contact?) ==> b in LogoBlocks(logoUri) || b in ContactBlocks(phone, email, address)
    requires forall b :: b in LogoBlocks(logoUri) || b in ContactBlocks(phone, email, address) ==> b in d
    ensures Letterhead(d, logoUri, phone, email, address)
  {
    var logo, contact := LogoBlocks(logoUri), ContactBlocks(phone, email, address);
    assert forall b :: b in logo ==> b == Logo(logoUri);
    assert forall b :: b in contact ==> b == Contact(ContactLines(phone, email, address));
    if phone != "" || email != "" || address != "" {
      assert contact[0] in d;
    }
  }

  /** One row per record, in the records' order (`records.map(...).join('')`). */
  function Rows<T>(records: seq<T>, cells: T -> seq<string>): (rows: seq<seq<string>>)
    ensures |rows| == |records|
    ensures forall i :: 0 <= i < |records| ==> rows[i] == cells(records[i])
  {
    if records == [] then [] else [cells(records[0])] + Rows(records[1..], cells)
  }

  /** The rows of a concatenation are the rows of the first part, then those of the second. */
  lemma RowsAppend<T>(a: seq<T>, b: seq<T>, cells: T -> seq<string>)
    ensures Rows(a + b, cells) == Rows(a, cells) + Rows(b, cells)
  {
    assert |Rows(a + b, cells)| == |Rows(a, cells) + Rows(b, cells)|;
    forall i | 0 <= i < |a + b|
      ensures Rows(a + b, cells)[i] == (Rows(a, cells) + Rows(b, cells))[i]
    {
      if i >= |a| {
        assert (a + b)[i] == b[i - |a|];
      }
    }
  }

  // ---------------------------------------------------------------------
  // The four documents
  // ---------------------------------------------------------------------

  /** Logo, title, period, contact block and generation date, in that order. */
  function ReportHeader(title: string, period: string, logoUri: string, phone: string, address: string,
                        email: string, generatedOn: string): (r: Document)
    ensures Letterhead(r, logoUri, phone, email, address)
    ensures Field("Période :", PeriodLabel(period)) in r && Title(title) in r
    ensures r[|r| - 1] == Field("Date de génération :", generatedOn)
    ensures var l, c := |LogoBlocks(logoUri)|, |ContactBlocks(phone, email, address)|;
      |r| == l + c + 3 && r[..l] == LogoBlocks(logoUri)
      && r[l] == Title(title) && r[l + 1] == Field("Période :", PeriodLabel(period))
      && r[l + 2 .. l + 2 + c] == ContactBlocks(phone, email, address)
  {
    var logo := LogoBlocks(logoUri);
    var contact := ContactBlocks(phone, email, address);
    var r := logo + [Title(title), Field("Période :", PeriodLabel(period))] + contact
             + [Field("Date de génération :", generatedOn)];
    HeaderLayout(logo, contact, Title(title), Field("Période :", PeriodLabel(period)),
                 Field("Date de génération :", generatedOn));
    LetterheadOf(r, logoUri, phone, email, address);
    r
  }

  /**
    The header with an optional logo block and an optional contact block
    around three fixed blocks, spelled out for each of the four cases.
  */
  lemma HeaderLayout(logo: Document, contact: Document, title: Block, period: Block, date: Block)
    requires |logo| <= 1 && |contact| <= 1
    requires !title.Contact? && !period.Contact? && !date.Contact?
    requires forall b :: b in logo ==> !b.Contact?
    ensures var r := logo + [title, period] + contact + [date];
      && |r| == |logo| + |contact| + 3 && r[..|logo|] == logo
      && r[|logo|] == title && r[|logo| + 1] == period
      && r[|logo| + 2 .. |logo| + 2 + |contact|] == contact && r[|r| - 1] == date
      && (forall b :: b in r <==> b in logo || b == title || b == period || b in contact || b == date)
      && (forall b :: b in r && b.Contact? ==> b in contact)
  {
    var r := logo + [title, period] + contact + [date];
    if logo == [] && contact == [] {
      assert r == [title, period, date];
    } else if logo == [] {
      assert r == [title, period, contact[0], date];
    } else if contact == [] {
      assert r == [logo[0], title, period, date];
    } else {
      assert r == [logo[0], title, period, contact[0], date];
    }
  }

  /**
    Blocks appended after a header that carry no logo and no contact block
    keep its letterhead, and leave the header in front.
  */
  lemma HeaderThen(header: Document, tail: Document, logoUri: string, phone: string, email: string, address: string)
    requires forall b :: b in tail ==> !b.Logo? && !b.Contact?
    requires Letterhead(header, logoUri, phone, email, address)
    ensures Letterhead(header + tail, logoUri, phone, email, address)
    ensures forall b :: b in header || b in tail ==> b in header + tail
    ensures (header + tail)[|header|..] == tail
    ensures (header + tail)[..|header|] == header
  {
    assert forall b :: b in header + tail <==> b in header || b in tail;
  }

  function SaleCells(sale: Sale): seq<string> {
    [sale.date, sale.customerName, ItemsText(sale.items), PaymentLabel(sale.paymentMethod), Money(sale.total)]
  }

  function ExpenseCells(expense: Expense): seq<string> {
    [expense.date, expense.description, expense.category, Debit(expense.amount)]
  }

  /** The sales table: one row per sale with the full customer name and articles, and the grand total. */
  function SalesTable(sales: seq<Sale>): (t: Table)
    ensures |t.body| == |sales|
    ensures forall i :: 0 <= i < |sales| ==> t.body[i] == SaleCells(sales[i])
    ensures t.foot == Some(Footer("TOTAL", 4, Money(SalesTotal(sales))))
  {
    var rows := Rows(sales, SaleCells);
    assert forall i :: 0 <= i < |sales| ==> rows[i] == SaleCells(sales[i]);
    Table(["Date", "Client", "Articles", "Paiement", "Montant"], rows,
          Some(Footer("TOTAL", 4, Money(SalesTotal(sales)))))
  }

  /** A sales row shows the whole customer name and article list (no cut, unlike the PDF), the payment label and the total. */
  lemma SalesRowColumns(sales: seq<Sale>, i: int)
    requires 0 <= i < |sales|
    ensures |SalesTable(sales).body[i]| == 5
    ensures SalesTable(sales).body[i][0] == sales[i].date
    ensures SalesTable(sales).body[i][1] == sales[i].customerName
    ensures SalesTable(sales).body[i][2] == ItemsText(sales[i].items)
    ensures SalesTable(sales).body[i][3] == PaymentLabel(sales[i].paymentMethod)
    ensures SalesTable(sales).body[i][4] == Money(sales[i].total)
  {
    var row := SalesTable(sales).body[i];
    assert row == SaleCells(sales[i]);
  }

  /** `generateSalesReportHtml` as a document: the header, then the table of exactly the sales given, whatever the period. */
  function SalesReportDocument(sales: seq<Sale>, period: string, logoUri: string, phone: string,
                               address: string, email: string, generatedOn: string): (r: Document)
    ensures Letterhead(r, logoUri, phone, email, address)
    ensures Field("Période :", PeriodLabel(period)) in r
    ensures r[|r| - 1] == Grid(SalesTable(sales))
    ensures r[..|r| - 1] == ReportHeader("Rapport des ventes", period, logoUri, phone, address, email, generatedOn)
  {
    var header := ReportHeader("Rapport des ventes", period, logoUri, phone, address, email, generatedOn);
    var r := header + [Grid(SalesTable(sales))];
    HeaderThen(header, [Grid(SalesTable(sales))], logoUri, phone, email, address);
    r
  }

  /** The expenses table: one row per expense, amounts as debits, and the debited total. */
  function ExpensesTable(expenses: seq<Expense>): (t: Table)
    ensures |t.body| == |expenses|
    ensures forall i :: 0 <= i < |expenses| ==>
      t.body[i] == [expenses[i].date, expenses[i].description, expenses[i].category, Debit(expenses[i].amount)]
    ensures t.foot == Some(Footer("TOTAL", 3, Debit(ExpensesTotal(expenses))))
  {
    Table(["Date", "Description", "Catégorie", "Montant"], Rows(expenses, ExpenseCells),
          Some(Footer("TOTAL", 3, Debit(ExpensesTotal(expenses)))))
  }

  /** `generateExpensesReportHtml` as a document: the header, then the table of exactly the expenses given. */
  function ExpensesReportDocument(expenses: seq<Expense>, period: string, logoUri: string, phone: string,
                                  address: string, email: string, generatedOn: string): (r: Document)
    ensures Letterhead(r, logoUri, phone, email, address)
    ensures Field("Période :", PeriodLabel(period)) in r
    ensures r[|r| - 1] == Grid(ExpensesTable(expenses))
    ensures r[..|r| - 1] == ReportHeader("Rapport des charges", period, logoUri, phone, address, email, generatedOn)
  {
    var header := ReportHeader("Rapport des charges", period, logoUri, phone, address, email, generatedOn);
    var r := header + [Grid(ExpensesTable(expenses))];
    HeaderThen(header, [Grid(ExpensesTable(expenses))], logoUri, phone, email, address);
    r
  }

  function BalanceSaleCells(sale: Sale): seq<string> {
    [sale.date, sale.customerName, Money(sale.total)]
  }

  function BalanceExpenseCells(expense: Expense): seq<string> {
    [expense.date, expense.description, Debit(expense.amount)]
  }

  /** The two balance tables and the net line that closes the balance. */
  function BalanceBody(sales: seq<Sale>, expenses: seq<Expense>): (r: Document)
    ensures |r| == 5
    ensures r[0] == Heading("Recettes") && r[2] == Heading("Charges")
    ensures r[1].Grid? && |r[1].table.body| == |sales|
    ensures r[3].Grid? && |r[3].table.body| == |expenses|
    ensures forall i :: 0 <= i < |sales| ==> r[1].table.body[i] == [sales[i].date, sales[i].customerName, Money(sales[i].total)]
    ensures forall i :: 0 <= i < |expenses| ==> r[3].table.body[i] == [expenses[i].date, expenses[i].description, Debit(expenses[i].amount)]
    ensures r[1].table.foot == Some(Footer("Sous-total recettes", 2, Money(SalesTotal(sales))))
    ensures r[3].table.foot == Some(Footer("Sous-total charges", 2, Debit(ExpensesTotal(expenses))))
    ensures r[4] == Heading("Bénéfice net : " + Money(SalesTotal(sales) - ExpensesTotal(expenses)))
  {
    [ Heading("Recettes"),
      Grid(Table(["Date", "Client", "Montant"], Rows(sales, BalanceSaleCells),
                 Some(Footer("Sous-total recettes", 2, Money(SalesTotal(sales)))))),
      Heading("Charges"),
      Grid(Table(["Date", "Description", "Montant"], Rows(expenses, BalanceExpenseCells),
                 Some(Footer("Sous-total charges", 2, Debit(ExpensesTotal(expenses)))))),
      Heading("Bénéfice net : " + Money(NetProfit(sales, expenses))) ]
  }

  /** The balance body holds no logo, contact block or field of its own. */
  lemma BalanceBodyPlain(sales: seq<Sale>, expenses: seq<Expense>)
    ensures forall b :: b in BalanceBody(sales, expenses) ==> !b.Logo? && !b.Contact? && !b.Field?
  {
    var body := BalanceBody(sales, expenses);
    forall b | b in body
      ensures !b.Logo? && !b.Contact? && !b.Field?
    {
      var k :| 0 <= k < 5 && body[k] == b;
      assert k == 0 || k == 1 || k == 2 || k == 3 || k == 4;
    }
  }

  /** `generateBalanceReportHtml` as a document: the header, then the sales table, the expenses table and the net. */
  function BalanceReportDocument(sales: seq<Sale>, expenses: seq<Expense>, period: string, logoUri: string,
                                 phone: string, address: string, email: string, generatedOn: string): (r: Document)
    ensures Letterhead(r, logoUri, phone, email, address)
    ensures Field("Période :", PeriodLabel(period)) in r
    ensures |r| >= 5 && r[|r| - 5..] == BalanceBody(sales, expenses)
    ensures r[..|r| - 5] == ReportHeader("Bilan financier", period, logoUri, phone, address, email, generatedOn)
  {
    var header := ReportHeader("Bilan financier", period, logoUri, phone, address, email, generatedOn);
    var body := BalanceBody(sales, expenses);
    var r := header + body;
    BalanceBodyPlain(sales, expenses);
    HeaderThen(header, body, logoUri, phone, email, address);
    assert r[|r| - 5..] == body;
    r
  }

  function InvoiceItemCells(item: SaleItem): seq<string> {
    [item.productName, IntToString(item.quantity), Money(item.price), Money(LineTotal(item))]
  }

  /** The invoice's item table (no footer) and its closing total line. */
  function InvoiceBody(sale: Sale): (r: Document)
    ensures |r| == 2 && r[0].Grid? && r[0].table.foot == None
    ensures |r[0].table.body| == |sale.items|
    ensures forall i :: 0 <= i < |sale.items| ==> r[0].table.body[i] == InvoiceItemCells(sale.items[i])
    ensures r[1] == Heading("Total à payer : " + Money(sale.total))
  {
    var rows := Rows(sale.items, InvoiceItemCells);
    assert forall i :: 0 <= i < |sale.items| ==> rows[i] == InvoiceItemCells(sale.items[i]);
    [ Grid(Table(["Article", "Quantité", "Prix unitaire", "Total"], rows, None)),
      Heading("Total à payer : " + Money(sale.total)) ]
  }

  /** The invoice body holds no logo and no contact block. */
  lemma InvoiceBodyPlain(sale: Sale)
    ensures forall b :: b in InvoiceBody(sale) ==> !b.Logo? && !b.Contact?
  {
    var body := InvoiceBody(sale);
    assert body == [body[0], body[1]];
  }

  /** An invoice row shows the item name, quantity, unit price and `price * quantity`. */
  lemma InvoiceRowColumns(sale: Sale, i: int)
    requires 0 <= i < |sale.items|
    ensures InvoiceBody(sale)[0].table.body[i]
         == [sale.items[i].productName, IntToString(sale.items[i].quantity), Money(sale.items[i].price),
             Money(sale.items[i].price * sale.items[i].quantity)]
  {
  }

  /** The top of the invoice page: the logo when it is an image, the "Facture" title, then the contact block. */
  function InvoiceHeader(logoUri: string, phone: string, address: string, email: string): (r: Document)
    ensures Letterhead(r, logoUri, phone, email, address)
    ensures Title("Facture") in r
    ensures var l := |LogoBlocks(logoUri)|;
      |r| == l + 1 + |ContactBlocks(phone, email, address)| && r[..l] == LogoBlocks(logoUri)
      && r[l] == Title("Facture") && r[l + 1..] == ContactBlocks(phone, email, address)
  {
    var logo := LogoBlocks(logoUri);
    var contact := ContactBlocks(phone, email, address);
    var r := logo + [Title("Facture")] + contact;
    TitleLayout(logo, contact, Title("Facture"));
    LetterheadOf(r, logoUri, phone, email, address);
    r
  }

  /** A title between an optional logo block and an optional contact block, in each of the four cases. */
  lemma TitleLayout(logo: Document, contact: Document, title: Block)
    requires |logo| <= 1 && |contact| <= 1 && !title.Contact?
    requires forall b :: b in logo ==> !b.Contact?
    ensures var r := logo + [title] + contact;
      && (forall b :: b in r <==> b in logo || b == title || b in contact)
      && (forall b :: b in r && b.Contact? ==> b in contact)
  {
    var r := logo + [title] + contact;
    if logo == [] && contact == [] {
      assert r == [title];
    } else if logo == [] {
      assert r == [title, contact[0]];
    } else if contact == [] {
      assert r == [logo[0], title];
    } else {
      assert r == [logo[0], title, contact[0]];
    }
  }

  /** `generateInvoiceHtml` as a document; no period filtering and no paid status. */
  function InvoiceDocument(sale: Sale, logoUri: string, phone: string, address: string, email: string): (r: Document)
    ensures Letterhead(r, logoUri, phone, email, address)
    ensures Title("Facture") in r
    ensures Field("Facture N°:", sale.id) in r && Field("Date:", sale.date) in r
    ensures Field("Client:", sale.customerName) in r
    ensures Field("Mode de paiement:", PaymentLabel(sale.paymentMethod)) in r
    ensures |r| >= 2 && r[|r| - 2..] == InvoiceBody(sale)
    ensures r[..|r| - 2] == InvoiceHeader(logoUri, phone, address, email)
      + [ Field("Facture N°:", sale.id), Field("Date:", sale.date), Field("Client:", sale.customerName),
          Field("Mode de paiement:", PaymentLabel(sale.paymentMethod)) ]
  {
    var header := InvoiceHeader(logoUri, phone, address, email);
    var fields := [ Field("Facture N°:", sale.id), Field("Date:", sale.date), Field("Client:", sale.customerName),
                    Field("Mode de paiement:", PaymentLabel(sale.paymentMethod)) ];
    var body := InvoiceBody(sale);
    HeaderThen(header, fields, logoUri, phone, email, address);
    InvoiceBodyPlain(sale);
    HeaderThen(header + fields, body, logoUri, phone, email, address);
    header + fields + body
  }

  /**
    The invoice shows the stored `sale.total`, not a recomputed one; it agrees
    with the line totals exactly when the stored total is their sum.
  */
  lemma InvoiceTotalShown(sale: Sale)
    ensures InvoiceBody(sale)[1] == Heading("Total à payer : " + Money(ItemsTotal(sale.items)))
        <==> sale.total == ItemsTotal(sale.items)
  {
    if InvoiceBody(sale)[1] == Heading("Total à payer : " + Money(ItemsTotal(sale.items))) {
      var prefix := "Total à payer : ";
      assert prefix + Money(sale.total) == prefix + Money(ItemsTotal(sale.items));
      assert Money(sale.total) == (prefix + Money(sale.total))[|prefix|..];
      assert Money(ItemsTotal(sale.items)) == (prefix + Money(ItemsTotal(sale.items)))[|prefix|..];
      MoneyInjective(sale.total, ItemsTotal(sale.items));
    }
  }

  lemma MoneyInjective(m: int, n: int)
    requires Money(m) == Money(n)
    ensures m == n
  {
    var a, b := IntToString(m), IntToString(n);
    assert |a| == |b|;
    assert a == Money(m)[..|a|] && b == Money(n)[..|b|];
    IntToStringInjective(m, n);
  }

  // ---------------------------------------------------------------------
  // Markup
  // ---------------------------------------------------------------------

  function Cells(tag: string, cells: seq<string>): string {
    if cells == [] then "" else "<" + tag + ">" + cells[0] + "</" + tag + ">" + Cells(tag, cells[1..])
  }

  function RowMarkup(cells: seq<string>): string {
    "<tr>" + Cells("td", cells) + "</tr>"
  }

  /** The `<tbody>` content: the rows' markup one after another. */
  function RowsMarkup(rows: seq<seq<string>>): string {
    if rows == [] then "" else RowMarkup(rows[0]) + RowsMarkup(rows[1..])
  }

  /** Writing out rows is compositional, so the body keeps the row order. */
  lemma {:induction false} RowsMarkupAppend(a: seq<seq<string>>, b: seq<seq<string>>)
    ensures RowsMarkup(a + b) == RowsMarkup(a) + RowsMarkup(b)
    decreases |a|
  {
    if a == [] {
      assert a + b == b;
    } else {
      assert (a + b)[1..] == a[1..] + b;
      RowsMarkupAppend(a[1..], b);
    }
  }

  function FootMarkup(foot: Option<Footer>): string {
    match foot
    case None => ""
    case Some(f) =>
      "<tfoot><tr><td colspan=\"" + NatToString(f.span) + "\">" + f.caption + "</td><td>" + f.value + "</td></tr></tfoot>"
  }

  function TableMarkup(t: Table): string {
    "<table><thead><tr>" + Cells("th", t.head) + "</tr></thead><tbody>" + RowsMarkup(t.body) + "</tbody>"
    + FootMarkup(t.foot) + "</table>"
  }

  function BlockMarkup(b: Block): string {
    match b
    case Logo(src) => "<img src=\"" + src + "\" class=\"logo\" />"
    case Title(text) => "<h1>" + text + "</h1>"
    case Heading(text) => "<h2>" + text + "</h2>"
    case Field(name, value) => "<p><strong>" + name + "</strong> " + value + "</p>"
    case Contact(lines) => "<div class=\"contact\">" + Cells("div", lines) + "</div>"
    case Grid(t) => TableMarkup(t)
  }

  function BlocksMarkup(doc: Document): string {
    if doc == [] then "" else BlockMarkup(doc[0]) + BlocksMarkup(doc[1..])
  }

  /** The HTML page of a document. */
  function Markup(doc: Document): string {
    "<html><head><meta charset=\"utf-8\" /></head><body>" + BlocksMarkup(doc) + "</body></html>"
  }

  /** The sales rows of two stretches of sales are written in that order, unfiltered. */
  lemma SalesRowsInOrder(a: seq<Sale>, b: seq<Sale>)
    ensures RowsMarkup(SalesTable(a + b).body) == RowsMarkup(SalesTable(a).body) + RowsMarkup(SalesTable(b).body)
  {
    RowsAppend(a, b, SaleCells);
    RowsMarkupAppend(Rows(a, SaleCells), Rows(b, SaleCells));
  }

  function SalesReportHtml(sales: seq<Sale>, period: string, logoUri: string, phone: string, address: string,
                           email: string, generatedOn: string): string
  {
    Markup(SalesReportDocument(sales, period, logoUri, phone, address, email, generatedOn))
  }

  function ExpensesReportHtml(expenses: seq<Expense>, period: string, logoUri: string, phone: string,
                              address: string, email: string, generatedOn: string): string
  {
    Markup(ExpensesReportDocument(expenses, period, logoUri, phone, address, email, generatedOn))
  }

  function BalanceReportHtml(sales: seq<Sale>, expenses: seq<Expense>, period: string, logoUri: string,
                             phone: string, address: string, email: string, generatedOn: string): string
  {
    Markup(BalanceReportDocument(sales, expenses, period, logoUri, phone, address, email, generatedOn))
  }

  function InvoiceHtml(sale: Sale, logoUri: string, phone: string, address: string, email: string): string
  {
    Markup(InvoiceDocument(sale, logoUri, phone, address, email))
  }
}
