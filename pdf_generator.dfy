/** The invoice renderer (lib/pdf-generator.ts). The jsPDF document is a `Doc`
    that records every text and table it is asked to draw, with the page it lands
    on; `GenerateInvoice` draws an invoice into a fresh `Doc` step by step and is
    proved to produce exactly the operations `InvoiceResult` describes, block by
    block, and the lemmas below state the layout rules about those blocks. */
module InvoicePdf {
  import opened Wrappers
  import opened TextUtil

  datatype LineItem = LineItem(
    description: string,
    productName: string,
    transactionId: string,
    date: string,
    status: string,
    quantity: real,
    unitPrice: real,
    taxRate: real,
    total: real)

  /** The transaction being billed; a missing optional text is "" and missing
      line items are the empty sequence. */
  datatype Invoice = Invoice(
    id: string,
    status: string,
    date: string,
    dueDate: string,
    description: string,
    amount: real,
    referenceNumber: string,
    paymentMethod: string,
    notes: string,
    lineItems: seq<LineItem>)

  datatype ClientInfo = ClientInfo(name: string, email: string, phone: string, address: string)

  /** What `autoTable` did: drew the table, ending at `endY` after adding
      `addedPages` pages; threw an error with a `message` (possibly "") and a
      string form; or was not there at all. */
  datatype TableOutcome =
    | TableDrawn(endY: real, addedPages: nat)
    | TableThrew(message: string, asString: string)
    | TableUnavailable

  /** Everything the renderer takes from its surroundings: how numbers print in
      a template string, the locale date format, `splitTextToSize`, today's date
      as `toLocaleDateString` prints it, and the table plug-in's behaviour. */
  datatype Env = Env(
    show: real -> string,
    formatDate: string -> string,
    wrap: string -> seq<string>,
    today: string,
    table: TableOutcome)

  datatype Align = Left | Right | Center

  datatype TextStyle = TextStyle(fontSize: int, bold: bool, color: string, align: Align)

  datatype DrawOp =
    | Text(page: nat, text: string, x: real, y: real, style: TextStyle)
    | Table(page: nat, head: seq<string>, body: seq<seq<string>>, startY: real)

  const PrimaryColor: string := "#3A86FF"
  const TextColor: string := "#333333"

  const CompanyName: string := "MCODEV Bytes"
  const CompanyAddress: string := "Malappuram"
  const CompanyCity: string := "Kerala India 676504"
  const CompanyPhone: string := "+91 98472-74569"
  const CompanyEmail: string := "mcodevbiz@gmail.com"
  const CompanyWebsite: string := "www.mcodevbytes.in"

  const TableStartY: real := 100.0

  /** `addText`'s defaults (size 10, normal, text colour, left) with overrides. */
  function Plain10(align: Align): TextStyle { TextStyle(10, false, TextColor, align) }
  const Brand20: TextStyle := TextStyle(20, true, PrimaryColor, Left)
  const BrandRight20: TextStyle := TextStyle(20, true, PrimaryColor, Right)
  const Right12: TextStyle := TextStyle(12, false, TextColor, Right)
  const Bold12: TextStyle := TextStyle(12, true, TextColor, Left)
  const BoldRight12: TextStyle := TextStyle(12, true, TextColor, Right)
  const Bold11: TextStyle := TextStyle(11, true, TextColor, Left)
  const Small8Right: TextStyle := TextStyle(8, false, TextColor, Right)
  const Small8Center: TextStyle := TextStyle(8, false, TextColor, Center)

  /** `formatDateForInvoice`: "-" for a missing date, else the locale format. */
  function FormatDateForInvoice(date: string, formatDate: string -> string): (r: string)
    ensures date == "" ==> r == "-"
    ensures date != "" ==> r == formatDate(date)
  {
    if date == "" then "-" else formatDate(date)
  }

  /** `id.toString().startsWith("WEEK-")` */
  predicate IsWeekly(id: string) {
    IsPrefix("WEEK-", id)
  }

  function InvoiceTitle(id: string): (r: string)
    ensures r == "WEEKLY INVOICE" <==> IsWeekly(id)
    ensures r == "INVOICE" <==> !IsWeekly(id)
  {
    if IsWeekly(id) then "WEEKLY INVOICE" else "INVOICE"
  }

  /** The table's column headings: the weekly set for a "WEEK-" id, the item set
      otherwise. */
  function TableHeaders(id: string): (r: seq<string>)
    ensures IsWeekly(id) ==> r == ["Transaction ID", "Date", "Description", "Status", "Amount"]
    ensures !IsWeekly(id) ==> r == ["Item", "Quantity", "Unit Price", "Tax", "Amount"]
  {
    if IsWeekly(id) then ["Transaction ID", "Date", "Description", "Status", "Amount"]
    else ["Item", "Quantity", "Unit Price", "Tax", "Amount"]
  }

  /** `statusColors[status] || textColor` */
  function StatusColor(status: string): (r: string)
    ensures status == "paid" ==> r == "#22c55e"
    ensures status == "pending" ==> r == "#f59e0b"
    ensures status == "overdue" ==> r == "#ef4444"
    ensures status == "draft" ==> r == "#6b7280"
    ensures status == "partial" ==> r == "#3b82f6"
    ensures status !in {"paid", "pending", "overdue", "draft", "partial"} ==> r == TextColor
  {
    var colors := map["paid" := "#22c55e", "pending" := "#f59e0b", "overdue" := "#ef4444",
                      "draft" := "#6b7280", "partial" := "#3b82f6"];
    if status in colors then colors[status] else TextColor
  }

  /** The bold "Status: PAID" line at `y`, in the status colour. */
  function StatusOp(page: nat, status: string, y: real): DrawOp {
    Text(page, "Status: " + Upper(status), 190.0, y, TextStyle(12, true, StatusColor(status), Right))
  }

  /** A row of the weekly table: reference, date, description, status, amount. */
  function WeeklyRow(item: LineItem, env: Env): (r: seq<string>)
    ensures |r| == 5
    ensures r[0] == (if item.transactionId == "" then "-" else item.transactionId)
    ensures r[1] == FormatDateForInvoice(item.date, env.formatDate)
    ensures r[2] == (if item.productName == "" then "Service" else item.productName)
    ensures item.status == "" ==> r[3] == "-"
    ensures item.status != "" ==>
      |r[3]| == |item.status| && r[3][0] == UpperChar(item.status[0]) && r[3][1..] == item.status[1..]
    ensures r[4] == "Rs. " + env.show(item.total)
  {
    [ if item.transactionId == "" then "-" else item.transactionId,
      FormatDateForInvoice(item.date, env.formatDate),
      if item.productName == "" then "Service" else item.productName,
      if item.status == "" then "-" else Capitalize(item.status),
      "Rs. " + env.show(item.total) ]
  }

  /** A row of the item table: description, quantity, unit price, tax rate, total. */
  function StandardRow(item: LineItem, env: Env): (r: seq<string>)
    ensures |r| == 5
    ensures r[0] == item.description && r[1] == env.show(item.quantity)
    ensures |r[2]| >= 4 && r[2][..4] == "Rs. " && r[2][4..] == env.show(item.unitPrice)
    ensures |r[3]| >= 1 && r[3][..|r[3]| - 1] == env.show(item.taxRate) && r[3][|r[3]| - 1] == '%'
    ensures |r[4]| >= 4 && r[4][..4] == "Rs. " && r[4][4..] == env.show(item.total)
  {
    [ item.description, env.show(item.quantity), "Rs. " + env.show(item.unitPrice),
      env.show(item.taxRate) + "%", "Rs. " + env.show(item.total) ]
  }

  /** The one row shown when there are no line items. */
  function FallbackRow(t: Invoice, env: Env): (r: seq<string>)
    ensures |r| == 5
    ensures r[0] == t.description && r[1] == "1" && r[3] == "0%"
    ensures r[2] == r[4] && |r[2]| >= 4 && r[2][..4] == "Rs. " && r[2][4..] == env.show(t.amount)
  {
    [ t.description, "1", "Rs. " + env.show(t.amount), "0%", "Rs. " + env.show(t.amount) ]
  }

  /** `tableData`: one weekly row per item for a weekly invoice with items, one
      item row per item for another invoice with items, and otherwise the single
      fallback row, weekly or not. It is never empty. */
  function TableBody(t: Invoice, env: Env): (r: seq<seq<string>>)
    ensures |r| >= 1
    ensures |t.lineItems| > 0 ==> |r| == |t.lineItems|
    ensures |t.lineItems| > 0 && IsWeekly(t.id) ==>
      forall i :: 0 <= i < |r| ==> r[i] == WeeklyRow(t.lineItems[i], env)
    ensures |t.lineItems| > 0 && !IsWeekly(t.id) ==>
      forall i :: 0 <= i < |r| ==> r[i] == StandardRow(t.lineItems[i], env)
    ensures |t.lineItems| == 0 ==> r == [FallbackRow(t, env)]
  {
    var items := t.lineItems;
    if IsWeekly(t.id) && |items| > 0 then
      seq(|items|, i requires 0 <= i < |items| => WeeklyRow(items[i], env))
    else if |items| > 0 then
      seq(|items|, i requires 0 <= i < |items| => StandardRow(items[i], env))
    else
      [FallbackRow(t, env)]
  }

  function ItemTax(item: LineItem): real {
    item.unitPrice * item.quantity * item.taxRate / 100.0
  }

  /** Σ unitPrice · quantity · taxRate / 100 over the items. */
  function TaxSum(items: seq<LineItem>): real {
    if items == [] then 0.0 else TaxSum(items[..|items| - 1]) + ItemTax(items[|items| - 1])
  }

  /** The tax is added up only for an invoice with items that is not weekly. */
  predicate TaxApplies(t: Invoice) {
    |t.lineItems| > 0 && !IsWeekly(t.id)
  }

  predicate TaxShown(t: Invoice) {
    TaxApplies(t) && TaxSum(t.lineItems) > 0.0
  }

  /** Text lines stacked 5 apart from `y0`, as the address and note lines are. */
  function LinesOps(page: nat, lines: seq<string>, x: real, y0: real, style: TextStyle): (r: seq<DrawOp>)
    ensures |r| == |lines|
  {
    if lines == [] then []
    else LinesOps(page, lines[..|lines| - 1], x, y0, style)
         + [Text(page, lines[|lines| - 1], x, y0 + 5.0 * (|lines| - 1) as real, style)]
  }

  /** Line `i` is drawn at `y0 + 5 i`. */
  lemma {:induction false} LinesOpsAt(page: nat, lines: seq<string>, x: real, y0: real, style: TextStyle)
    ensures forall i :: 0 <= i < |lines| ==>
      LinesOps(page, lines, x, y0, style)[i] == Text(page, lines[i], x, y0 + 5.0 * i as real, style)
    decreases |lines|
  {
    if lines != [] {
      var init := lines[..|lines| - 1];
      LinesOpsAt(page, init, x, y0, style);
      forall i | 0 <= i < |lines|
        ensures LinesOps(page, lines, x, y0, style)[i] == Text(page, lines[i], x, y0 + 5.0 * i as real, style)
      {
        if i < |init| {
          assert LinesOps(page, lines, x, y0, style)[i] == LinesOps(page, init, x, y0, style)[i];
        }
      }
    }
  }

  /** The company block, top left of page 1. */
  function CompanyOps(): seq<DrawOp> {
    [ Text(1, CompanyName, 20.0, 20.0, Brand20),
      Text(1, CompanyAddress, 20.0, 27.0, Plain10(Left)),
      Text(1, CompanyCity, 20.0, 32.0, Plain10(Left)),
      Text(1, CompanyPhone, 20.0, 37.0, Plain10(Left)),
      Text(1, CompanyEmail, 20.0, 42.0, Plain10(Left)),
      Text(1, CompanyWebsite, 20.0, 47.0, Plain10(Left)) ]
  }

  /** Title, number, status and dates, top right of page 1. */
  function TitleOps(t: Invoice): seq<DrawOp> {
    [ Text(1, InvoiceTitle(t.id), 190.0, 20.0, BrandRight20),
      Text(1, "#" + t.id, 190.0, 27.0, Right12),
      StatusOp(1, t.status, 34.0),
      Text(1, "Date: " + t.date, 190.0, 42.0, Plain10(Right)),
      Text(1, "Due Date: " + t.dueDate, 190.0, 47.0, Plain10(Right)) ]
  }

  /** The "Bill To:" block; the phone and the address lines only when present. */
  function BillToOps(c: ClientInfo): seq<DrawOp> {
    [ Text(1, "Bill To:", 20.0, 60.0, Bold12),
      Text(1, c.name, 20.0, 67.0, Plain10(Left)),
      Text(1, c.email, 20.0, 72.0, Plain10(Left)) ]
    + (if c.phone != "" then [Text(1, c.phone, 20.0, 77.0, Plain10(Left))] else [])
    + (if c.address != "" then LinesOps(1, Split(c.address, '\n'), 20.0, 82.0, Plain10(Left)) else [])
  }

  /** Reference and payment method, each only when present. */
  function ExtrasOps(t: Invoice): seq<DrawOp> {
    (if t.referenceNumber != "" then [Text(1, "Reference: " + t.referenceNumber, 190.0, 60.0, Plain10(Right))] else [])
    + (if t.paymentMethod != "" then [Text(1, "Payment Method: " + t.paymentMethod, 190.0, 65.0, Plain10(Right))] else [])
  }

  /** The totals block below the table, on the page the table ended on. */
  function TotalsOps(t: Invoice, env: Env, finalY: real, page: nat): seq<DrawOp> {
    [ Text(page, "Subtotal:", 150.0, finalY, Plain10(Right)),
      Text(page, "Rs. " + env.show(t.amount), 190.0, finalY, Plain10(Right)) ]
    + (if TaxShown(t) then
         [ Text(page, "Tax:", 150.0, finalY + 7.0, Plain10(Right)),
           Text(page, env.show(TaxSum(t.lineItems)), 190.0, finalY + 7.0, Plain10(Right)) ]
       else [])
    + [ Text(page, "Total:", 150.0, finalY + 15.0, BoldRight12),
        Text(page, "Rs. " + env.show(t.amount), 190.0, finalY + 15.0, BoldRight12),
        StatusOp(page, t.status, finalY + 25.0) ]
  }

  /** "Notes:" and the wrapped note lines, only when there are notes. */
  function NotesOps(notes: string, env: Env, finalY: real, page: nat): seq<DrawOp> {
    if notes == "" then []
    else [Text(page, "Notes:", 20.0, finalY + 35.0, Bold11)] + LinesOps(page, env.wrap(notes), 20.0, finalY + 42.0, Plain10(Left))
  }

  function PageLabel(i: nat, n: nat): string {
    "Page " + NatToDecimal(i) + " of " + NatToDecimal(n)
  }

  /** The three footer lines of page `i` out of `n`. */
  function PageFooterOps(i: nat, n: nat, today: string): seq<DrawOp> {
    [ Text(i, PageLabel(i, n), 190.0, 287.0, Small8Right),
      Text(i, "Thank you for your business!", 105.0, 280.0, Plain10(Center)),
      Text(i, "Generated on " + today, 105.0, 285.0, Small8Center) ]
  }

  /** The footers of pages 1 to `k`. */
  function FootersUpTo(k: nat, n: nat, today: string): (r: seq<DrawOp>)
    ensures |r| == 3 * k
  {
    if k == 0 then [] else FootersUpTo(k - 1, n, today) + PageFooterOps(k, n, today)
  }

  /** Every page 1..n carries "Page i of n" at the bottom right, and the thank-you
      and generation-date lines centred, in that order. */
  lemma {:induction false} FooterOnEveryPage(k: nat, n: nat, today: string)
    ensures forall i :: 1 <= i <= k ==>
      && FootersUpTo(k, n, today)[3 * (i - 1)] == Text(i, PageLabel(i, n), 190.0, 287.0, Small8Right)
      && FootersUpTo(k, n, today)[3 * (i - 1) + 1] == Text(i, "Thank you for your business!", 105.0, 280.0, Plain10(Center))
      && FootersUpTo(k, n, today)[3 * (i - 1) + 2] == Text(i, "Generated on " + today, 105.0, 285.0, Small8Center)
    decreases k
  {
    if k > 0 {
      FooterOnEveryPage(k - 1, n, today);
      var prev := FootersUpTo(k - 1, n, today);
      assert FootersUpTo(k, n, today) == prev + PageFooterOps(k, n, today);
    }
  }

  /** The page label names the page and the page count in decimal. */
  lemma PageLabelReadsBack(i: nat, n: nat)
    ensures PageLabel(i, n) == "Page " + NatToDecimal(i) + " of " + NatToDecimal(n)
    ensures DecimalValue(NatToDecimal(i)) == i && DecimalValue(NatToDecimal(n)) == n
  {
    DecimalRoundTrip(i);
    DecimalRoundTrip(n);
  }

  /** `e.message || String(e)` */
  function ErrorText(message: string, asString: string): string {
    if message != "" then message else asString
  }

  const WrapPrefix := "PDF content generation failed: "
  const TablePrefix := "Failed to generate PDF table: "
  const TableMissing := "autoTable function is not available. Check jsPDF and autotable versions."

  /** The outer `catch`: every failure is re-thrown with this prefix. */
  function Wrapped(message: string): (r: string)
    ensures IsPrefix(WrapPrefix, r)
    ensures r[|WrapPrefix|..] == message
  {
    WrapPrefix + message
  }

  /** Everything drawn on page 1 above the table. */
  function HeaderOps(t: Invoice, c: ClientInfo): seq<DrawOp> {
    CompanyOps() + TitleOps(t) + BillToOps(c) + ExtrasOps(t)
  }

  /** Everything drawn after the table: totals and notes on the table's last
      page, then the footer of every page. */
  function BelowOps(t: Invoice, env: Env, finalY: real, pages: nat): seq<DrawOp> {
    TotalsOps(t, env, finalY, pages) + NotesOps(t.notes, env, finalY, pages)
    + FootersUpTo(pages, pages, env.today)
  }

  /** The whole invoice when the table was drawn: header, table, totals, notes and
      footers, with the page count the table left. */
  function InvoiceOps(t: Invoice, c: ClientInfo, env: Env, endY: real, addedPages: nat): seq<DrawOp> {
    HeaderOps(t, c) + [Table(1, TableHeaders(t.id), TableBody(t, env), TableStartY)]
    + BelowOps(t, env, endY + 10.0, 1 + addedPages)
  }

  /** `generateInvoicePDF`'s outcome: the drawn document, or the wrapped error. */
  function InvoiceResult(t: Invoice, c: ClientInfo, env: Env): (r: Result<seq<DrawOp>, string>)
    ensures r.Success? <==> env.table.TableDrawn?
    ensures env.table.TableUnavailable? ==>
      r == Failure(Wrapped(TableMissing))
    ensures env.table.TableThrew? ==>
      r == Failure(Wrapped(TablePrefix + ErrorText(env.table.message, env.table.asString)))
    ensures env.table.TableDrawn? ==> r == Success(InvoiceOps(t, c, env, env.table.endY, env.table.addedPages))
  {
    match env.table
    case TableUnavailable =>
      Failure(Wrapped(TableMissing))
    case TableThrew(message, asString) =>
      Failure(Wrapped(TablePrefix + ErrorText(message, asString)))
    case TableDrawn(endY, addedPages) =>
      Success(InvoiceOps(t, c, env, endY, addedPages))
  }

  /** The jsPDF document: the operations drawn so far, the number of pages and
      the page being drawn on. */
  class Doc {
    var ops: seq<DrawOp>
    var pageCount: nat
    var page: nat

    ghost predicate Valid()
      reads this
    {
      1 <= page <= pageCount
    }

    /** `new jsPDF(...)`: one empty page. */
    constructor ()
      ensures Valid() && ops == [] && pageCount == 1 && page == 1
    {
      ops := [];
      pageCount := 1;
      page := 1;
    }

    /** `addText`: draw a text on the current page. */
    method AddText(text: string, x: real, y: real, style: TextStyle)
      modifies this`ops
      ensures ops == old(ops) + [Text(page, text, x, y, style)]
    {
      ops := ops + [Text(page, text, x, y, style)];
    }

    /** `autoTable` having drawn the table from the current page on: the pages it
        added are appended and drawing continues on the last of them. */
    method DrawTable(head: seq<string>, body: seq<seq<string>>, startY: real, addedPages: nat)
      requires Valid()
      modifies this
      ensures Valid()
      ensures ops == old(ops) + [Table(old(page), head, body, startY)]
      ensures pageCount == old(pageCount) + addedPages && page == pageCount
    {
      ops := ops + [Table(page, head, body, startY)];
      pageCount := pageCount + addedPages;
      page := pageCount;
    }

    /** `setPage(i)` */
    method SetPage(i: nat)
      requires 1 <= i <= pageCount
      modifies this`page
      ensures Valid() && page == i
    {
      page := i;
    }
  }

  /** Draw the lines of `lines` one under the other, 5 apart from `y0`. */
  method DrawLines(doc: Doc, lines: seq<string>, x: real, y0: real, style: TextStyle)
    modifies doc`ops
    ensures doc.ops == old(doc.ops) + LinesOps(doc.page, lines, x, y0, style)
  {
    var i := 0;
    while i < |lines|
      invariant 0 <= i <= |lines|
      invariant doc.ops == old(doc.ops) + LinesOps(doc.page, lines[..i], x, y0, style)
    {
      assert lines[..i + 1][..i] == lines[..i];
      doc.AddText(lines[i], x, y0 + 5.0 * i as real, style);
      i := i + 1;
    }
    assert lines[..|lines|] == lines;
  }

  /** The company block. */
  method DrawCompany(doc: Doc)
    requires doc.page == 1
    modifies doc`ops
    ensures doc.ops == old(doc.ops) + CompanyOps()
  {
    doc.AddText(CompanyName, 20.0, 20.0, Brand20);
    doc.AddText(CompanyAddress, 20.0, 27.0, Plain10(Left));
    doc.AddText(CompanyCity, 20.0, 32.0, Plain10(Left));
    doc.AddText(CompanyPhone, 20.0, 37.0, Plain10(Left));
    doc.AddText(CompanyEmail, 20.0, 42.0, Plain10(Left));
    doc.AddText(CompanyWebsite, 20.0, 47.0, Plain10(Left));
  }

  /** Title, number, status and dates. */
  method DrawTitle(doc: Doc, t: Invoice)
    requires doc.page == 1
    modifies doc`ops
    ensures doc.ops == old(doc.ops) + TitleOps(t)
  {
    doc.AddText(InvoiceTitle(t.id), 190.0, 20.0, BrandRight20);
    doc.AddText("#" + t.id, 190.0, 27.0, Right12);
    doc.AddText("Status: " + Upper(t.status), 190.0, 34.0, TextStyle(12, true, StatusColor(t.status), Right));
    doc.AddText("Date: " + t.date, 190.0, 42.0, Plain10(Right));
    doc.AddText("Due Date: " + t.dueDate, 190.0, 47.0, Plain10(Right));
  }

  /** The "Bill To:" block with the optional phone and the address lines. */
  method DrawBillTo(doc: Doc, c: ClientInfo)
    requires doc.page == 1
    modifies doc`ops
    ensures doc.ops == old(doc.ops) + BillToOps(c)
  {
    doc.AddText("Bill To:", 20.0, 60.0, Bold12);
    doc.AddText(c.name, 20.0, 67.0, Plain10(Left));
    doc.AddText(c.email, 20.0, 72.0, Plain10(Left));
    var fixed := [ Text(1, "Bill To:", 20.0, 60.0, Bold12),
                   Text(1, c.name, 20.0, 67.0, Plain10(Left)),
                   Text(1, c.email, 20.0, 72.0, Plain10(Left)) ];
    assert doc.ops == old(doc.ops) + fixed;
    var phone: seq<DrawOp> := if c.phone != "" then [Text(1, c.phone, 20.0, 77.0, Plain10(Left))] else [];
    if c.phone != "" {
      doc.AddText(c.phone, 20.0, 77.0, Plain10(Left));
    }
    assert doc.ops == old(doc.ops) + fixed + phone;
    var address: seq<DrawOp> := if c.address != "" then LinesOps(1, Split(c.address, '\n'), 20.0, 82.0, Plain10(Left)) else [];
    if c.address != "" {
      DrawLines(doc, Split(c.address, '\n'), 20.0, 82.0, Plain10(Left));
    }
    assert doc.ops == old(doc.ops) + fixed + phone + address;
    assert BillToOps(c) == fixed + phone + address;
  }

  /** Reference and payment method. */
  method DrawExtras(doc: Doc, t: Invoice)
    requires doc.page == 1
    modifies doc`ops
    ensures doc.ops == old(doc.ops) + ExtrasOps(t)
  {
    var reference: seq<DrawOp> :=
      if t.referenceNumber != "" then [Text(1, "Reference: " + t.referenceNumber, 190.0, 60.0, Plain10(Right))] else [];
    if t.referenceNumber != "" {
      doc.AddText("Reference: " + t.referenceNumber, 190.0, 60.0, Plain10(Right));
    }
    assert doc.ops == old(doc.ops) + reference;
    if t.paymentMethod != "" {
      doc.AddText("Payment Method: " + t.paymentMethod, 190.0, 65.0, Plain10(Right));
    }
  }

  /** Subtotal, the tax line (its `forEach` sum is the loop), total and status. */
  method DrawTotals(doc: Doc, t: Invoice, env: Env, finalY: real)
    modifies doc`ops
    ensures doc.ops == old(doc.ops) + TotalsOps(t, env, finalY, doc.page)
  {
    doc.AddText("Subtotal:", 150.0, finalY, Plain10(Right));
    doc.AddText("Rs. " + env.show(t.amount), 190.0, finalY, Plain10(Right));
    var afterSubtotal := doc.ops;
    var items := t.lineItems;
    var totalTax := 0.0;
    if |items| > 0 && !IsWeekly(t.id) {
      var i := 0;
      while i < |items|
        invariant 0 <= i <= |items|
        invariant totalTax == TaxSum(items[..i])
      {
        assert items[..i + 1][..i] == items[..i];
        totalTax := totalTax + ItemTax(items[i]);
        i := i + 1;
      }
      assert items[..|items|] == items;
      if totalTax > 0.0 {
        doc.AddText("Tax:", 150.0, finalY + 7.0, Plain10(Right));
        doc.AddText(env.show(totalTax), 190.0, finalY + 7.0, Plain10(Right));
      }
    }
    var afterTax := doc.ops;
    doc.AddText("Total:", 150.0, finalY + 15.0, BoldRight12);
    doc.AddText("Rs. " + env.show(t.amount), 190.0, finalY + 15.0, BoldRight12);
    doc.AddText("Status: " + Upper(t.status), 190.0, finalY + 25.0, TextStyle(12, true, StatusColor(t.status), Right));
    assert afterTax == afterSubtotal + (if TaxShown(t) then
         [ Text(doc.page, "Tax:", 150.0, finalY + 7.0, Plain10(Right)),
           Text(doc.page, env.show(TaxSum(t.lineItems)), 190.0, finalY + 7.0, Plain10(Right)) ]
       else []);
  }

  /** "Notes:" and the wrapped note lines. */
  method DrawNotes(doc: Doc, notes: string, env: Env, finalY: real)
    modifies doc`ops
    ensures doc.ops == old(doc.ops) + NotesOps(notes, env, finalY, doc.page)
  {
    if notes != "" {
      var notesY := finalY + 35.0;
      doc.AddText("Notes:", 20.0, notesY, Bold11);
      DrawLines(doc, env.wrap(notes), 20.0, notesY + 7.0, Plain10(Left));
    }
  }

  /** The footer loop over pages 1 to `pageCount`. */
  method DrawFooters(doc: Doc, today: string)
    requires doc.Valid()
    modifies doc`ops, doc`page
    ensures doc.Valid() && doc.pageCount == old(doc.pageCount)
    ensures doc.ops == old(doc.ops) + FootersUpTo(doc.pageCount, doc.pageCount, today)
  {
    var pageCount := doc.pageCount;
    var i := 1;
    while i <= pageCount
      invariant 1 <= i <= pageCount + 1
      invariant doc.Valid() && doc.pageCount == pageCount
      invariant doc.ops == old(doc.ops) + FootersUpTo(i - 1, pageCount, today)
    {
      doc.SetPage(i);
      doc.AddText(PageLabel(i, pageCount), 190.0, 287.0, Small8Right);
      doc.AddText("Thank you for your business!", 105.0, 280.0, Plain10(Center));
      doc.AddText("Generated on " + today, 105.0, 285.0, Small8Center);
      i := i + 1;
    }
  }

  /** The header blocks of page 1. */
  method DrawHeader(doc: Doc, t: Invoice, c: ClientInfo)
    requires doc.page == 1
    modifies doc`ops
    ensures doc.ops == old(doc.ops) + HeaderOps(t, c)
  {
    DrawCompany(doc);
    DrawTitle(doc, t);
    DrawBillTo(doc, c);
    DrawExtras(doc, t);
  }

  /** Everything after the table, on the page the table ended on, then the footers. */
  method DrawBelowTable(doc: Doc, t: Invoice, env: Env, finalY: real)
    requires doc.Valid() && doc.page == doc.pageCount
    modifies doc`ops, doc`page
    ensures doc.Valid() && doc.pageCount == old(doc.pageCount)
    ensures doc.ops == old(doc.ops) + BelowOps(t, env, finalY, doc.pageCount)
  {
    DrawTotals(doc, t, env, finalY);
    DrawNotes(doc, t.notes, env, finalY);
    DrawFooters(doc, env.today);
  }

  /** The document drawn when `autoTable` succeeds, ending at `endY` after adding
      `addedPages` pages. */
  method DrawInvoice(t: Invoice, c: ClientInfo, env: Env, endY: real, addedPages: nat)
    returns (ops: seq<DrawOp>)
    ensures ops == InvoiceOps(t, c, env, endY, addedPages)
  {
    var doc := new Doc();
    DrawHeader(doc, t, c);
    assert doc.ops == HeaderOps(t, c);
    var body := TableBody(t, env);
    if |body| == 0 {
      assert false;
    }
    doc.DrawTable(TableHeaders(t.id), body, TableStartY, addedPages);
    assert doc.ops == HeaderOps(t, c) + [Table(1, TableHeaders(t.id), body, TableStartY)];
    DrawBelowTable(doc, t, env, endY + 10.0);
    ops := doc.ops;
  }

  /** `generateInvoicePDF`: draws the invoice into a new document step by step;
      the result is exactly `InvoiceResult`: every block in order when the table
      could be drawn, and otherwise the wrapped table error. */
  method GenerateInvoice(t: Invoice, c: ClientInfo, env: Env) returns (r: Result<seq<DrawOp>, string>)
    ensures r == InvoiceResult(t, c, env)
  {
    match env.table {
      case TableUnavailable =>
        r := Failure(Wrapped(TableMissing));
      case TableThrew(message, asString) =>
        r := Failure(Wrapped(TablePrefix + ErrorText(message, asString)));
      case TableDrawn(endY, addedPages) =>
        var ops := DrawInvoice(t, c, env, endY, addedPages);
        r := Success(ops);
    }
  }

  /** Weekly invoices are those whose id begins with "WEEK-": they get the weekly
      title and columns, and never the tax line, even with taxed items. */
  lemma WeeklyLayout(t: Invoice, env: Env, finalY: real, page: nat)
    requires IsWeekly(t.id)
    ensures InvoiceTitle(t.id) == "WEEKLY INVOICE"
    ensures TableHeaders(t.id) == ["Transaction ID", "Date", "Description", "Status", "Amount"]
    ensures !TaxShown(t)
    ensures |TotalsOps(t, env, finalY, page)| == 5
  {
  }

  /** The tax lines are drawn exactly when the invoice is not weekly, has items
      and their tax adds up to more than zero; then they show that sum 7 below
      the subtotal. */
  lemma TaxLineIff(t: Invoice, env: Env, finalY: real, page: nat)
    ensures |TotalsOps(t, env, finalY, page)| == (if TaxShown(t) then 7 else 5)
    ensures (TotalsOps(t, env, finalY, page)[2].text == "Tax:") <==> TaxShown(t)
    ensures TaxShown(t) ==>
      && TotalsOps(t, env, finalY, page)[2] == Text(page, "Tax:", 150.0, finalY + 7.0, Plain10(Right))
      && TotalsOps(t, env, finalY, page)[3] == Text(page, env.show(TaxSum(t.lineItems)), 190.0, finalY + 7.0, Plain10(Right))
  {
  }

  /** Subtotal and total both print the transaction amount as given, whatever the
      items and their tax; the total is 15 below the subtotal and the status 25. */
  lemma TotalsVerbatim(t: Invoice, env: Env, finalY: real, page: nat)
    ensures var ops := TotalsOps(t, env, finalY, page);
      && ops[1] == Text(page, "Rs. " + env.show(t.amount), 190.0, finalY, Plain10(Right))
      && ops[|ops| - 2] == Text(page, "Rs. " + env.show(t.amount), 190.0, finalY + 15.0, BoldRight12)
      && ops[|ops| - 3].y == finalY + 15.0
      && ops[|ops| - 1] == StatusOp(page, t.status, finalY + 25.0)
  {
  }

  /** The status line at the top and the one under the totals read the same and
      share the status colour. */
  lemma StatusLinesAgree(t: Invoice, env: Env, finalY: real, page: nat)
    ensures var top := TitleOps(t)[2];
      var bottom := TotalsOps(t, env, finalY, page)[|TotalsOps(t, env, finalY, page)| - 1];
      && top.text == bottom.text == "Status: " + Upper(t.status)
      && top.style.color == bottom.style.color == StatusColor(t.status)
  {
  }

  /** Address line `i` sits at 82 + 5 i; with notes, "Notes:" sits 35 below
      `finalY` and note line `i` at 42 + 5 i below it. */
  lemma BlockOffsets(c: ClientInfo, notes: string, env: Env, finalY: real, page: nat)
    ensures c.address != "" ==>
      var lines := Split(c.address, '\n');
      forall i :: 0 <= i < |lines| ==>
        BillToOps(c)[|BillToOps(c)| - |lines| + i] == Text(1, lines[i], 20.0, 82.0 + 5.0 * i as real, Plain10(Left))
    ensures notes != "" ==>
      var lines := env.wrap(notes);
      && NotesOps(notes, env, finalY, page)[0] == Text(page, "Notes:", 20.0, finalY + 35.0, Bold11)
      && forall i :: 0 <= i < |lines| ==>
           NotesOps(notes, env, finalY, page)[1 + i] == Text(page, lines[i], 20.0, finalY + 42.0 + 5.0 * i as real, Plain10(Left))
  {
    if c.address != "" {
      var lines := Split(c.address, '\n');
      LinesOpsAt(1, lines, 20.0, 82.0, Plain10(Left));
      var fixed := BillToOps(c)[..|BillToOps(c)| - |lines|];
      assert BillToOps(c) == fixed + LinesOps(1, lines, 20.0, 82.0, Plain10(Left));
    }
    if notes != "" {
      LinesOpsAt(page, env.wrap(notes), 20.0, finalY + 42.0, Plain10(Left));
    }
  }

  /** An invoice without line items is drawn with the one fallback row; since the
      table always has a row, the "No line items" text is never drawn. */
  lemma EmptyInvoiceUsesFallback(t: Invoice, env: Env)
    requires t.lineItems == []
    ensures TableBody(t, env) == [[t.description, "1", "Rs. " + env.show(t.amount), "0%", "Rs. " + env.show(t.amount)]]
  {
  }

  /** A design invoice of 2 × 400 at 10 % tax: the tax line shows 80, the total
      line the amount as given, and the status line is green. */
  lemma {:induction false} TaxedInvoiceExample(env: Env, finalY: real, page: nat)
    ensures var item := LineItem("Design", "", "", "", "paid", 2.0, 400.0, 10.0, 880.0);
      var t := Invoice("INV-1001", "paid", "", "", "", 1000.0, "", "", "", [item]);
      && TaxSum(t.lineItems) == 80.0
      && |TotalsOps(t, env, finalY, page)| == 7
      && TotalsOps(t, env, finalY, page)[3].text == env.show(80.0)
      && TotalsOps(t, env, finalY, page)[5].text == "Rs. " + env.show(1000.0)
      && TotalsOps(t, env, finalY, page)[6].style.color == "#22c55e"
  {
    var item := LineItem("Design", "", "", "", "paid", 2.0, 400.0, 10.0, 880.0);
    var t := Invoice("INV-1001", "paid", "", "", "", 1000.0, "", "", "", [item]);
    assert [item][..0] == [];
    assert TaxSum(t.lineItems) == 80.0;
    assert !IsWeekly(t.id) by {
      assert t.id[..5] != "WEEK-" by { assert t.id[0] == 'I'; }
    }
  }
}
