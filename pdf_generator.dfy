/** The invoice document: the list of flowables PDFGenerator.generate_invoice
    hands to the layout engine (a fixed company header, the invoice's number
    and dates, the bill-to block and the items table), as data. */
module Pdf {
  import opened Wrappers
  import opened Entities
  import opened Text

  datatype Style = Heading1 | Heading2 | Heading3 | Normal

  /** One flowable: a paragraph of text in a style (the text is whatever the
      record holds, so a NULL column gives None), vertical space, or a table
      of rows of cells with its column widths. */
  datatype Element =
    | Paragraph(text: Option<string>, style: Style)
    | Spacer(width: int, height: int)
    | Table(rows: seq<seq<string>>, colWidths: seq<int>)

  /** US letter in points, with the one-inch margins the document template sets. */
  const PageWidth: int := 612
  const Margin: int := 72

  /** The column widths 4, 1, 1.2 and 1.2 inches, in tenths of a point. */
  const ColumnWidths: seq<int> := [2880, 720, 864, 864]

  const HeaderRow: seq<string> := ["Description", "Quantity", "Unit Price", "Total"]

  /** One item as a table row: description, quantity, and the two amounts
      with a dollar sign and two decimals. */
  function ItemRow(it: Item): (row: seq<string>)
    ensures |row| == |HeaderRow|
  {
    [it.description, IntToString(it.quantity), "$" + Money(it.unitPrice), "$" + Money(it.total)]
  }

  function TotalRow(totalAmount: Cents): (row: seq<string>)
    ensures |row| == |HeaderRow|
  {
    ["", "", "Total:", "$" + Money(totalAmount)]
  }

  function ItemRows(items: seq<Item>): (rows: seq<seq<string>>)
    ensures |rows| == |items|
  {
    seq(|items|, k requires 0 <= k < |items| => ItemRow(items[k]))
  }

  lemma ItemRowsSnoc(items: seq<Item>, i: nat)
    requires i < |items|
    ensures ItemRows(items[..i + 1]) == ItemRows(items[..i]) + [ItemRow(items[i])]
  {
    assert items[..i + 1] == items[..i] + [items[i]];
  }

  /** items_data: the header row, one row per item in stored order, the total row. */
  function ItemsTable(items: seq<Item>, totalAmount: Cents): (rows: seq<seq<string>>)
    ensures |rows| == |items| + 2
    ensures forall k | 0 <= k < |rows| :: |rows[k]| == |ColumnWidths|
    ensures rows[0] == HeaderRow && rows[|rows| - 1] == TotalRow(totalAmount)
    ensures forall k | 0 <= k < |items| :: rows[k + 1] == ItemRow(items[k])
  {
    [HeaderRow] + ItemRows(items) + [TotalRow(totalAmount)]
  }

  /** The fixed company header. */
  const CompanyBlock: seq<Element> :=
    [Paragraph(Some("Your Company Name"), Heading1),
     Paragraph(Some("123 Business Street"), Normal),
     Paragraph(Some("Phone: (555) 555-5555"), Normal),
     Spacer(1, 20)]

  /** The invoice's number and its two dates. */
  function InvoiceBlock(inv: Invoice): seq<Element>
    requires ValidDay(inv.date) && ValidDay(inv.dueDate)
  {
    [Paragraph(Some("Invoice #" + inv.number), Heading2),
     Paragraph(Some("Date: " + IsoDate(inv.date)), Normal),
     Paragraph(Some("Due Date: " + IsoDate(inv.dueDate)), Normal),
     Spacer(1, 20)]
  }

  /** The bill-to block: the customer's name, address and email as stored. */
  function BillToBlock(c: Customer): seq<Element>
  {
    [Paragraph(Some("Bill To:"), Heading3),
     Paragraph(Some(c.name), Normal),
     Paragraph(c.address, Normal),
     Paragraph(c.email, Normal),
     Spacer(1, 20)]
  }

  /** The flowables of an invoice's document, in order: the company
      header, the invoice block, the bill-to block, the items table. */
  function Document(inv: Invoice, c: Customer, items: seq<Item>): (d: seq<Element>)
    requires ValidDay(inv.date) && ValidDay(inv.dueDate)
    ensures |d| == 14 && d[..4] == CompanyBlock && d[13].Table?
  {
    CompanyBlock + InvoiceBlock(inv) + BillToBlock(c) + [Table(ItemsTable(items, inv.totalAmount), ColumnWidths)]
  }

  /** Reads an item row back: description, quantity, unit price and total. */
  function ReadItemRow(row: seq<string>): Option<(string, int, Cents, Cents)>
  {
    if |row| == 4 && |row[2]| >= 1 && row[2][0] == '$' && |row[3]| >= 1 && row[3][0] == '$' then
      match (ParseInt(row[1]), ParseMoney(row[2][1..]), ParseMoney(row[3][1..]))
      case (Some(q), Some(p), Some(t)) => Some((row[0], q, p, t))
      case _ => None
    else None
  }

  /** Reads the amount back out of the total row. */
  function ReadTotalRow(row: seq<string>): Option<Cents>
  {
    if |row| == 4 && row[..3] == ["", "", "Total:"] && |row[3]| >= 1 && row[3][0] == '$'
    then ParseMoney(row[3][1..])
    else None
  }

  lemma ItemRowReadBack(it: Item)
    ensures ReadItemRow(ItemRow(it)) == Some((it.description, it.quantity, it.unitPrice, it.total))
  {
    var row := ItemRow(it);
    IntToStringRoundTrip(it.quantity);
    MoneyRoundTrip(it.unitPrice);
    MoneyRoundTrip(it.total);
    assert row[2][1..] == Money(it.unitPrice);
    assert row[3][1..] == Money(it.total);
  }

  /** The table loses nothing: every item row reads back as its item's
      description, quantity, unit price and total, in stored order, and the
      last row reads back as the invoice total. */
  lemma TableReadBack(items: seq<Item>, totalAmount: Cents)
    ensures var rows := ItemsTable(items, totalAmount);
      && (forall k | 0 <= k < |items| ::
            ReadItemRow(rows[k + 1]) == Some((items[k].description, items[k].quantity, items[k].unitPrice, items[k].total)))
      && ReadTotalRow(rows[|rows| - 1]) == Some(totalAmount)
  {
    forall k | 0 <= k < |items|
      ensures ReadItemRow(ItemRow(items[k])) == Some((items[k].description, items[k].quantity, items[k].unitPrice, items[k].total))
    {
      ItemRowReadBack(items[k]);
    }
    MoneyRoundTrip(totalAmount);
    var row := TotalRow(totalAmount);
    assert row[3][1..] == Money(totalAmount);
  }

  /** The document names the invoice and its customer where the layout puts
      them, and ends with the items table, which reads back as the items in
      stored order and the invoice total. */
  lemma DocumentLayout(inv: Invoice, c: Customer, items: seq<Item>)
    requires ValidDay(inv.date) && ValidDay(inv.dueDate)
    ensures var d := Document(inv, c, items);
      && |d| == 14
      && d[..4] == CompanyBlock
      && d[4] == Paragraph(Some("Invoice #" + inv.number), Heading2)
      && d[5] == Paragraph(Some("Date: " + IsoDate(inv.date)), Normal)
      && d[6] == Paragraph(Some("Due Date: " + IsoDate(inv.dueDate)), Normal)
      && d[7] == Spacer(1, 20)
      && d[8] == Paragraph(Some("Bill To:"), Heading3)
      && d[9] == Paragraph(Some(c.name), Normal)
      && d[10] == Paragraph(c.address, Normal)
      && d[11] == Paragraph(c.email, Normal)
      && d[12] == Spacer(1, 20)
      && d[13].Table? && d[13].colWidths == ColumnWidths
      && |d[13].rows| == |items| + 2
      && d[13].rows[0] == HeaderRow
      && (forall k | 0 <= k < |items| ::
            ReadItemRow(d[13].rows[k + 1]) == Some((items[k].description, items[k].quantity, items[k].unitPrice, items[k].total)))
      && ReadTotalRow(d[13].rows[|items| + 1]) == Some(inv.totalAmount)
  {
    var d := Document(inv, c, items);
    var head, bill := CompanyBlock + InvoiceBlock(inv), BillToBlock(c);
    assert |head| == 8 && |bill| == 5;
    assert d == head + bill + [Table(ItemsTable(items, inv.totalAmount), ColumnWidths)];
    assert d[..4] == head[..4] == CompanyBlock;
    assert d[4] == head[4] == InvoiceBlock(inv)[0];
    assert d[5] == head[5] && d[6] == head[6] && d[7] == head[7];
    assert d[8] == bill[0] && d[9] == bill[1] && d[10] == bill[2] && d[11] == bill[3] && d[12] == bill[4];
    TableReadBack(items, inv.totalAmount);
  }

  /** The table's column widths add up to 7.4 inches, wider than the 6.5
      inches between the margins of a letter page. */
  lemma TableWiderThanFrame()
    ensures ColumnWidths[0] + ColumnWidths[1] + ColumnWidths[2] + ColumnWidths[3] > 10 * (PageWidth - 2 * Margin)
  {
  }

  class PdfGenerator {
    const filename: string

    constructor (filename: string)
      ensures this.filename == filename
    {
      this.filename := filename;
    }

    /** Builds the flowables by appending, block after block, then the table
        rows one item at a time. Writing them out as PDF is left to the
        layout engine. */
    method GenerateInvoice(invoice: Invoice, customer: Customer, items: seq<Item>) returns (elements: seq<Element>)
      requires ValidDay(invoice.date) && ValidDay(invoice.dueDate)
      ensures elements == Document(invoice, customer, items)
    {
      elements := [];
      elements := elements + [Paragraph(Some("Your Company Name"), Heading1)];
      elements := elements + [Paragraph(Some("123 Business Street"), Normal)];
      elements := elements + [Paragraph(Some("Phone: (555) 555-5555"), Normal)];
      elements := elements + [Spacer(1, 20)];
      assert elements == CompanyBlock;

      var header := elements;
      elements := elements + [Paragraph(Some("Invoice #" + invoice.number), Heading2)];
      elements := elements + [Paragraph(Some("Date: " + IsoDate(invoice.date)), Normal)];
      elements := elements + [Paragraph(Some("Due Date: " + IsoDate(invoice.dueDate)), Normal)];
      elements := elements + [Spacer(1, 20)];
      assert elements == header + InvoiceBlock(invoice);
      assert elements == CompanyBlock + InvoiceBlock(invoice);

      header := elements;
      elements := elements + [Paragraph(Some("Bill To:"), Heading3)];
      elements := elements + [Paragraph(Some(customer.name), Normal)];
      elements := elements + [Paragraph(customer.address, Normal)];
      elements := elements + [Paragraph(customer.email, Normal)];
      elements := elements + [Spacer(1, 20)];
      assert elements == header + BillToBlock(customer);
      assert elements == CompanyBlock + InvoiceBlock(invoice) + BillToBlock(customer);

      var itemsData := [HeaderRow];
      for i := 0 to |items|
        invariant itemsData == [HeaderRow] + ItemRows(items[..i])
      {
        ItemRowsSnoc(items, i);
        itemsData := itemsData + [ItemRow(items[i])];
      }
      assert items[..|items|] == items;
      itemsData := itemsData + [TotalRow(invoice.totalAmount)];
      assert itemsData == ItemsTable(items, invoice.totalAmount);

      elements := elements + [Table(itemsData, ColumnWidths)];
    }
  }
}
