/** The invoice service: creating customers and invoices in the store,
    looking them up, and turning an invoice into its document. The uuid and
    the clock are parameters: each call receives the values they produced. */
module Service {
  import opened Wrappers
  import opened Entities
  import opened Text
  import opened Database
  import opened Pdf

  /** One entry of the `items` argument of create_invoice. */
  datatype LineItem = LineItem(description: string, quantity: int, unitPrice: Cents)

  /** The InvoiceItem built from an entry, with calculate_total applied. Its
      invoice_id is a placeholder until the row is stored with its invoice. */
  function Priced(line: LineItem): Item
  {
    CalculateItemTotal(Item(0, line.description, line.quantity, line.unitPrice, 0))
  }

  function PricedItems(lines: seq<LineItem>): (items: seq<Item>)
    ensures |items| == |lines|
    ensures forall k | 0 <= k < |lines| ::
      items[k] == Item(0, lines[k].description, lines[k].quantity, lines[k].unitPrice, lines[k].quantity * lines[k].unitPrice)
  {
    seq(|lines|, k requires 0 <= k < |lines| => Priced(lines[k]))
  }

  /** The amount an invoice for these entries comes to: the sum over the
      entries of quantity times unit price. */
  function LinesTotal(lines: seq<LineItem>): Cents
  {
    if lines == [] then 0 else lines[0].quantity * lines[0].unitPrice + LinesTotal(lines[1..])
  }

  /** The priced items add up to the entries' amount. */
  lemma {:induction false} PricedTotal(lines: seq<LineItem>)
    ensures SumTotals(PricedItems(lines)) == LinesTotal(lines)
  {
    if lines != [] {
      assert PricedItems(lines)[1..] == PricedItems(lines[1..]);
      PricedTotal(lines[1..]);
    }
  }

  /** "INV-" and the first eight hex digits of the uuid, upper-cased. */
  function InvoiceNumber(uuid: nat): (n: string)
    ensures |n| == 12 && n[..4] == "INV-"
  {
    "INV-" + Upper(LowerHex(uuid, 32)[..8])
  }

  /** An invoice number is "INV-" and eight upper-case hex digits, which
      spell the top 32 bits of the 128-bit uuid. */
  lemma InvoiceNumberForm(uuid: nat)
    ensures var n := InvoiceNumber(uuid);
      && |n| == 12 && n[..4] == "INV-" && AllUpperHex(n[4..])
      && ParseHex(n[4..]) == uuid / Pow16(24) % Pow16(8)
  {
    HexPrefixValue(uuid, 32, 8);
    var n := InvoiceNumber(uuid);
    assert n[4..] == Upper(LowerHex(uuid, 32)[..8]);
  }

  /** Two uuids give the same invoice number exactly when their top 32 bits agree. */
  lemma InvoiceNumberCollision(u: nat, v: nat)
    ensures InvoiceNumber(u) == InvoiceNumber(v) <==> u / Pow16(24) % Pow16(8) == v / Pow16(24) % Pow16(8)
  {
    if InvoiceNumber(u) == InvoiceNumber(v) {
      InvoiceNumberForm(u);
      InvoiceNumberForm(v);
      assert InvoiceNumber(u)[4..] == InvoiceNumber(v)[4..];
    } else {
      SameTopBitsSameNumber(u, v);
    }
  }

  lemma SameTopBitsSameNumber(u: nat, v: nat)
    ensures u / Pow16(24) % Pow16(8) == v / Pow16(24) % Pow16(8) ==> InvoiceNumber(u) == InvoiceNumber(v)
  {
    if u / Pow16(24) % Pow16(8) == v / Pow16(24) % Pow16(8) {
      HexPrefixDigits(u, v, 32, 8);
    }
  }

  /** The invoice create_invoice builds: number, customer, the first clock
      reading as its date, the second one 30 days on as its due date,
      status draft and the entries' total. */
  function NewInvoice(uuid: nat, customerId: Id, today: Day, todayAgain: Day, lines: seq<LineItem>): (inv: Invoice)
    ensures inv.number == InvoiceNumber(uuid) && inv.customerId == customerId
    ensures inv.status == Draft && inv.items == []
    ensures inv.totalAmount == SumTotals(PricedItems(lines))
  {
    PricedTotal(lines);
    Invoice(InvoiceNumber(uuid), today, todayAgain + InvoiceDueDays, customerId, LinesTotal(lines), Draft, None, [])
  }

  /** The file name generate_pdf writes to: "invoice_" + number + ".pdf". */
  function PdfFilename(number: string): (f: string)
    ensures |f| == |number| + 12 && f[..8] == "invoice_" && f[|f| - 4..] == ".pdf"
    ensures f[8..|f| - 4] == number
  {
    "invoice_" + number + ".pdf"
  }

  /** What generate_pdf produces: the file name and the document written to it. */
  datatype Rendered = Rendered(filename: string, elements: seq<Element>)

  class InvoiceGenerator {
    /** The store every session opens onto. */
    const db: Db

    constructor (db: Db)
      ensures this.db == db
    {
      this.db := db;
    }

    /** create_customer: a name is required; a non-empty email some customer
        already holds is refused; otherwise the row is inserted, where the
        unique constraint still refuses an empty email already held. */
    method CreateCustomer(name: Option<string>, email: Option<string>, address: Option<string>, phone: Option<string>)
      returns (r: Result<Id>)
      requires db.Valid()
      modifies db
      ensures db.Valid()
      ensures (name == None || name == Some("")) <==> r == Err(NameRequired)
      ensures name.Some? && name.value != "" && email.Some? && email.value != "" && EmailTaken(old(db.customers), email.value) ==>
        r == Err(EmailExists)
      ensures name.Some? && name.value != "" && email == Some("") && EmailTaken(old(db.customers), "") ==>
        r == Err(UniqueViolation("customers.email"))
      ensures r.Ok? <==> name.Some? && name.value != "" && !(email.Some? && EmailTaken(old(db.customers), email.value))
      ensures r.Err? ==> db.State() == old(db.State())
      ensures r.Ok? ==> r.value !in old(db.customers)
      ensures r.Ok? ==> db.State() == AddCustomer(old(db.State()), r.value, Customer(name.value, email, address, phone, db.loadDay))
    {
      if name == None || name == Some("") {
        return Err(NameRequired);
      }
      if email.Some? && email.value != "" && EmailTaken(db.customers, email.value) {
        return Err(EmailExists);
      }
      r := db.InsertCustomer(name.value, email, address, phone);
    }

    /** create_invoice: the customer must exist; the invoice gets its number
        from the uuid and its dates from the two clock readings; the items
        are priced one by one in order while the total accumulates; then
        invoice and items are committed together, which the unique number
        constraint can refuse. */
    method CreateInvoice(customerId: Id, lines: seq<LineItem>, uuid: nat, today: Day, todayAgain: Day)
      returns (r: Result<Id>)
      requires db.Valid()
      requires ValidDay(today) && ValidDay(todayAgain)
      modifies db
      ensures db.Valid()
      ensures customerId !in old(db.customers) ==> r == Err(CustomerNotFound)
      ensures customerId in old(db.customers) && todayAgain + InvoiceDueDays > MaxOrdinal ==> r == Err(DateOutOfRange)
      ensures (customerId in old(db.customers) && todayAgain + InvoiceDueDays <= MaxOrdinal &&
               NumberTaken(old(db.invoices), InvoiceNumber(uuid))) ==>
        r == Err(UniqueViolation("invoices.invoice_number"))
      ensures r.Ok? <==> (customerId in old(db.customers) && todayAgain + InvoiceDueDays <= MaxOrdinal &&
                          !NumberTaken(old(db.invoices), InvoiceNumber(uuid)))
      ensures r.Err? ==> db.State() == old(db.State())
      ensures r.Ok? ==> r.value !in old(db.invoices)
      ensures r.Ok? ==> (db.State() ==
        AddInvoice(old(db.State()), r.value, NewInvoice(uuid, customerId, today, todayAgain, lines), old(db.nextItemId), PricedItems(lines)))
      ensures r.Ok? ==> forall j | j in old(db.invoices) :: old(db.invoices)[j].number != db.invoices[r.value].number
    {
      if customerId !in db.customers {
        return Err(CustomerNotFound);
      }
      var number := InvoiceNumber(uuid);
      if todayAgain + InvoiceDueDays > MaxOrdinal {
        return Err(DateOutOfRange);
      }
      var invoice := Invoice(number, today, todayAgain + InvoiceDueDays, customerId, 0, Draft, None, []);

      var rows: seq<Item> := [];
      var totalAmount: Cents := 0;
      for i := 0 to |lines|
        modifies {}
        invariant rows == PricedItems(lines[..i])
        invariant totalAmount == SumTotals(rows)
      {
        var item := Item(0, lines[i].description, lines[i].quantity, lines[i].unitPrice, 0);
        item := CalculateItemTotal(item);
        SumTotalsAppend(rows, item);
        totalAmount := totalAmount + item.total;
        rows := rows + [item];
        assert PricedItems(lines[..i + 1]) == PricedItems(lines[..i]) + [Priced(lines[i])];
      }
      assert lines[..|lines|] == lines;
      PricedTotal(lines);
      invoice := invoice.(totalAmount := totalAmount);
      assert invoice == NewInvoice(uuid, customerId, today, todayAgain, lines);

      r := db.InsertInvoice(invoice, rows);
    }

    /** get_invoice: the stored invoice, or "Invoice not found". */
    method GetInvoice(invoiceId: Id) returns (r: Result<Invoice>)
      ensures invoiceId in db.invoices ==> r == Ok(db.invoices[invoiceId])
      ensures invoiceId !in db.invoices ==> r == Err(InvoiceNotFound)
    {
      if invoiceId !in db.invoices {
        return Err(InvoiceNotFound);
      }
      return Ok(db.invoices[invoiceId]);
    }

    /** get_customer: the stored customer, or "Customer not found". */
    method GetCustomer(customerId: Id) returns (r: Result<Customer>)
      ensures customerId in db.customers ==> r == Ok(db.customers[customerId])
      ensures customerId !in db.customers ==> r == Err(CustomerNotFound)
    {
      if customerId !in db.customers {
        return Err(CustomerNotFound);
      }
      return Ok(db.customers[customerId]);
    }

    /** generate_pdf: the invoice's document under its file name, built from
        the invoice, its customer and its items in stored order. */
    method GeneratePdf(invoiceId: Id) returns (r: Result<Rendered>)
      requires db.Valid()
      ensures invoiceId !in db.invoices <==> r == Err(InvoiceNotFound)
      ensures invoiceId in db.invoices <==> r.Ok?
      ensures r.Ok? ==> var inv := db.invoices[invoiceId];
        && inv.customerId in db.customers
        && AllStored(inv.items, db.items)
        && ValidDay(inv.date) && ValidDay(inv.dueDate)
        && r.value.filename == PdfFilename(inv.number)
        && r.value.elements == Document(inv, db.customers[inv.customerId], Resolve(inv.items, db.items))
    {
      if invoiceId !in db.invoices {
        return Err(InvoiceNotFound);
      }
      var invoice := db.invoices[invoiceId];
      var filename := PdfFilename(invoice.number);
      var generator := new PdfGenerator(filename);
      var elements := generator.GenerateInvoice(invoice, db.customers[invoice.customerId], Resolve(invoice.items, db.items));
      return Ok(Rendered(filename, elements));
    }
  }
}
