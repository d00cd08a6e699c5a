# Invoice generator — a verified model

This project models the core of a small invoice generator. The generator
keeps customers, invoices and invoice items in a relational store. It creates
customers and invoices, looks them up, and lays out an invoice as a document.

The project has five modules:

- `Entities` (`entities.dfy`) holds the three record types: `Customer`,
  `Invoice` and `Item`. It also holds the domain errors and the two derived
  totals. Money is held in integer cents and dates as day ordinals.
- `Database` (`database.dfy`) models the store. The pure value `Tables` is
  three maps from row id to row. The invariant `Consistent` covers:
  - item totals: `total == quantity * unit_price`;
  - invoice totals: `total_amount` is the sum of the invoice's item totals;
  - invoice numbers are unique;
  - non-null emails are unique;
  - both foreign keys hold;
  - each invoice's `items` relationship lists exactly the item rows that
    point at it.

  Insert and cascade-delete are functions on `Tables`, with lemmas that they
  keep the invariant. The class `Db` holds the same maps as fields. Its
  methods change them in place and are proved against those functions.
- `Text` (`text.dfy`) models the Python formatting the core depends on:
  `str()` of an integer, the `.2f` format of an amount, `uuid.hex` with
  `upper()`, and `str()` of a date (Python's `date.fromordinal` and
  `"%04d-%02d-%02d"`). Each printer that the document or the invoice number
  uses has a parser, with a round-trip lemma. The date parser reads back
  what `IsoDate` writes, as an ordinal. Unlike `date.fromisoformat`, it also
  accepts a year of five or more digits.
- `Pdf` (`pdf_generator.dfy`) models `PDFGenerator.generate_invoice` as the
  list of flowables it builds. That list is the company header, the invoice
  block, the bill-to block and the items table. The method appends the
  flowables in the source's order and builds the table rows in a loop. It is
  proved equal to the specification function `Document`.
- `Service` (`invoice_generator.dfy`) models the class `InvoiceGenerator`
  over a `Db`. The random uuid and the two clock readings of
  `create_invoice` are parameters.

Decisions where the code, its comments and its apparent intent differ:

- **No quantity or price checks.** `create_invoice` does not check that
  quantities or prices are positive. The model accepts any integers, as the
  code does.
- **Number collisions.** The invoice number comes from a uuid, with no retry.
  If two invoices get the same number, the store's unique constraint rejects
  the second when it is committed. The model returns that error and leaves
  the store unchanged.
- **Two clock readings.** `create_invoice` reads the clock twice. The date
  comes from the first reading, and the due date is the second reading plus
  30 days. If the due date would fall after 9999-12-31, Python raises an
  overflow error before any item is built. The model returns `DateOutOfRange`.
- **`created_at` is fixed at import.** The default for `customers.created_at`
  is computed once, when the module is imported. The model keeps it as
  `Db.loadDay`.
- **Empty email.** The pre-check `if email` skips an empty email. The unique
  constraint still rejects a second `""`, so `create_customer` then fails
  with the storage engine's error.
- **Missing imports.** `invoice_generator.py` and `pdf_generator.py` use
  names they do not import (`logging`, `uuid`, `datetime`, `timedelta`,
  `Session`, the entity classes, `PDFGenerator`, `getSampleStyleSheet`,
  `inch`). The model assumes
  each name means what it evidently stands for.
- **Error texts.** The errors are the constructors of `Entities.Error`.
  `Entities.Message` gives the text each one carries in the source, such as
  "Customer name is required" for `NameRequired`.
- **Table width.** The table's columns add up to 7.4 inches, but a letter page
  with one-inch margins is 6.5 inches wide. `TableWiderThanFrame` states this;
  the model still lays out the table as the code does.

## Model

| member | source | states |
|---|---|---|
| Entities.CalculateItemTotal | database.py:91-93 | `InvoiceItem.calculate_total`: the result is totalled (`total == quantity * unit_price`), and every other field is unchanged |
| Entities.SumTotalsAppend | database.py:72-74 | `sum(item.total for item in items)` over a list with one item appended adds that item's total |
| Entities.SumTotalsSameTotals | database.py:72-74 | the sum of the totals depends only on the totals, position by position |
| Database.Resolve | database.py:67 | the `items` relationship resolves to one row per listed id, in the same order |
| Database.EmptyConsistent | database.py:40-86 | the empty tables satisfy every declared constraint and the derived-total rules |
| Database.AddCustomerConsistent | database.py:40-49 | adding a customer under a new id keeps the tables consistent if and only if its email is null or held by no other customer (the unique constraint on `email`) |
| Database.AddCustomer | invoice_generator.py:21-24 | committing a new customer adds exactly that row under its id; every other customer, every invoice and every item is unchanged |
| Database.AddInvoiceShape | invoice_generator.py:44-67 | committing an invoice with its items leaves the customers and every other invoice unchanged; the new invoice is stored as built except for its item list, which names consecutive fresh ids; the item table gains exactly those ids |
| Database.LinkRowsKeys | database.py:67-80 | the new item rows are stored exactly under the consecutive fresh ids, and each points at the new invoice |
| Database.AddInvoiceResolves | database.py:67 | after an insert, the invoice's items resolve to the given rows, in the given order, each pointing at the invoice |
| Database.AddInvoiceTotals | database.py:72-74 | after an insert, every invoice's total is still the sum of its items' totals, for the new invoice and for every old one |
| Database.AddInvoiceLinked | database.py:61-80 | after an insert, every invoice lists exactly its own item rows, and every item row points at a stored invoice |
| Database.AddInvoiceRowsTotalled | database.py:91-93 | after an insert of totalled rows, every stored item is totalled |
| Database.AddInvoiceKeys | database.py:45-61 | an insert with a free number and an existing customer keeps numbers unique, emails unique and the customer foreign key |
| Database.AddInvoiceConsistent | database.py:54-86 | an invoice whose rows are totalled, whose total is their sum, whose number is free and whose customer exists keeps the tables consistent |
| Database.AddInvoiceKeepsRows | database.py:67-80 | an insert leaves every earlier invoice, and the rows it resolves to, unchanged |
| Database.AddInvoiceStoreValid | database.py:54-86 | an insert under the next ids keeps the store's invariant, with the counters moved past the new ids |
| Database.AddInvoiceBounds | database.py:57-79 | an insert keeps every date valid and every id below the next id its table hands out |
| Database.ShrunkBounds | database.py:49-67 | deleting rows keeps every date valid and every id below the next id |
| Database.SurvivorsResolve | database.py:67-80 | after a cascade, a surviving invoice still resolves to the same item rows |
| Database.SurvivorsLinked | database.py:67-80 | after a cascade, the links between invoices and items still hold |
| Database.SurvivorsTotalled | database.py:72-74 | after a cascade, every surviving invoice's total is still the sum of its items' totals |
| Database.SurvivorsIntact | database.py:40-86 | removing rows so that no survivor refers to a removed row keeps the tables consistent |
| Database.CascadeInvoice | database.py:67-80 | after deleting an invoice, it is gone, the customers are unchanged, and no remaining item points at it |
| Database.CascadeCustomer | database.py:49-80 | after deleting a customer, it is gone, no remaining invoice belongs to it, and every remaining item that pointed at a stored invoice still does |
| Database.CascadeInvoiceConsistent | database.py:67-80 | deleting an invoice keeps the tables consistent and removes exactly that invoice, keeping every other one; no remaining item points at it, and the removed item rows are exactly those it listed |
| Database.CascadeInvoiceShrinks | database.py:67-80 | after deleting an invoice, the rows that remain are unchanged, and an item survives exactly when its invoice does |
| Database.CascadeInvoiceRemoves | database.py:67-80 | the item ids the cascade removes are exactly the ids the invoice lists |
| Database.CascadeCustomerConsistent | database.py:49-80 | deleting a customer keeps the tables consistent and removes exactly that customer; it removes every invoice of that customer and keeps every other invoice; no remaining item belongs to one of that customer's invoices |
| Database.CascadeCustomerShrinks | database.py:49-61 | after deleting a customer, the rows that remain are unchanged, and an item survives exactly when its invoice does |
| Database.RecalculateTotal | database.py:72-74 | `Invoice.calculate_total`: the invoice's total becomes the sum of its items' totals, and no other field or row changes |
| Database.RecalculateTotalUnchanged | database.py:72-74 | on consistent tables, recalculating a stored invoice's total changes nothing |
| Database.Db.constructor | database.py:40-86 | the store starts empty and consistent |
| Database.Db.InsertCustomer | database.py:40-49 | on a taken email: the unique-constraint error, and the store is unchanged; otherwise one customer is added under a fresh id, with `created_at` set to the import day; the invariant is kept |
| Database.Db.InsertInvoice | database.py:54-86 | a taken number gives the unique-constraint error, and a missing customer gives the foreign-key error; in both cases nothing is written; otherwise the invoice and its rows are committed together; the invariant is kept |
| Database.Db.DeleteInvoice | database.py:67-80 | the new state is the invoice cascade of the old one, and the invariant is kept |
| Database.Db.DeleteCustomer | database.py:49-80 | the new state is the customer cascade of the old one, and the invariant is kept |
| Database.Db.CalculateTotal | database.py:72-74 | `Invoice.calculate_total` on a stored invoice assigns the sum of its items' totals, which leaves the state unchanged |
| Database.Db.CalculateItemTotal | database.py:91-93 | `InvoiceItem.calculate_total` on a stored item assigns `quantity * unit_price`, which leaves the state unchanged |
| Text.NatToStringRoundTrip | pdf_generator.py:51 | `str()` of a natural number is a non-empty digit string that reads back as the number, with a leading zero only for zero |
| Text.IntToStringRoundTrip | pdf_generator.py:51 | `str()` of the quantity reads back as the quantity, for negative values too |
| Text.MoneyRoundTrip | pdf_generator.py:52-58 | the `.2f` text of an amount in cents reads back as the same amount |
| Text.MonthDay | pdf_generator.py:32-35 | the month and day of day n (from 0) of a year, as `date.fromordinal` finds them, form a real date of that year, and n is the number of days before it in the year |
| Text.OrdinalToDateRoundTrip | pdf_generator.py:32-35 | `date.fromordinal` yields a real calendar date (month 1 to 12, day within the month's length, February 29th only in leap years), and `toordinal` of that date gives back the ordinal |
| Text.DateTextReadBack | pdf_generator.py:32-35 | the `"%04d-%02d-%02d"` text of a real date reads back as that date's ordinal |
| Text.IsoDateRoundTrip | pdf_generator.py:32-35 | `str(date)` of any ordinal reads back as that ordinal, so the "Date:" and "Due Date:" lines lose nothing |
| Text.UpperHexRoundTrip | invoice_generator.py:41 | upper-cased `uuid.hex` digits are upper-case hex and read back as the value modulo 16^width |
| Text.LowerHexPrefix | invoice_generator.py:41 | `hex[:k]` is the hex of the value without its last width − k digits |
| Text.LowerHexMod | invoice_generator.py:41 | only the last `width` hex digits of a value show |
| Text.HexPrefixValue | invoice_generator.py:41 | the upper-cased first k hex digits read back as the top digits of the value |
| Text.HexPrefixDigits | invoice_generator.py:41 | two values whose top digits agree have the same hex prefix |
| Pdf.ItemRow | pdf_generator.py:48-55 | an item's row has exactly as many cells as the header |
| Pdf.TotalRow | pdf_generator.py:58 | the total row has exactly as many cells as the header |
| Pdf.ItemsTable | pdf_generator.py:46-60 | `items_data` has `len(items) + 2` rows of 4 cells each, matching the 4 column widths; the first row is the header, row k+1 is item k in stored order, and the last row is the total |
| Pdf.ItemRowsSnoc | pdf_generator.py:47-55 | appending one item's row in the loop extends the rows by exactly that row |
| Pdf.ItemRowReadBack | pdf_generator.py:48-55 | an item's row reads back as its description, quantity, unit price and total |
| Pdf.TableReadBack | pdf_generator.py:46-58 | the table loses nothing: each item row reads back as its item, in stored order, and the last row reads back as the invoice total |
| Pdf.Document | pdf_generator.py:19-60 | the document has fourteen flowables; it begins with the fixed company header and ends with the items table |
| Pdf.DocumentLayout | pdf_generator.py:19-80 | the flowable order: the fixed company header, then "Invoice #" + number, "Date: " and "Due Date: " with the two dates, a spacer, then "Bill To:", name, address and email, a spacer, then the items table; the table reads back as the items and the total |
| Pdf.TableWiderThanFrame | pdf_generator.py:60 | the column widths add up to more than the frame between the page margins |
| Pdf.PdfGenerator.constructor | pdf_generator.py:7-8 | the generator keeps its file name |
| Pdf.PdfGenerator.GenerateInvoice | pdf_generator.py:19-80 | appending block by block and row by row yields exactly `Document(invoice, customer, items)`; invoice and customer are values and are not modified |
| Service.PricedItems | invoice_generator.py:54-62 | one item per input entry, in input order; item k carries entry k's description, quantity and unit price, and its total is quantity × unit price |
| Service.PricedTotal | invoice_generator.py:53-64 | the accumulated total equals the sum over the entries of quantity times unit price |
| Service.InvoiceNumber | invoice_generator.py:41 | an invoice number is twelve characters long and begins with "INV-" |
| Service.InvoiceNumberForm | invoice_generator.py:41 | an invoice number is "INV-" followed by eight upper-case hex digits, which spell the top 32 bits of the 128-bit uuid |
| Service.InvoiceNumberCollision | invoice_generator.py:41 | two uuids give the same number if and only if their top 32 bits agree |
| Service.SameTopBitsSameNumber | invoice_generator.py:41 | uuids that agree in their top 32 bits give the same number |
| Service.NewInvoice | invoice_generator.py:44-64 | the invoice `create_invoice` builds has the number from the uuid, the given customer, status draft and no items yet; its total is the sum of the totals of the priced entries |
| Service.PdfFilename | invoice_generator.py:104 | the file name is "invoice_" + number + ".pdf", twelve characters longer than the number, and the number reads back out of it |
| Service.InvoiceGenerator.constructor | invoice_generator.py:9 | the service works on the given store |
| Service.InvoiceGenerator.CreateCustomer | invoice_generator.py:10-29 | a missing or empty name gives `NameRequired`; a taken non-empty email gives `EmailExists`; a taken empty email gives `UniqueViolation("customers.email")`; an error leaves the store unchanged; otherwise exactly one customer is added under a fresh id, with the given name, email, address and phone |
| Service.InvoiceGenerator.CreateInvoice | invoice_generator.py:31-72 | an unknown customer gives `CustomerNotFound`; a due date past the last date gives `DateOutOfRange`; a taken number gives `UniqueViolation("invoices.invoice_number")`; any error leaves the store unchanged; on success, the new invoice has number "INV-…" from the uuid, status draft, due date 30 days after the second clock reading, and total the sum of quantity × unit price; its items are the entries in order, each totalled; its number differs from every earlier invoice's; the invariant is kept |
| Service.InvoiceGenerator.GetInvoice | invoice_generator.py:74-83 | the stored invoice, or `InvoiceNotFound`; reads only |
| Service.InvoiceGenerator.GetCustomer | invoice_generator.py:85-94 | the stored customer, or `CustomerNotFound`; reads only |
| Service.InvoiceGenerator.GeneratePdf | invoice_generator.py:96-109 | an absent invoice gives `InvoiceNotFound`; otherwise the file name is "invoice_" + number + ".pdf", and the document is built from the invoice, its customer and its items in stored order; reads only |

## Left out

- Writing the PDF: `SimpleDocTemplate.build`, fonts, colours, alignment and
  page breaking (pdf_generator.py:9-17, 61-83). The model stops at the list
  of flowables.
- The SQLAlchemy session and the scoped session, thread safety, and
  `init_db` / `clear_database` / `cleanup_db`. The store is one in-memory
  value, and every call is one transaction.
- SQLite's id reuse: SQLite may hand out an id again after the row with the
  highest id is deleted. The model's ids come from counters that only go up.
  Only freshness is modelled.
- Floating point: amounts are exact integer cents. The model has no float
  rounding.
- Service.InvoiceGenerator.CreateInvoice: quantities are unbounded integers.
  A quantity outside the 64-bit range of SQLite's INTEGER column makes the
  source raise OverflowError. This happens either in `quantity * unit_price`,
  when the product cannot be converted to a float, or when `session.commit()`
  binds the value. The model commits such a quantity instead.
- Column lengths (`String(100)` and the like): SQLite does not enforce them,
  and neither does the model.
- Column defaults: `date`, `total_amount` 0.0 and `status` 'draft'.
  `create_invoice` sets all three itself, so no row in the model uses a
  default.
- Service.InvoiceGenerator.CreateInvoice: each entry is a typed `LineItem`. A
  dictionary with a missing key, or a null description (which the
  `nullable=False` column would reject), is not modelled.
- Service.InvoiceGenerator.CreateInvoice: the uuid and the clock readings are
  parameters. `requires ValidDay(...)` says only that the clock gives a real
  date.
- Pdf.Document: a null address or email becomes a paragraph whose text is
  `None`. What the layout engine does with such a paragraph is not modelled.
- Pdf.PdfGenerator.GenerateInvoice: the items come from the invoice's
  relationship in stored order. The model takes stored order to be the order
  in which the items were inserted.
- The other parts of the repository are not part of this model:
  - `main.py`: the interactive menu, with its own positivity checks on
    quantity and price;
  - `api.py`: the HTTP layer and its request validation;
  - `db_utils.py`: console dumps and raw SQL;
  - `config.py`: only the 30-day due period is used, as `InvoiceDueDays`.
