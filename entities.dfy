/** The three record types of the schema (customers, invoices, invoice_items),
    the errors the domain raises, and the two derived totals. Amounts are
    integer cents, dates are day ordinals, row ids are natural numbers. */
module Entities {
  import opened Wrappers

  type Id = nat

  /** The last day a date can hold: 9999-12-31. */
  const MaxOrdinal: int := 3652059

  /** A calendar day as a proleptic Gregorian ordinal: day 1 is 0001-01-01. */
  type Day = int

  /** The days a date value can hold: 0001-01-01 .. 9999-12-31. */
  predicate ValidDay(d: Day)
  {
    1 <= d <= MaxOrdinal
  }

  /** An amount of money in cents. */
  type Cents = int

  /** Days from an invoice's date to its due date. */
  const InvoiceDueDays: int := 30

  /** The four values the status column is declared to hold. */
  datatype Status = Draft | Sent | Paid | Cancelled

  /** A row of the customers table; the id is the key it is stored under. */
  datatype Customer = Customer(
    name: string,
    email: Option<string>,
    address: Option<string>,
    phone: Option<string>,
    createdAt: Day)

  /** A row of the invoices table, together with its `items` relationship:
      the ids of its invoice_items rows in the order they are stored. */
  datatype Invoice = Invoice(
    number: string,
    date: Day,
    dueDate: Day,
    customerId: Id,
    totalAmount: Cents,
    status: Status,
    notes: Option<string>,
    items: seq<Id>)

  /** A row of the invoice_items table. */
  datatype Item = Item(
    invoiceId: Id,
    description: string,
    quantity: int,
    unitPrice: Cents,
    total: Cents)

  /** The errors of the domain: the service's ValueErrors and the storage
      engine's integrity and range errors. */
  datatype Error =
    | NameRequired
    | EmailExists
    | CustomerNotFound
    | InvoiceNotFound
    | UniqueViolation(column: string)
    | ForeignKeyViolation(column: string)
    | DateOutOfRange

  function Message(e: Error): string
  {
    match e
    case NameRequired => "Customer name is required"
    case EmailExists => "Email already exists"
    case CustomerNotFound => "Customer not found"
    case InvoiceNotFound => "Invoice not found"
    case UniqueViolation(column) => "UNIQUE constraint failed: " + column
    case ForeignKeyViolation(_) => "FOREIGN KEY constraint failed"
    case DateOutOfRange => "date value out of range"
  }

  datatype Result<+T> = Ok(value: T) | Err(error: Error)

  /** An item whose total is its quantity times its unit price. */
  predicate Totalled(it: Item)
  {
    it.total == it.quantity * it.unitPrice
  }

  /** InvoiceItem.calculate_total: the item with its total recomputed. */
  function CalculateItemTotal(it: Item): (r: Item)
    ensures Totalled(r)
    ensures r.(total := it.total) == it
  {
    it.(total := it.quantity * it.unitPrice)
  }

  /** sum(item.total for item in items). */
  function SumTotals(items: seq<Item>): Cents
  {
    if items == [] then 0 else items[0].total + SumTotals(items[1..])
  }

  lemma {:induction false} SumTotalsAppend(items: seq<Item>, it: Item)
    ensures SumTotals(items + [it]) == SumTotals(items) + it.total
  {
    if items != [] {
      assert (items + [it])[1..] == items[1..] + [it];
      SumTotalsAppend(items[1..], it);
    }
  }

  /** Only the totals enter the sum: two item lists with the same totals,
      position by position, have the same sum. */
  lemma {:induction false} SumTotalsSameTotals(a: seq<Item>, b: seq<Item>)
    requires |a| == |b|
    requires forall k | 0 <= k < |a| :: a[k].total == b[k].total
    ensures SumTotals(a) == SumTotals(b)
  {
    if a != [] {
      SumTotalsSameTotals(a[1..], b[1..]);
    }
  }
}
