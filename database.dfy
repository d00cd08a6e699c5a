/** The store behind the session: the customers, invoices and invoice_items
    tables as maps from row id to row, the constraints the schema declares
    (unique email, unique invoice number, foreign keys with cascading delete)
    and the derived-total rules, kept together as one invariant. */
module Database {
  import opened Wrappers
  import opened Entities

  datatype Tables = Tables(
    customers: map<Id, Customer>,
    invoices: map<Id, Invoice>,
    items: map<Id, Item>)

  const Empty: Tables := Tables(map[], map[], map[])

  predicate AllStored(ids: seq<Id>, items: map<Id, Item>)
  {
    forall k | 0 <= k < |ids| :: ids[k] in items
  }

  /** The rows a list of item ids refers to, in the same order. */
  function Resolve(ids: seq<Id>, items: map<Id, Item>): (r: seq<Item>)
    requires AllStored(ids, items)
    ensures |r| == |ids|
  {
    seq(|ids|, k requires 0 <= k < |ids| => items[ids[k]])
  }

  predicate NoDuplicates(ids: seq<Id>)
  {
    forall a, b | 0 <= a < b < |ids| :: ids[a] != ids[b]
  }

  /** An invoice whose total_amount is the sum of its items' totals. */
  predicate InvoiceTotalled(inv: Invoice, items: map<Id, Item>)
  {
    AllStored(inv.items, items) && inv.totalAmount == SumTotals(Resolve(inv.items, items))
  }

  ghost predicate ItemTotalsHold(t: Tables)
  {
    forall k | k in t.items :: Totalled(t.items[k])
  }

  ghost predicate InvoiceTotalsHold(t: Tables)
  {
    forall i | i in t.invoices :: InvoiceTotalled(t.invoices[i], t.items)
  }

  /** Each invoice's item list names, once each, exactly the item rows whose
      invoice_id is that invoice; so every item row belongs to an invoice. */
  ghost predicate ItemsLinked(t: Tables)
  {
    && (forall i | i in t.invoices ::
          var ids := t.invoices[i].items;
          AllStored(ids, t.items) && NoDuplicates(ids) &&
          forall k | 0 <= k < |ids| :: t.items[ids[k]].invoiceId == i)
    && (forall k | k in t.items ::
          t.items[k].invoiceId in t.invoices && k in t.invoices[t.items[k].invoiceId].items)
  }

  /** The unique constraint on invoices.invoice_number. */
  ghost predicate NumbersUnique(t: Tables)
  {
    forall i, j | i in t.invoices && j in t.invoices && i != j ::
      t.invoices[i].number != t.invoices[j].number
  }

  /** The unique constraint on customers.email: NULLs may repeat, values may not. */
  ghost predicate EmailsUnique(t: Tables)
  {
    forall a, b | a in t.customers && b in t.customers && a != b && t.customers[a].email.Some? ::
      t.customers[a].email != t.customers[b].email
  }

  /** The foreign key invoices.customer_id. */
  ghost predicate CustomersReferenced(t: Tables)
  {
    forall i | i in t.invoices :: t.invoices[i].customerId in t.customers
  }

  /** Every stored date is one a date column can hold. */
  ghost predicate DatesValid(t: Tables)
  {
    && (forall c | c in t.customers :: ValidDay(t.customers[c].createdAt))
    && (forall i | i in t.invoices :: ValidDay(t.invoices[i].date) && ValidDay(t.invoices[i].dueDate))
  }

  /** Every row id lies below the next id its table hands out. */
  ghost predicate IdsBelow(t: Tables, nextCustomer: Id, nextInvoice: Id, nextItem: Id)
  {
    && (forall k | k in t.customers :: k < nextCustomer)
    && (forall k | k in t.invoices :: k < nextInvoice)
    && (forall k | k in t.items :: k < nextItem)
  }

  ghost predicate Consistent(t: Tables)
  {
    && ItemTotalsHold(t)
    && InvoiceTotalsHold(t)
    && ItemsLinked(t)
    && NumbersUnique(t)
    && EmailsUnique(t)
    && CustomersReferenced(t)
  }

  lemma EmptyConsistent()
    ensures Consistent(Empty)
  {
  }

  function EmailTaken(customers: map<Id, Customer>, email: string): bool
  {
    exists k | k in customers :: customers[k].email == Some(email)
  }

  function NumberTaken(invoices: map<Id, Invoice>, number: string): bool
  {
    exists i | i in invoices :: invoices[i].number == number
  }

  // ---------------------------------------------------------------- inserts

  /** session.add(customer) committed under a fresh id. */
  function AddCustomer(t: Tables, id: Id, c: Customer): (r: Tables)
    ensures r.invoices == t.invoices && r.items == t.items
    ensures r.customers.Keys == t.customers.Keys + {id} && r.customers[id] == c
    ensures forall k | k in t.customers && k != id :: r.customers[k] == t.customers[k]
  {
    t.(customers := t.customers[id := c])
  }

  /** A new customer keeps the tables consistent exactly when its id is new
      and its email, if any, is not yet held. */
  lemma AddCustomerConsistent(t: Tables, id: Id, c: Customer)
    requires Consistent(t) && id !in t.customers
    ensures Consistent(AddCustomer(t, id, c)) <==> !(c.email.Some? && EmailTaken(t.customers, c.email.value))
  {
    var t' := AddCustomer(t, id, c);
    if c.email.Some? && EmailTaken(t.customers, c.email.value) {
      var k :| k in t.customers && t.customers[k].email == c.email;
      assert k != id && t'.customers[k].email == t'.customers[id].email;
      assert !EmailsUnique(t');
    }
  }

  /** The item ids handed out to `count` new rows: consecutive from `first`. */
  function FreshIds(first: Id, count: nat): (ids: seq<Id>)
    ensures |ids| == count
  {
    seq(count, k requires 0 <= k < count => first + k)
  }

  /** The new item rows keyed by their fresh ids, each pointing at invoice `id`. */
  function LinkRows(first: Id, rows: seq<Item>, id: Id): map<Id, Item>
    decreases |rows|
  {
    if rows == [] then map[]
    else LinkRows(first, rows[..|rows| - 1], id)[first + |rows| - 1 := rows[|rows| - 1].(invoiceId := id)]
  }

  lemma {:induction false} LinkRowsKeys(first: Id, rows: seq<Item>, id: Id)
    ensures forall k: Id :: k in LinkRows(first, rows, id) <==> first <= k < first + |rows|
    ensures forall k | k in LinkRows(first, rows, id) ::
      LinkRows(first, rows, id)[k] == rows[k - first].(invoiceId := id)
    decreases |rows|
  {
    if rows != [] {
      var init := rows[..|rows| - 1];
      LinkRowsKeys(first, init, id);
    }
  }

  /** session.add(invoice) with its items committed: the invoice under `id`,
      its rows under consecutive fresh ids from `first`, each row's invoice_id
      set to `id` and the invoice's item list naming them in order. */
  function AddInvoice(t: Tables, id: Id, inv: Invoice, first: Id, rows: seq<Item>): Tables
  {
    t.(invoices := t.invoices[id := inv.(items := FreshIds(first, |rows|))],
       items := t.items + LinkRows(first, rows, id))
  }

  /** What an insert adds and what it leaves: the customers and every other
      invoice as they were, the invoice under `id` as given but for its item
      list, which names the fresh ids; the item table gains exactly those ids. */
  lemma AddInvoiceShape(t: Tables, id: Id, inv: Invoice, first: Id, rows: seq<Item>)
    ensures var r := AddInvoice(t, id, inv, first, rows);
      && r.customers == t.customers
      && r.invoices.Keys == t.invoices.Keys + {id}
      && r.invoices[id].(items := inv.items) == inv && r.invoices[id].items == FreshIds(first, |rows|)
      && (forall j | j in t.invoices && j != id :: r.invoices[j] == t.invoices[j])
      && (forall k :: k in r.items <==> k in t.items || first <= k < first + |rows|)
  {
    LinkRowsKeys(first, rows, id);
  }

  lemma AddInvoiceResolves(t: Tables, id: Id, inv: Invoice, first: Id, rows: seq<Item>)
    ensures var t' := AddInvoice(t, id, inv, first, rows);
      && AllStored(t'.invoices[id].items, t'.items)
      && |Resolve(t'.invoices[id].items, t'.items)| == |rows|
      && forall n | 0 <= n < |rows| :: Resolve(t'.invoices[id].items, t'.items)[n] == rows[n].(invoiceId := id)
  {
    var t' := AddInvoice(t, id, inv, first, rows);
    var ids := FreshIds(first, |rows|);
    var linked := LinkRows(first, rows, id);
    assert t'.invoices[id].items == ids;
    LinkRowsKeys(first, rows, id);
    forall n | 0 <= n < |ids|
      ensures ids[n] in t'.items && t'.items[ids[n]] == rows[n].(invoiceId := id)
    {
      var k := first + n;
      assert ids[n] == k && k in linked;
      assert t'.items[k] == linked[k];
    }
  }

  /** The new invoice is totalled, and every invoice already stored keeps
      its rows, because the new ids are above every stored id. */
  lemma AddInvoiceTotals(t: Tables, id: Id, inv: Invoice, first: Id, rows: seq<Item>)
    requires InvoiceTotalsHold(t) && id !in t.invoices && forall k | k in t.items :: k < first
    requires inv.totalAmount == SumTotals(rows)
    ensures InvoiceTotalsHold(AddInvoice(t, id, inv, first, rows))
  {
    var t' := AddInvoice(t, id, inv, first, rows);
    AddInvoiceResolves(t, id, inv, first, rows);
    SumTotalsSameTotals(rows, Resolve(t'.invoices[id].items, t'.items));
    assert InvoiceTotalled(t'.invoices[id], t'.items);
    forall i | i in t.invoices
      ensures InvoiceTotalled(t'.invoices[i], t'.items)
    {
      AddInvoiceKeepsRows(t, id, inv, first, rows, i);
    }
  }

  /** An invoice already stored resolves to the same rows after the insert. */
  lemma AddInvoiceKeepsRows(t: Tables, id: Id, inv: Invoice, first: Id, rows: seq<Item>, i: Id)
    requires i in t.invoices && i != id && AllStored(t.invoices[i].items, t.items)
    requires forall k | k in t.items :: k < first
    ensures var t' := AddInvoice(t, id, inv, first, rows);
      && t'.invoices[i] == t.invoices[i]
      && AllStored(t.invoices[i].items, t'.items)
      && Resolve(t.invoices[i].items, t'.items) == Resolve(t.invoices[i].items, t.items)
  {
    var t' := AddInvoice(t, id, inv, first, rows);
    var ids := t.invoices[i].items;
    LinkRowsKeys(first, rows, id);
    forall n | 0 <= n < |ids| ensures ids[n] in t'.items && t'.items[ids[n]] == t.items[ids[n]] {
      assert ids[n] < first;
      assert ids[n] !in LinkRows(first, rows, id);
    }
  }

  lemma AddInvoiceLinked(t: Tables, id: Id, inv: Invoice, first: Id, rows: seq<Item>)
    requires ItemsLinked(t) && id !in t.invoices && forall k | k in t.items :: k < first
    ensures ItemsLinked(AddInvoice(t, id, inv, first, rows))
  {
    var t' := AddInvoice(t, id, inv, first, rows);
    LinkRowsKeys(first, rows, id);
    forall i | i in t'.invoices
      ensures var ids := t'.invoices[i].items;
        AllStored(ids, t'.items) && NoDuplicates(ids) &&
        forall k | 0 <= k < |ids| :: t'.items[ids[k]].invoiceId == i
    {
      var ids := t'.invoices[i].items;
      if i == id {
        forall n | 0 <= n < |ids|
          ensures ids[n] == first + n && ids[n] in t'.items && t'.items[ids[n]].invoiceId == id
        {
        }
      } else {
        forall n | 0 <= n < |ids|
          ensures ids[n] in t.items && t'.items[ids[n]] == t.items[ids[n]]
        {
          assert ids[n] < first;
        }
      }
    }
    forall k | k in t'.items
      ensures t'.items[k].invoiceId in t'.invoices && k in t'.invoices[t'.items[k].invoiceId].items
    {
      if k >= first {
        assert t'.invoices[id].items[k - first] == k;
      } else {
        assert t'.items[k] == t.items[k];
      }
    }
  }

  /** A new invoice whose rows are totalled, whose number is free, whose
      customer exists and whose ids are fresh keeps the tables consistent. */
  lemma AddInvoiceConsistent(t: Tables, id: Id, inv: Invoice, first: Id, rows: seq<Item>)
    requires Consistent(t)
    requires id !in t.invoices && forall k | k in t.items :: k < first
    requires !NumberTaken(t.invoices, inv.number) && inv.customerId in t.customers
    requires forall k | 0 <= k < |rows| :: Totalled(rows[k])
    requires inv.totalAmount == SumTotals(rows)
    ensures Consistent(AddInvoice(t, id, inv, first, rows))
  {
    AddInvoiceTotals(t, id, inv, first, rows);
    AddInvoiceLinked(t, id, inv, first, rows);
    AddInvoiceRowsTotalled(t, id, inv, first, rows);
    AddInvoiceKeys(t, id, inv, first, rows);
  }

  lemma AddInvoiceRowsTotalled(t: Tables, id: Id, inv: Invoice, first: Id, rows: seq<Item>)
    requires ItemTotalsHold(t)
    requires forall k | 0 <= k < |rows| :: Totalled(rows[k])
    ensures ItemTotalsHold(AddInvoice(t, id, inv, first, rows))
  {
    var t' := AddInvoice(t, id, inv, first, rows);
    LinkRowsKeys(first, rows, id);
    forall k | k in t'.items ensures Totalled(t'.items[k]) {
      if k in LinkRows(first, rows, id) {
        assert t'.items[k] == rows[k - first].(invoiceId := id);
      }
    }
  }

  lemma AddInvoiceKeys(t: Tables, id: Id, inv: Invoice, first: Id, rows: seq<Item>)
    requires NumbersUnique(t) && EmailsUnique(t) && CustomersReferenced(t)
    requires id !in t.invoices && !NumberTaken(t.invoices, inv.number) && inv.customerId in t.customers
    ensures var t' := AddInvoice(t, id, inv, first, rows);
      NumbersUnique(t') && EmailsUnique(t') && CustomersReferenced(t')
  {
    var t' := AddInvoice(t, id, inv, first, rows);
    forall i, j | i in t'.invoices && j in t'.invoices && i != j
      ensures t'.invoices[i].number != t'.invoices[j].number
    {
      if i == id {
        assert t.invoices[j].number != inv.number;
      } else if j == id {
        assert t.invoices[i].number != inv.number;
      }
    }
  }

  /** The new rows keep every date valid and every item id below the next free one. */
  lemma AddInvoiceBounds(t: Tables, id: Id, inv: Invoice, first: Id, rows: seq<Item>, nc: Id)
    requires DatesValid(t) && ValidDay(inv.date) && ValidDay(inv.dueDate)
    requires IdsBelow(t, nc, id, first)
    ensures var t' := AddInvoice(t, id, inv, first, rows);
      DatesValid(t') && IdsBelow(t', nc, id + 1, first + |rows|)
  {
    LinkRowsKeys(first, rows, id);
  }

  // --------------------------------------------------------------- cascades

  /** Deleting an invoice: the row goes, and through the foreign key's
      ON DELETE CASCADE every item row pointing at it goes too. */
  function CascadeInvoice(t: Tables, i: Id): (r: Tables)
    ensures r.customers == t.customers
    ensures i !in r.invoices && forall k | k in r.items :: r.items[k].invoiceId != i
  {
    t.(invoices := t.invoices - {i},
       items := map k | k in t.items && t.items[k].invoiceId != i :: t.items[k])
  }

  /** Deleting a customer: the row goes, with every invoice pointing at it and
      every item pointing at one of those invoices. */
  function CascadeCustomer(t: Tables, c: Id): (r: Tables)
    ensures c !in r.customers && forall j | j in r.invoices :: r.invoices[j].customerId != c
    ensures forall k | k in r.items && r.items[k].invoiceId in t.invoices :: r.items[k].invoiceId in r.invoices
  {
    var doomed := set i | i in t.invoices && t.invoices[i].customerId == c;
    Tables(
      t.customers - {c},
      t.invoices - doomed,
      map k | k in t.items && t.items[k].invoiceId !in doomed :: t.items[k])
  }

  /** t' keeps some of t's rows unchanged and drops the rest, and an item
      row survives exactly when the invoice it points at survives. */
  ghost predicate Shrunk(t: Tables, t': Tables)
  {
    && t'.customers.Keys <= t.customers.Keys && (forall c | c in t'.customers :: t'.customers[c] == t.customers[c])
    && t'.invoices.Keys <= t.invoices.Keys && (forall i | i in t'.invoices :: t'.invoices[i] == t.invoices[i])
    && t'.items.Keys <= t.items.Keys && (forall k | k in t'.items :: t'.items[k] == t.items[k])
    && (forall k | k in t.items :: (k in t'.items <==> t.items[k].invoiceId in t'.invoices))
  }

  lemma ShrunkBounds(t: Tables, t': Tables, nc: Id, ni: Id, nk: Id)
    requires DatesValid(t) && IdsBelow(t, nc, ni, nk) && Shrunk(t, t')
    ensures DatesValid(t') && IdsBelow(t', nc, ni, nk)
  {
  }

  lemma SurvivorsResolve(t: Tables, t': Tables, i: Id)
    requires ItemsLinked(t) && Shrunk(t, t') && i in t'.invoices
    ensures AllStored(t'.invoices[i].items, t'.items)
    ensures Resolve(t'.invoices[i].items, t'.items) == Resolve(t.invoices[i].items, t.items)
  {
    var ids := t.invoices[i].items;
    forall k | 0 <= k < |ids| ensures ids[k] in t'.items {
      assert t.items[ids[k]].invoiceId == i;
    }
  }

  lemma SurvivorsLinked(t: Tables, t': Tables)
    requires ItemsLinked(t) && Shrunk(t, t')
    ensures ItemsLinked(t')
  {
    forall i | i in t'.invoices ensures AllStored(t'.invoices[i].items, t'.items) {
      SurvivorsResolve(t, t', i);
    }
  }

  lemma SurvivorsTotalled(t: Tables, t': Tables)
    requires ItemsLinked(t) && InvoiceTotalsHold(t) && Shrunk(t, t')
    ensures InvoiceTotalsHold(t')
  {
    forall i | i in t'.invoices ensures InvoiceTotalled(t'.invoices[i], t'.items) {
      SurvivorsResolve(t, t', i);
      assert InvoiceTotalled(t.invoices[i], t.items);
    }
  }

  /** Dropping rows so that no surviving row refers to a dropped one keeps
      every surviving invoice's total and links intact. */
  lemma SurvivorsIntact(t: Tables, t': Tables)
    requires Consistent(t) && Shrunk(t, t')
    requires forall i | i in t'.invoices :: t'.invoices[i].customerId in t'.customers
    ensures Consistent(t')
  {
    SurvivorsLinked(t, t');
    SurvivorsTotalled(t, t');
    assert ItemTotalsHold(t');
    assert NumbersUnique(t');
    assert EmailsUnique(t');
  }

  /** Deleting an invoice keeps the tables consistent, removes exactly that
      invoice, leaves no item that refers to it, and removes exactly the items
      the invoice listed. */
  lemma CascadeInvoiceConsistent(t: Tables, i: Id)
    requires Consistent(t) && i in t.invoices
    ensures var t' := CascadeInvoice(t, i);
      && Consistent(t')
      && t'.invoices.Keys == t.invoices.Keys - {i}
      && (forall k | k in t'.items :: t'.items[k].invoiceId != i)
      && t.items.Keys - t'.items.Keys == set k | k in t.invoices[i].items
  {
    var t' := CascadeInvoice(t, i);
    CascadeInvoiceShrinks(t, i);
    SurvivorsIntact(t, t');
    CascadeInvoiceRemoves(t, i);
  }

  lemma CascadeInvoiceShrinks(t: Tables, i: Id)
    requires ItemsLinked(t)
    ensures Shrunk(t, CascadeInvoice(t, i))
  {
  }

  /** The item rows the cascade removes are exactly those the invoice lists. */
  lemma CascadeInvoiceRemoves(t: Tables, i: Id)
    requires ItemsLinked(t) && i in t.invoices
    ensures t.items.Keys - CascadeInvoice(t, i).items.Keys == set k | k in t.invoices[i].items
  {
    var t' := CascadeInvoice(t, i);
    var ids := t.invoices[i].items;
    forall k | k in t.items
      ensures k in ids <==> t.items[k].invoiceId == i
    {
      if k in ids {
        var n :| 0 <= n < |ids| && ids[n] == k;
      }
    }
    forall k | k in ids ensures k in t.items {
      var n :| 0 <= n < |ids| && ids[n] == k;
    }
  }

  /** Deleting a customer keeps the tables consistent and leaves no invoice
      that refers to it and no item that refers to one of its invoices. */
  lemma CascadeCustomerConsistent(t: Tables, c: Id)
    requires Consistent(t) && c in t.customers
    ensures var t' := CascadeCustomer(t, c);
      && Consistent(t')
      && t'.customers.Keys == t.customers.Keys - {c}
      && (forall i | i in t'.invoices :: t'.invoices[i].customerId != c)
      && (forall i | i in t.invoices && t.invoices[i].customerId != c :: i in t'.invoices)
      && (forall k | k in t'.items :: t.invoices[t'.items[k].invoiceId].customerId != c)
  {
    var t' := CascadeCustomer(t, c);
    CascadeCustomerShrinks(t, c);
    SurvivorsIntact(t, t');
  }

  lemma CascadeCustomerShrinks(t: Tables, c: Id)
    requires ItemsLinked(t)
    ensures Shrunk(t, CascadeCustomer(t, c))
  {
  }

  /** Invoice.calculate_total applied to a stored invoice. */
  function RecalculateTotal(t: Tables, i: Id): (r: Tables)
    requires i in t.invoices && AllStored(t.invoices[i].items, t.items)
    ensures r.customers == t.customers && r.items == t.items && r.invoices.Keys == t.invoices.Keys
    ensures InvoiceTotalled(r.invoices[i], r.items)
    ensures r.invoices[i].(totalAmount := t.invoices[i].totalAmount) == t.invoices[i]
    ensures forall j | j in t.invoices && j != i :: r.invoices[j] == t.invoices[j]
  {
    var inv := t.invoices[i];
    t.(invoices := t.invoices[i := inv.(totalAmount := SumTotals(Resolve(inv.items, t.items)))])
  }

  /** On consistent tables recomputing a total changes nothing: the stored
      total already is the sum of the item totals. */
  lemma RecalculateTotalUnchanged(t: Tables, i: Id)
    requires Consistent(t) && i in t.invoices
    ensures AllStored(t.invoices[i].items, t.items) && RecalculateTotal(t, i) == t
  {
    assert InvoiceTotalled(t.invoices[i], t.items);
  }

  // ------------------------------------------------------------------ store

  /** The store's invariant: consistent tables, valid dates, and every id
      below the next id its table hands out. */
  ghost predicate StoreValid(t: Tables, loadDay: Day, nextCustomer: Id, nextInvoice: Id, nextItem: Id)
  {
    Consistent(t) && DatesValid(t) && ValidDay(loadDay) && IdsBelow(t, nextCustomer, nextInvoice, nextItem)
  }

  /** An insert under the next ids, with a free number, an existing customer,
      totalled rows, the rows' sum as total and valid dates, keeps the
      store's invariant with the counters moved past the new ids. */
  lemma AddInvoiceStoreValid(t: Tables, loadDay: Day, nc: Id, ni: Id, nk: Id, inv: Invoice, rows: seq<Item>)
    requires StoreValid(t, loadDay, nc, ni, nk)
    requires !NumberTaken(t.invoices, inv.number) && inv.customerId in t.customers
    requires forall k | 0 <= k < |rows| :: Totalled(rows[k])
    requires inv.totalAmount == SumTotals(rows)
    requires ValidDay(inv.date) && ValidDay(inv.dueDate)
    ensures StoreValid(AddInvoice(t, ni, inv, nk, rows), loadDay, nc, ni + 1, nk + |rows|)
  {
    AddInvoiceConsistent(t, ni, inv, nk, rows);
    AddInvoiceBounds(t, ni, inv, nk, rows, nc);
  }

  class Db {
    var customers: map<Id, Customer>
    var invoices: map<Id, Invoice>
    var items: map<Id, Item>
    var nextCustomerId: Id
    var nextInvoiceId: Id
    var nextItemId: Id
    /** The day the schema was loaded: created_at's default is evaluated then, once. */
    const loadDay: Day

    ghost function State(): Tables
      reads this
    {
      Tables(customers, invoices, items)
    }

    ghost predicate Valid()
      reads this
    {
      StoreValid(State(), loadDay, nextCustomerId, nextInvoiceId, nextItemId)
    }

    /** The tables of a new database, or of one just cleared: empty. */
    constructor (loadDay: Day)
      requires ValidDay(loadDay)
      ensures Valid() && State() == Empty && this.loadDay == loadDay
    {
      customers, invoices, items := map[], map[], map[];
      nextCustomerId, nextInvoiceId, nextItemId := 1, 1, 1;
      this.loadDay := loadDay;
      EmptyConsistent();
    }

    /** Inserting and committing a customer row; the unique constraint on
        email rejects a value some row already holds. */
    method InsertCustomer(name: string, email: Option<string>, address: Option<string>, phone: Option<string>)
      returns (r: Result<Id>)
      requires Valid()
      modifies this
      ensures Valid()
      ensures r.Err? <==> email.Some? && EmailTaken(old(customers), email.value)
      ensures r.Err? ==> r.error == UniqueViolation("customers.email") && State() == old(State())
      ensures r.Ok? ==> r.value !in old(customers)
      ensures r.Ok? ==> State() == AddCustomer(old(State()), r.value, Customer(name, email, address, phone, loadDay))
    {
      if email.Some? && EmailTaken(customers, email.value) {
        return Err(UniqueViolation("customers.email"));
      }
      var c := Customer(name, email, address, phone, loadDay);
      AddCustomerConsistent(State(), nextCustomerId, c);
      customers := customers[nextCustomerId := c];
      r := Ok(nextCustomerId);
      nextCustomerId := nextCustomerId + 1;
    }

    /** Inserting and committing an invoice with its item rows as one
        transaction: the unique number and the customer foreign key are
        checked, and on a violation nothing is written. The totals are not
        checked by the storage engine: the caller computes them. */
    method InsertInvoice(inv: Invoice, rows: seq<Item>) returns (r: Result<Id>)
      requires Valid()
      requires forall k | 0 <= k < |rows| :: Totalled(rows[k])
      requires inv.totalAmount == SumTotals(rows)
      requires ValidDay(inv.date) && ValidDay(inv.dueDate)
      modifies this
      ensures Valid()
      ensures NumberTaken(old(invoices), inv.number) ==> r == Err(UniqueViolation("invoices.invoice_number"))
      ensures !NumberTaken(old(invoices), inv.number) && inv.customerId !in old(customers) ==>
        r == Err(ForeignKeyViolation("invoices.customer_id"))
      ensures r.Ok? <==> !NumberTaken(old(invoices), inv.number) && inv.customerId in old(customers)
      ensures r.Err? ==> State() == old(State())
      ensures r.Ok? ==> r.value !in old(invoices) && forall k | k in old(items) :: k < old(nextItemId)
      ensures r.Ok? ==> State() == AddInvoice(old(State()), r.value, inv, old(nextItemId), rows)
    {
      if NumberTaken(invoices, inv.number) {
        return Err(UniqueViolation("invoices.invoice_number"));
      }
      if inv.customerId !in customers {
        return Err(ForeignKeyViolation("invoices.customer_id"));
      }
      var id, first := nextInvoiceId, nextItemId;
      var t := AddInvoice(Tables(customers, invoices, items), id, inv, first, rows);
      AddInvoiceStoreValid(State(), loadDay, nextCustomerId, id, first, inv, rows);
      invoices, items, nextInvoiceId, nextItemId := t.invoices, t.items, id + 1, first + |rows|;
      assert State() == t;
      r := Ok(id);
    }

    /** session.delete(invoice): the invoice and, by cascade, its items. */
    method DeleteInvoice(i: Id)
      requires Valid() && i in invoices
      modifies this
      ensures Valid() && State() == CascadeInvoice(old(State()), i)
    {
      CascadeInvoiceConsistent(State(), i);
      CascadeInvoiceShrinks(State(), i);
      var t := CascadeInvoice(Tables(customers, invoices, items), i);
      ShrunkBounds(State(), t, nextCustomerId, nextInvoiceId, nextItemId);
      invoices, items := t.invoices, t.items;
      assert State() == t;
    }

    /** session.delete(customer): the customer and, by cascade, its invoices and their items. */
    method DeleteCustomer(c: Id)
      requires Valid() && c in customers
      modifies this
      ensures Valid() && State() == CascadeCustomer(old(State()), c)
    {
      CascadeCustomerConsistent(State(), c);
      CascadeCustomerShrinks(State(), c);
      var t := CascadeCustomer(Tables(customers, invoices, items), c);
      ShrunkBounds(State(), t, nextCustomerId, nextInvoiceId, nextItemId);
      customers, invoices, items := t.customers, t.invoices, t.items;
      assert State() == t;
    }

    /** Invoice.calculate_total on a stored invoice: assigns total_amount the
        sum of the item totals, which under the invariant it already holds. */
    method CalculateTotal(i: Id)
      requires Valid() && i in invoices
      modifies this
      ensures Valid() && State() == old(State())
      ensures AllStored(old(invoices)[i].items, old(items)) && State() == RecalculateTotal(old(State()), i)
    {
      RecalculateTotalUnchanged(State(), i);
      var inv := invoices[i];
      var sum := SumTotals(Resolve(inv.items, items));
      invoices := invoices[i := inv.(totalAmount := sum)];
    }

    /** InvoiceItem.calculate_total on a stored item: assigns its total the
        product of quantity and unit price, which under the invariant it
        already holds. */
    method CalculateItemTotal(k: Id)
      requires Valid() && k in items
      modifies this
      ensures Valid() && State() == old(State())
      ensures items == old(items)[k := Entities.CalculateItemTotal(old(items)[k])]
    {
      var it := items[k];
      assert Totalled(it) && it.(total := it.quantity * it.unitPrice) == it;
      assert items[k := it] == items;
      items := items[k := it.(total := it.quantity * it.unitPrice)];
    }
  }
}
