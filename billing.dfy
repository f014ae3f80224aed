/**
 * Invoice creation: inside one transaction on a pooled connection, an invoice row is
 * inserted marked paid with total 0, one line-item row is inserted per requested item at
 * the catalog price (or the caller's price), the running total is written back, and the
 * transaction commits; any failure rolls everything back and is passed on, and the
 * connection goes back to the pool on every path.
 */
module Billing {
  import opened Wrappers

  /** Every invoice is created already paid. */
  const Paid: string := "PAGADA"

  /** A catalog entry of `services`. */
  datatype Service = Service(name: string, price: int)

  /** A row of `invoices`. */
  datatype Invoice = Invoice(patientId: int, status: string, total: int)

  /** A row of `invoice_items`. */
  datatype ItemRow = ItemRow(id: int, invoiceId: int, serviceId: int, quantity: int, price: int)

  /** A requested line: a service and, optionally, a quantity and a price (`None` stands for a
      missing, null or undefined field). */
  datatype ItemRequest = ItemRequest(serviceId: int, quantity: Option<int>, price: Option<int>)

  /** What `createInvoice` returns on success. */
  datatype InvoiceSummary = InvoiceSummary(id: int, patientId: int, total: int, status: string)

  /** What the store rejects: a foreign key that names no row. */
  datatype DbError =
    | UnknownPatient(patientId: int)
    | UnknownInvoice(invoiceId: int)
    | UnknownService(serviceId: int)

  /** What `beginTransaction` remembers so that `rollback` can undo the statements after it. */
  datatype Snapshot = Snapshot(invoices: map<int, Invoice>, items: seq<ItemRow>)

  // ---------------------------------------------------------------------------------------
  // The specification of one line and of the whole invoice

  /** `it.quantity || 1`: a missing quantity, and a quantity of 0, count as 1. */
  function LineQty(it: ItemRequest): (q: int)
    ensures q != 0
    ensures it.quantity.Some? && it.quantity.value != 0 ==> q == it.quantity.value
    ensures it.quantity.None? || it.quantity.value == 0 ==> q == 1
  {
    if it.quantity.Some? && it.quantity.value != 0 then it.quantity.value else 1
  }

  /** The catalog price as the `SELECT price` sees it: none when the service has no row. */
  function CatalogPrice(services: map<int, Service>, serviceId: int): (r: Option<int>)
    ensures r.Some? <==> serviceId in services
    ensures r.Some? ==> r.value == services[serviceId].price
  {
    if serviceId in services then Some(services[serviceId].price) else None
  }

  /** `srows[0]?.price || it.price || 0`: the catalog price when it is non-zero, else the
      caller's price when it is non-zero, else 0. */
  function LinePrice(services: map<int, Service>, it: ItemRequest): (p: int)
    ensures CatalogPrice(services, it.serviceId).Some? && CatalogPrice(services, it.serviceId).value != 0
            ==> p == CatalogPrice(services, it.serviceId).value
    ensures ((CatalogPrice(services, it.serviceId).None? || CatalogPrice(services, it.serviceId).value == 0)
             && it.price.Some? && it.price.value != 0) ==> p == it.price.value
    ensures p == 0 ==> (CatalogPrice(services, it.serviceId).None? || CatalogPrice(services, it.serviceId).value == 0)
                       && (it.price.None? || it.price.value == 0)
  {
    var catalog := CatalogPrice(services, it.serviceId);
    if catalog.Some? && catalog.value != 0 then catalog.value
    else if it.price.Some? && it.price.value != 0 then it.price.value
    else 0
  }

  /** The sum of price times quantity over the lines. */
  function Total(services: map<int, Service>, items: seq<ItemRequest>): int
  {
    if items == [] then 0
    else Total(services, items[..|items| - 1]) + LinePrice(services, items[|items| - 1]) * LineQty(items[|items| - 1])
  }

  /** The `invoice_items` rows the lines produce, numbered from `firstId`. */
  function ItemRows(invoiceId: int, firstId: int, services: map<int, Service>, items: seq<ItemRequest>): (rows: seq<ItemRow>)
    ensures |rows| == |items|
  {
    if items == [] then []
    else ItemRows(invoiceId, firstId, services, items[..|items| - 1])
         + [ItemRow(firstId + |items| - 1, invoiceId, items[|items| - 1].serviceId,
                    LineQty(items[|items| - 1]), LinePrice(services, items[|items| - 1]))]
  }

  /** Row `j` is line `j` with the next id, the computed quantity and the computed price. */
  lemma {:induction false} ItemRowsAt(invoiceId: int, firstId: int, services: map<int, Service>, items: seq<ItemRequest>)
    ensures forall j :: 0 <= j < |items| ==>
              ItemRows(invoiceId, firstId, services, items)[j]
              == ItemRow(firstId + j, invoiceId, items[j].serviceId, LineQty(items[j]), LinePrice(services, items[j]))
    decreases |items|
  {
    if items != [] {
      var prefix := items[..|items| - 1];
      ItemRowsAt(invoiceId, firstId, services, prefix);
      forall j | 0 <= j < |items| - 1
        ensures items[j] == prefix[j]
      {
      }
    }
  }

  /** The position of the first line whose service is not in the catalog. */
  function FirstUnknownService(services: map<int, Service>, items: seq<ItemRequest>): (k: Option<nat>)
    ensures k.Some? ==> k.value < |items|
  {
    if items == [] then None
    else if items[0].serviceId !in services then Some(0)
    else match FirstUnknownService(services, items[1..])
      case None => None
      case Some(k) => Some(k + 1)
  }

  lemma {:induction false} FirstUnknownServiceMeaning(services: map<int, Service>, items: seq<ItemRequest>)
    ensures FirstUnknownService(services, items).None? <==> forall j :: 0 <= j < |items| ==> items[j].serviceId in services
    ensures FirstUnknownService(services, items).Some? ==>
              var k := FirstUnknownService(services, items).value;
              items[k].serviceId !in services && forall j :: 0 <= j < k ==> items[j].serviceId in services
    decreases |items|
  {
    if items != [] && items[0].serviceId in services {
      FirstUnknownServiceMeaning(services, items[1..]);
      forall j | 0 < j < |items|
        ensures items[j] == items[1..][j - 1]
      {
      }
    }
  }

  /** When every line before `i` is priced from the catalog and line `i` is not, line `i` is the
      first unknown service. */
  lemma FirstUnknownAt(services: map<int, Service>, items: seq<ItemRequest>, i: nat)
    requires i < |items| && items[i].serviceId !in services
    requires forall j :: 0 <= j < i ==> items[j].serviceId in services
    ensures FirstUnknownService(services, items) == Some(i)
  {
    FirstUnknownServiceMeaning(services, items);
  }

  /** The total is additive over the lines. */
  lemma {:induction false} TotalAppend(services: map<int, Service>, a: seq<ItemRequest>, b: seq<ItemRequest>)
    ensures Total(services, a + b) == Total(services, a) + Total(services, b)
    decreases |b|
  {
    if b == [] {
      assert a + b == a;
    } else {
      var b' := b[..|b| - 1];
      assert (a + b)[..|a + b| - 1] == a + b';
      assert (a + b)[|a + b| - 1] == b[|b| - 1];
      TotalAppend(services, a, b');
    }
  }

  /** A single line contributes its price times its quantity. */
  lemma TotalOfOne(services: map<int, Service>, it: ItemRequest)
    ensures Total(services, [it]) == LinePrice(services, it) * LineQty(it)
  {
    assert [it][..0] == [];
  }

  // ---------------------------------------------------------------------------------------
  // The database seen through one pooled connection

  class Database {
    /** Ids of `patients`. */
    var patients: set<int>
    var services: map<int, Service>
    var invoices: map<int, Invoice>
    /** `invoice_items`, in insertion order. */
    var items: seq<ItemRow>
    /** The next AUTO_INCREMENT value of each table; a rollback does not hand ids back. */
    var nextInvoiceId: int
    var nextItemId: int
    /** Connections taken from the pool and not yet released. */
    var connectionsInUse: nat
    /** The open transaction, if any: what to restore on rollback. */
    var transaction: Option<Snapshot>

    ghost predicate Valid()
      reads this
    {
      forall id :: id in invoices ==> id < nextInvoiceId
    }

    /** A pool over tables that already hold rows, with no connection taken out and no
        transaction open. */
    constructor (patients: set<int>, services: map<int, Service>, invoices: map<int, Invoice>,
                 items: seq<ItemRow>, nextInvoiceId: int, nextItemId: int)
      requires forall id :: id in invoices ==> id < nextInvoiceId
      ensures Valid()
      ensures this.patients == patients && this.services == services
      ensures this.invoices == invoices && this.items == items
      ensures this.nextInvoiceId == nextInvoiceId && this.nextItemId == nextItemId
      ensures connectionsInUse == 0 && transaction == None
    {
      this.patients := patients;
      this.services := services;
      this.invoices := invoices;
      this.items := items;
      this.nextInvoiceId := nextInvoiceId;
      this.nextItemId := nextItemId;
      connectionsInUse := 0;
      transaction := None;
    }

    /** `pool.getConnection()` */
    method GetConnection()
      modifies this`connectionsInUse
      ensures connectionsInUse == old(connectionsInUse) + 1
    {
      connectionsInUse := connectionsInUse + 1;
    }

    /** `conn.release()` */
    method Release()
      requires connectionsInUse > 0
      modifies this`connectionsInUse
      ensures connectionsInUse == old(connectionsInUse) - 1
    {
      connectionsInUse := connectionsInUse - 1;
    }

    /** `conn.beginTransaction()` */
    method BeginTransaction()
      modifies this`transaction
      ensures transaction == Some(Snapshot(invoices, items))
    {
      transaction := Some(Snapshot(invoices, items));
    }

    /** `conn.commit()`: the statements since the snapshot become permanent. */
    method Commit()
      modifies this`transaction
      ensures transaction == None
    {
      transaction := None;
    }

    /** `conn.rollback()`: the tables return to the snapshot; the id counters do not. */
    method Rollback()
      requires transaction.Some?
      requires Valid()
      requires forall id :: id in transaction.value.invoices ==> id < nextInvoiceId
      modifies this`invoices, this`items, this`transaction
      ensures Valid()
      ensures invoices == old(transaction.value.invoices) && items == old(transaction.value.items)
      ensures transaction == None
    {
      invoices := transaction.value.invoices;
      items := transaction.value.items;
      transaction := None;
    }

    /** `INSERT INTO invoices (patient_id, status, total)`: the new row's id, or the foreign-key
        error when the patient does not exist. */
    method InsertInvoice(patientId: int, status: string, total: int) returns (r: Result<int, DbError>)
      requires Valid()
      modifies this`invoices, this`nextInvoiceId
      ensures Valid()
      ensures patientId !in patients ==> r == Failure(UnknownPatient(patientId))
                                         && invoices == old(invoices) && nextInvoiceId == old(nextInvoiceId)
      ensures patientId in patients ==> r == Success(old(nextInvoiceId))
                                        && old(nextInvoiceId) !in old(invoices)
                                        && invoices == old(invoices)[old(nextInvoiceId) := Invoice(patientId, status, total)]
                                        && nextInvoiceId == old(nextInvoiceId) + 1
    {
      if patientId !in patients {
        return Failure(UnknownPatient(patientId));
      }
      r := Success(nextInvoiceId);
      invoices := invoices[nextInvoiceId := Invoice(patientId, status, total)];
      nextInvoiceId := nextInvoiceId + 1;
    }

    /** `SELECT price FROM services WHERE id = ?` */
    method SelectPrice(serviceId: int) returns (p: Option<int>)
      ensures p == CatalogPrice(services, serviceId)
    {
      p := CatalogPrice(services, serviceId);
    }

    /** `INSERT INTO invoice_items (invoice_id, service_id, quantity, price)`: appended with a
        fresh id, or rejected when the invoice or the service does not exist. */
    method InsertItem(invoiceId: int, serviceId: int, quantity: int, price: int) returns (r: Result<int, DbError>)
      requires Valid()
      modifies this`items, this`nextItemId
      ensures Valid()
      ensures invoiceId !in invoices ==> r == Failure(UnknownInvoice(invoiceId))
                                         && items == old(items) && nextItemId == old(nextItemId)
      ensures invoiceId in invoices && serviceId !in services ==>
                r == Failure(UnknownService(serviceId)) && items == old(items) && nextItemId == old(nextItemId)
      ensures invoiceId in invoices && serviceId in services ==>
                r == Success(old(nextItemId))
                && items == old(items) + [ItemRow(old(nextItemId), invoiceId, serviceId, quantity, price)]
                && nextItemId == old(nextItemId) + 1
    {
      if invoiceId !in invoices {
        return Failure(UnknownInvoice(invoiceId));
      }
      if serviceId !in services {
        return Failure(UnknownService(serviceId));
      }
      r := Success(nextItemId);
      items := items + [ItemRow(nextItemId, invoiceId, serviceId, quantity, price)];
      nextItemId := nextItemId + 1;
    }

    /** `UPDATE invoices SET total = ? WHERE id = ?` */
    method UpdateTotal(id: int, total: int)
      requires Valid()
      modifies this`invoices
      ensures Valid()
      ensures invoices == if id in old(invoices) then old(invoices)[id := old(invoices)[id].(total := total)] else old(invoices)
    {
      if id in invoices {
        invoices := invoices[id := invoices[id].(total := total)];
      }
    }
  }

  /** `getInvoice(id)`: the invoice row, or null. */
  function GetInvoice(db: Database, id: int): (r: Option<Invoice>)
    reads db
    ensures r.Some? <==> id in db.invoices
    ensures r.Some? ==> r.value == db.invoices[id]
  {
    if id in db.invoices then Some(db.invoices[id]) else None
  }

  /** A line of `itemsByInvoice`: the item row joined with its service's name. */
  datatype NamedItem = NamedItem(item: ItemRow, serviceName: string)

  /** `itemsByInvoice(invoiceId)` over a table of item rows: the rows of that invoice whose
      service exists, in table order, each with its service's name. */
  function NamedItems(rows: seq<ItemRow>, services: map<int, Service>, invoiceId: int): (r: seq<NamedItem>)
    ensures |r| <= |rows|
    ensures forall k :: 0 <= k < |r| ==> r[k].item in rows && r[k].item.invoiceId == invoiceId
                                         && r[k].item.serviceId in services
                                         && r[k].serviceName == services[r[k].item.serviceId].name
  {
    if rows == [] then []
    else
      var rest := NamedItems(rows[1..], services, invoiceId);
      var row := rows[0];
      if row.invoiceId == invoiceId && row.serviceId in services then
        [NamedItem(row, services[row.serviceId].name)] + rest
      else rest
  }

  /** No row of the invoice whose service exists is left out. */
  lemma {:induction false} NamedItemsComplete(rows: seq<ItemRow>, services: map<int, Service>, invoiceId: int, row: ItemRow)
    requires row in rows && row.invoiceId == invoiceId && row.serviceId in services
    ensures exists k :: 0 <= k < |NamedItems(rows, services, invoiceId)| && NamedItems(rows, services, invoiceId)[k].item == row
    decreases |rows|
  {
    var rest := NamedItems(rows[1..], services, invoiceId);
    var first := rows[0];
    if first == row {
      assert NamedItems(rows, services, invoiceId)[0].item == row;
    } else {
      assert row in rows[1..];
      NamedItemsComplete(rows[1..], services, invoiceId, row);
      var k :| 0 <= k < |rest| && rest[k].item == row;
      if first.invoiceId == invoiceId && first.serviceId in services {
        assert NamedItems(rows, services, invoiceId)[k + 1] == rest[k];
      } else {
        assert NamedItems(rows, services, invoiceId) == rest;
      }
    }
  }

  /** `itemsByInvoice` over the database's current tables. */
  function ItemsByInvoice(db: Database, invoiceId: int): (r: seq<NamedItem>)
    reads db
    ensures |r| <= |db.items|
    ensures forall k :: 0 <= k < |r| ==> r[k].item in db.items && r[k].item.invoiceId == invoiceId
                                         && r[k].item.serviceId in db.services
                                         && r[k].serviceName == db.services[r[k].item.serviceId].name
  {
    NamedItems(db.items, db.services, invoiceId)
  }

  // ---------------------------------------------------------------------------------------
  // createInvoice

  /** The loop of `createInvoice`: for each line in order, read the catalog price, work out
      price and quantity, add to the running total and insert the line's row. It stops at the
      first line the store rejects, after the rows before it were inserted. */
  method InsertLines(db: Database, invoiceId: int, items: seq<ItemRequest>) returns (r: Result<int, DbError>)
    requires db.Valid() && invoiceId in db.invoices
    modifies db`items, db`nextItemId
    ensures db.Valid()
    ensures r.Success? <==> FirstUnknownService(db.services, items).None?
    ensures r.Success? ==> && r.value == Total(db.services, items)
                           && db.items == old(db.items) + ItemRows(invoiceId, old(db.nextItemId), db.services, items)
                           && db.nextItemId == old(db.nextItemId) + |items|
    ensures r.Failure? ==> var k := FirstUnknownService(db.services, items).value;
                           && r.error == UnknownService(items[k].serviceId)
                           && db.items == old(db.items) + ItemRows(invoiceId, old(db.nextItemId), db.services, items[..k])
                           && db.nextItemId == old(db.nextItemId) + k
  {
    var total := 0;
    var i := 0;
    while i < |items|
      invariant 0 <= i <= |items|
      invariant db.Valid()
      invariant db.nextItemId == old(db.nextItemId) + i
      invariant db.items == old(db.items) + ItemRows(invoiceId, old(db.nextItemId), db.services, items[..i])
      invariant total == Total(db.services, items[..i])
      invariant forall j :: 0 <= j < i ==> items[j].serviceId in db.services
    {
      var it := items[i];
      var catalog := db.SelectPrice(it.serviceId);
      var price := if catalog.Some? && catalog.value != 0 then catalog.value
                   else if it.price.Some? && it.price.value != 0 then it.price.value
                   else 0;
      var qty := if it.quantity.Some? && it.quantity.value != 0 then it.quantity.value else 1;
      total := total + price * qty;
      var row := db.InsertItem(invoiceId, it.serviceId, qty, price);
      if row.Failure? {
        FirstUnknownAt(db.services, items, i);
        return Failure(row.error);
      }
      assert items[..i + 1][..i] == items[..i];
      i := i + 1;
    }
    assert items[..i] == items;
    FirstUnknownServiceMeaning(db.services, items);
    r := Success(total);
  }

  /** `createInvoice({patient_id, items})`. On success the invoice and one row per line, in
      line order, are permanent and the result carries the computed total; on a foreign-key
      failure nothing of the invoice remains and that error is returned. Either way the
      connection is back in the pool and no transaction is open. */
  method CreateInvoice(db: Database, patientId: int, items: seq<ItemRequest>) returns (r: Result<InvoiceSummary, DbError>)
    requires db.Valid() && db.transaction.None?
    modifies db
    ensures db.Valid()
    ensures db.connectionsInUse == old(db.connectionsInUse) && db.transaction.None?
    ensures db.patients == old(db.patients) && db.services == old(db.services)
    ensures r.Success? <==> patientId in db.patients && FirstUnknownService(db.services, items).None?
    ensures r.Success? ==>
              var id := old(db.nextInvoiceId);
              var total := Total(db.services, items);
              && r.value == InvoiceSummary(id, patientId, total, Paid)
              && id !in old(db.invoices)
              && db.invoices == old(db.invoices)[id := Invoice(patientId, Paid, total)]
              && db.items == old(db.items) + ItemRows(id, old(db.nextItemId), db.services, items)
              && db.nextInvoiceId == id + 1 && db.nextItemId == old(db.nextItemId) + |items|
    ensures r.Failure? ==> db.invoices == old(db.invoices) && db.items == old(db.items)
    ensures r.Failure? && patientId !in db.patients ==>
              r.error == UnknownPatient(patientId) && db.nextInvoiceId == old(db.nextInvoiceId) && db.nextItemId == old(db.nextItemId)
    ensures r.Failure? && patientId in db.patients ==>
              var k := FirstUnknownService(db.services, items).value;
              && r.error == UnknownService(items[k].serviceId)
              && db.nextInvoiceId == old(db.nextInvoiceId) + 1 && db.nextItemId == old(db.nextItemId) + k
  {
    db.GetConnection();
    db.BeginTransaction();
    var inserted := db.InsertInvoice(patientId, Paid, 0);
    if inserted.Failure? {
      db.Rollback();
      db.Release();
      return Failure(inserted.error);
    }
    var invoiceId := inserted.value;
    var lines := InsertLines(db, invoiceId, items);
    if lines.Failure? {
      db.Rollback();
      db.Release();
      return Failure(lines.error);
    }
    var total := lines.value;
    db.UpdateTotal(invoiceId, total);
    db.Commit();
    r := Success(InvoiceSummary(invoiceId, patientId, total, Paid));
    db.Release();
  }

  // ---------------------------------------------------------------------------------------
  // Examples

  /** Two units of a service priced 100 and one of a service priced 50 come to 250. */
  lemma TwoLinesExample(services: map<int, Service>, items: seq<ItemRequest>)
    requires services == map[1 := Service("Consulta", 100), 2 := Service("Laboratorio", 50)]
    requires items == [ItemRequest(1, Some(2), None), ItemRequest(2, None, None)]
    ensures Total(services, items) == 250
    ensures ItemRows(7, 1, services, items) == [ItemRow(1, 7, 1, 2, 100), ItemRow(2, 7, 2, 1, 50)]
  {
    assert items == [items[0]] + [items[1]];
    TotalOfOne(services, items[0]);
    TotalOfOne(services, items[1]);
    TotalAppend(services, [items[0]], [items[1]]);
  }

  /** A caller's price is used only when the catalog cannot price the service. */
  lemma CallerPriceIsAFallback(services: map<int, Service>, it: ItemRequest)
    requires it.price.Some? && it.price.value != 0
    ensures LinePrice(services, it) == (if it.serviceId in services && services[it.serviceId].price != 0
                                        then services[it.serviceId].price else it.price.value)
  {
  }
}
