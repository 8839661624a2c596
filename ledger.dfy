/**
 * The document and stock ledger of lib/data-service.ts as a store whose
 * tables the operations update step by step: products, the append-only
 * stock movements, invoice and quotation headers and their item tables.
 * Backend failures are fault arguments; the clock (`new Date()`) and
 * `Math.random()` are arguments too.
 */
module Ledger {
  import opened Wrappers
  import opened Calendar
  import opened Types
  import opened Rows
  import opened StockLedger
  import opened Numbering

  /** The errors the operations throw. */
  datatype Failure =
    | ProductInsertFailed
    | ProductDeleteFailed
    | MovementInsertFailed
    | HeaderInsertFailed
    | ItemsInsertFailed
    | QuotationFetchFailed
    | InvoiceNotFound

  /**
   * Faults of document creation: the header insert, the items insert, and
   * the compensating delete of the header (whose error the code ignores).
   */
  datatype DocumentFaults = DocumentFaults(headerFails: bool, itemsFail: bool, rollbackFails: bool)

  /**
   * Faults of quotation conversion: reading the quotation with its items,
   * inserting the invoice header and its items, and updating the
   * quotation's status (whose error the code ignores).
   */
  datatype ConversionFaults = ConversionFaults(fetchFails: bool, headerFails: bool, itemsFail: bool, statusUpdateFails: bool)

  /** The header row `createInvoice` inserts: the given fields, no quotation link. */
  function InvoiceHeader(invoice: Invoice, id: Id): InvoiceRow {
    InvoiceRow(id, invoice.number, invoice.date, invoice.dueDate, invoice.customer, invoice.totals,
               invoice.status, invoice.notes, None, id)
  }

  /** The header row `createQuotation` inserts. */
  function QuotationHeader(quotation: Quotation, id: Id): QuotationRow {
    QuotationRow(id, quotation.number, quotation.date, quotation.dueDate, quotation.customer,
                 quotation.totals, quotation.status, quotation.notes, id)
  }

  /** The payment term of an invoice made from a quotation, in calendar days. */
  const PaymentTermDays: nat := 30

  /**
   * The due date conversion sets: a copy of the current time moved forward
   * by the payment term with `setDate(getDate() + 30)`, rolling over month
   * and year ends, at the same time of day.
   */
  function DueDate(now: DateTime): (due: DateTime)
    requires Calendar.Valid(now)
    ensures Calendar.Valid(due) && due.msOfDay == now.msOfDay
    ensures DayNumber(due) == DayNumber(now) + PaymentTermDays
  {
    AddDaysCountsDays(now, PaymentTermDays);
    AddDays(now, PaymentTermDays)
  }

  /**
   * The invoice header that conversion inserts: the generated number, dated
   * now, the due date, customer snapshot and all four totals copied from the
   * quotation, status `issued`, linked back to the quotation. The quotation's
   * notes are not copied.
   */
  function ConvertedHeader(q: QuotationRow, quotationId: Id, id: Id, now: DateTime, number: string, due: DateTime)
    : InvoiceRow
  {
    InvoiceRow(id, number, now, due, q.customer, q.totals, Issued, None, Some(quotationId), id)
  }

  /**
   * Conversion copies quotation lines without their product ids: every other
   * field is kept, and no copied line is linked to a product any more.
   */
  function WithoutProducts(lines: seq<LineItem>): (r: seq<LineItem>)
    ensures |r| == |lines|
    ensures forall k :: 0 <= k < |lines| ==> r[k].(productId := lines[k].productId) == lines[k]
    ensures forall k :: 0 <= k < |r| ==> r[k].productId.None?
  {
    seq(|lines|, k requires 0 <= k < |lines| => lines[k].(productId := None))
  }

  class Store {
    var products: map<Id, ProductRow>
    var movements: seq<StockMovement>
    var invoices: map<Id, InvoiceRow>
    var invoiceItems: seq<ItemRow>
    var quotations: map<Id, QuotationRow>
    var quotationItems: seq<ItemRow>
    /** The backend's id generator, also its clock for creation times. */
    var nextId: nat

    /** The stock ledger part of the store, on which the ledger's specification is stated. */
    function StockView(): Stock
      reads this
    {
      Stock(products, movements, nextId)
    }

    /** Document keys are their rows' ids and, like the items' owners, lie below the id counter. */
    ghost predicate DocumentsValid()
      reads this
    {
      && (forall i :: i in invoices ==> i < nextId && invoices[i].id == i)
      && (forall q :: q in quotations ==> q < nextId && quotations[q].id == q)
      && (forall k :: 0 <= k < |invoiceItems| ==> invoiceItems[k].documentId < nextId)
      && (forall k :: 0 <= k < |quotationItems| ==> quotationItems[k].documentId < nextId)
    }

    ghost predicate Valid()
      reads this
    {
      StockValid(StockView()) && DocumentsValid()
    }

    constructor ()
      ensures Valid()
      ensures products == map[] && movements == [] && invoices == map[] && invoiceItems == []
      ensures quotations == map[] && quotationItems == [] && nextId == 0
    {
      products, movements := map[], [];
      invoices, invoiceItems := map[], [];
      quotations, quotationItems := map[], [];
      nextId := 0;
    }

    /**
     * `getProducts`: the products in the given order, their fields copied and
     * a missing stock level or threshold read as 0.
     */
    function GetProducts(order: seq<Id>): (r: seq<Product>)
      reads this
      requires forall k :: 0 <= k < |order| ==> order[k] in products
      ensures |r| == |order|
      ensures forall k :: 0 <= k < |order| ==>
                && r[k].id == products[order[k]].id && r[k].name == products[order[k]].name
                && r[k].sku == products[order[k]].sku && r[k].price == products[order[k]].price
                && r[k].unit == products[order[k]].unit && r[k].description == products[order[k]].description
      ensures forall k :: 0 <= k < |order| ==>
                && r[k].stockQuantity == CurrentStock(products, order[k])
                && r[k].minStockLevel == OrZero(products[order[k]].minStockLevel)
    {
      var rows := products;
      ProductsOf(seq(|order|, k requires 0 <= k < |order| => rows[order[k]]))
    }

    /** `getStockMovements(productId)`: the product's movements, newest first. */
    function GetStockMovements(productId: Id): (r: seq<StockMovement>)
      reads this
      requires Valid()
      ensures forall m :: m in r <==> m in movements && m.productId == productId
      ensures forall i, j :: 0 <= i < j < |r| ==> r[i].createdAt > r[j].createdAt
    {
      MovementsNewestFirst(movements, productId);
      MovementsOf(movements, productId)
    }

    /** `getInvoiceById(id)`: the header with its items, or an error when there is no such invoice. */
    function GetInvoiceById(id: Id): (r: Result<Invoice, Failure>)
      reads this
      requires Valid()
      ensures r.Success? <==> id in invoices
      ensures r.Success? ==>
                && r.value.id == id && r.value.number == invoices[id].number
                && r.value.items == LinesOf(invoiceItems, id) && r.value.whtTotal == None
      ensures r.Success? ==>
                && r.value.date == invoices[id].date && r.value.dueDate == invoices[id].dueDate
                && r.value.customer == invoices[id].customer && r.value.totals == invoices[id].totals
                && r.value.status == invoices[id].status && r.value.notes == invoices[id].notes
                && r.value.createdAt == invoices[id].createdAt
    {
      if id in invoices then Success(InvoiceOf(invoices[id], invoiceItems)) else Failure(InvoiceNotFound)
    }

    /**
     * `recordStockMovement`: append the movement row; if that insert fails,
     * throw with nothing changed. Then, for `in` and `out` only, add
     * `quantity * multiplier` to the product's stock through the increment
     * procedure, or, if that errors, by reading the level (a failed read
     * counts as 0) and writing back the sum, ignoring errors of both.
     */
    method RecordStockMovement(productId: Id, kind: MovementType, quantity: int, referenceId: Option<Id>,
                               notes: MovementNote, f: MovementFaults) returns (r: Outcome<Failure>)
      requires Valid()
      modifies this`products, this`movements, this`nextId
      ensures Valid()
      ensures StockView() == Record(old(StockView()), MovementRequest(productId, kind, quantity, referenceId, notes), f).0
      ensures r == if f.insertFails then Fail(MovementInsertFailed) else Pass
    {
      ghost var req := MovementRequest(productId, kind, quantity, referenceId, notes);
      ghost var before := StockView();
      if f.insertFails {
        return Fail(MovementInsertFailed);
      }
      movements := movements + [StockMovement(nextId, productId, kind, quantity, referenceId, notes, nextId)];
      nextId := nextId + 1;
      var multiplier := Multiplier(kind);
      if multiplier != 0 {
        WriteStockLevel(productId, quantity * multiplier, f.write);
      }
      assert StockView() == Record(before, req, f).0;
      RecordKeepsValid(before, req, f);
      r := Pass;
    }

    /**
     * The stock update of `recordStockMovement`: the increment procedure adds
     * `delta` to the product's level; when it errors, the code reads the level
     * (a failed read counts as 0) and writes back the sum, ignoring errors of
     * both. A missing product is left missing.
     */
    method WriteStockLevel(productId: Id, delta: int, w: StockWrite)
      modifies this`products
      ensures products == WriteStock(old(products), productId, delta, w)
    {
      match w {
        case Rpc =>
          if productId in products {
            var row := products[productId];
            products := products[productId := row.(stockQuantity := Some(OrZero(row.stockQuantity) + delta))];
          }
        case Fallback(selectFails, updateFails) =>
          var current := 0;
          if !selectFails && productId in products {
            current := OrZero(products[productId].stockQuantity);
          }
          var newStock := current + delta;
          if !updateFails && productId in products {
            products := products[productId := products[productId].(stockQuantity := Some(newStock))];
          }
      }
    }

    /** `adjustStock`: a manual movement with no document reference. */
    method AdjustStock(productId: Id, kind: MovementType, quantity: int, notes: string, f: MovementFaults)
      returns (r: Outcome<Failure>)
      requires Valid()
      modifies this`products, this`movements, this`nextId
      ensures Valid()
      ensures StockView() == Record(old(StockView()), MovementRequest(productId, kind, quantity, None, Manual(notes)), f).0
      ensures r == if f.insertFails then Fail(MovementInsertFailed) else Pass
    {
      r := RecordStockMovement(productId, kind, quantity, None, Manual(notes), f);
    }

    /**
     * The loop both invoice paths run after the items are stored: for each
     * line that carries a product id, in order, an `out` movement of the
     * line's quantity referring to the invoice; the first failure stops the
     * loop and is thrown. `s0` names the stock state the loop starts from.
     */
    method RecordSaleMovements(lines: seq<LineItem>, invoiceId: Id, note: MovementNote, faults: seq<MovementFaults>,
                               ghost s0: Stock)
      returns (r: Outcome<Failure>)
      requires Valid() && StockView() == s0
      modifies this`products, this`movements, this`nextId
      ensures Valid()
      ensures StockView() == RecordAll(s0, SaleRequests(lines, invoiceId, note), faults).0
      ensures r == if RecordAll(s0, SaleRequests(lines, invoiceId, note), faults).1
                   then Pass else Fail(MovementInsertFailed)
    {
      var i := 0;
      var calls := 0;
      while i < |lines|
        invariant 0 <= i <= |lines|
        invariant Valid()
        invariant calls == |SaleRequests(lines[..i], invoiceId, note)|
        invariant StockView() == RecordAll(s0, SaleRequests(lines[..i], invoiceId, note), faults).0
        invariant RecordAll(s0, SaleRequests(lines[..i], invoiceId, note), faults).1
      {
        ghost var done := SaleRequests(lines[..i], invoiceId, note);
        SaleRequestsStep(lines, i, invoiceId, note);
        var line := lines[i];
        if line.productId.Some? {
          RecordAllSnoc(s0, done, MovementRequest(line.productId.value, Out, line.quantity, Some(invoiceId), note), faults);
          var o := RecordStockMovement(line.productId.value, Out, line.quantity, Some(invoiceId), note,
                                       FaultAt(faults, calls));
          if o.Fail? {
            SaleStopsAtFailure(s0, lines, i + 1, invoiceId, note, faults);
            return o;
          }
          calls := calls + 1;
        }
        i := i + 1;
      }
      assert lines[..i] == lines;
      r := Pass;
    }

    /**
     * The item insert of both invoice paths: the lines go into the item table
     * under the new invoice, each with a fresh id.
     */
    method InsertInvoiceItems(id: Id, lines: seq<LineItem>)
      requires Valid() && nextId == id + 1
      requires forall k :: 0 <= k < |invoiceItems| ==> invoiceItems[k].documentId < id
      modifies this`invoiceItems, this`nextId
      ensures Valid()
      ensures invoiceItems == old(invoiceItems) + StoredItems(lines, id, id + 1)
      ensures nextId == id + 1 + |lines|
    {
      invoiceItems := invoiceItems + StoredItems(lines, id, nextId);
      nextId := nextId + |lines|;
    }

    /**
     * `createInvoice`: insert the header; if that fails, throw with nothing
     * changed. Insert the items; if that fails, delete the header again and
     * throw, recording no movement. Otherwise record one `out` movement per
     * line that carries a product id and return the new invoice's id.
     */
    method CreateInvoice(invoice: Invoice, f: DocumentFaults, faults: seq<MovementFaults>)
      returns (r: Result<Id, Failure>)
      requires Valid()
      modifies this`invoices, this`invoiceItems, this`products, this`movements, this`nextId
      ensures Valid()
      ensures f.headerFails ==> r == Failure(HeaderInsertFailed) && unchanged(this)
      ensures !f.headerFails && f.itemsFail ==>
                && r == Failure(ItemsInsertFailed)
                && invoices == (if f.rollbackFails then old(invoices)[old(nextId) := InvoiceHeader(invoice, old(nextId))]
                                else old(invoices))
                && invoiceItems == old(invoiceItems)
                && products == old(products) && movements == old(movements)
      ensures !f.headerFails && !f.itemsFail ==>
                var id := old(nextId);
                var sale := RecordAll(Stock(old(products), old(movements), id + 1 + |invoice.items|),
                                      SaleRequests(invoice.items, id, InvoiceSale(invoice.number)), faults);
                && id !in old(invoices)
                && invoices == old(invoices)[id := InvoiceHeader(invoice, id)]
                && invoiceItems == old(invoiceItems) + StoredItems(invoice.items, id, id + 1)
                && StockView() == sale.0
                && r == (if sale.1 then Success(id) else Failure(MovementInsertFailed))
    {
      if f.headerFails {
        return Failure(HeaderInsertFailed);
      }
      var id := nextId;
      invoices := invoices[id := InvoiceHeader(invoice, id)];
      nextId := nextId + 1;
      if f.itemsFail {
        if !f.rollbackFails {
          invoices := invoices - {id};
        }
        return Failure(ItemsInsertFailed);
      }
      InsertInvoiceItems(id, invoice.items);
      var o := RecordSaleMovements(invoice.items, id, InvoiceSale(invoice.number), faults,
                                   Stock(old(products), old(movements), id + 1 + |invoice.items|));
      r := if o.Fail? then Failure(o.error) else Success(id);
    }

    /**
     * `createQuotation`: the same header, items and compensating delete as
     * `createInvoice`, and no stock effect at all.
     */
    method CreateQuotation(quotation: Quotation, f: DocumentFaults) returns (r: Result<Id, Failure>)
      requires Valid()
      modifies this`quotations, this`quotationItems, this`nextId
      ensures Valid()
      ensures products == old(products) && movements == old(movements)
      ensures invoices == old(invoices) && invoiceItems == old(invoiceItems)
      ensures f.headerFails ==> r == Failure(HeaderInsertFailed) && unchanged(this)
      ensures !f.headerFails && f.itemsFail ==>
                && r == Failure(ItemsInsertFailed)
                && quotations == (if f.rollbackFails then old(quotations)[old(nextId) := QuotationHeader(quotation, old(nextId))]
                                  else old(quotations))
                && quotationItems == old(quotationItems)
      ensures !f.headerFails && !f.itemsFail ==>
                var id := old(nextId);
                && r == Success(id)
                && id !in old(quotations)
                && quotations == old(quotations)[id := QuotationHeader(quotation, id)]
                && quotationItems == old(quotationItems) + StoredItems(quotation.items, id, id + 1)
    {
      if f.headerFails {
        return Failure(HeaderInsertFailed);
      }
      var id := nextId;
      quotations := quotations[id := QuotationHeader(quotation, id)];
      nextId := nextId + 1;
      if f.itemsFail {
        if !f.rollbackFails {
          quotations := quotations - {id};
        }
        return Failure(ItemsInsertFailed);
      }
      quotationItems := quotationItems + StoredItems(quotation.items, id, nextId);
      nextId := nextId + |quotation.items|;
      r := Success(id);
    }

    /**
     * The header insert of conversion: the converted header goes in under
     * the next id, due one payment term after `now`.
     */
    method InsertConvertedHeader(q: QuotationRow, quotationId: Id, now: DateTime, number: string) returns (id: Id)
      requires Valid() && Calendar.Valid(now)
      modifies this`invoices, this`nextId
      ensures Valid()
      ensures id == old(nextId) && nextId == id + 1 && id !in old(invoices) && id in invoices
      ensures var due := invoices[id].dueDate;
              && Calendar.Valid(due) && due.msOfDay == now.msOfDay
              && DayNumber(due) == DayNumber(now) + PaymentTermDays
              && invoices == old(invoices)[id := ConvertedHeader(q, quotationId, id, now, number, due)]
    {
      var dueDate := DueDate(now);
      id := nextId;
      invoices := invoices[id := ConvertedHeader(q, quotationId, id, now, number, dueDate)];
      nextId := nextId + 1;
    }

    /**
     * The second half of conversion's document part: the quotation's lines go
     * in under the new invoice without their product ids, then the quotation
     * is marked `invoiced` unless that update fails.
     */
    method CopyConvertedLines(id: Id, quotationId: Id, lines: seq<LineItem>, statusUpdateFails: bool)
      requires Valid() && nextId == id + 1 && quotationId in quotations
      requires forall k :: 0 <= k < |invoiceItems| ==> invoiceItems[k].documentId < id
      modifies this`invoiceItems, this`quotations, this`nextId
      ensures Valid()
      ensures invoiceItems == old(invoiceItems) + StoredItems(WithoutProducts(lines), id, id + 1)
      ensures nextId == id + 1 + |lines|
      ensures quotations == if statusUpdateFails then old(quotations)
                            else old(quotations)[quotationId := old(quotations[quotationId]).(status := Invoiced)]
    {
      InsertInvoiceItems(id, WithoutProducts(lines));
      MarkInvoiced(quotationId, statusUpdateFails);
    }

    /** The status update of conversion: the quotation becomes `invoiced`, unless the update fails. */
    method MarkInvoiced(quotationId: Id, fails: bool)
      requires Valid() && quotationId in quotations
      modifies this`quotations
      ensures Valid()
      ensures quotations == if fails then old(quotations)
                            else old(quotations)[quotationId := old(quotations[quotationId]).(status := Invoiced)]
    {
      if !fails {
        quotations := quotations[quotationId := quotations[quotationId].(status := Invoiced)];
      }
    }

    /**
     * The document part of conversion, once the quotation is read: insert a
     * new `issued` invoice copying its customer and totals; insert copies of
     * its lines without product ids (a failure here throws and leaves the
     * header in place); mark the quotation `invoiced` (an error is ignored).
     */
    method ConvertDocuments(quotationId: Id, now: DateTime, number: string, f: ConversionFaults)
      returns (r: Result<Id, Failure>)
      requires Valid() && Calendar.Valid(now) && quotationId in quotations
      modifies this`invoices, this`invoiceItems, this`quotations, this`nextId
      ensures Valid()
      ensures f.headerFails ==> r == Failure(HeaderInsertFailed) && unchanged(this)
      ensures !f.headerFails ==>
                var id := old(nextId);
                && id !in old(invoices) && id in invoices
                && var due := invoices[id].dueDate;
                && Calendar.Valid(due) && due.msOfDay == now.msOfDay
                && DayNumber(due) == DayNumber(now) + PaymentTermDays
                && invoices == old(invoices)[id := ConvertedHeader(old(quotations[quotationId]), quotationId, id, now,
                                                                   number, due)]
      ensures !f.headerFails && f.itemsFail ==>
                && r == Failure(ItemsInsertFailed)
                && invoiceItems == old(invoiceItems) && quotations == old(quotations) && nextId == old(nextId) + 1
      ensures !f.headerFails && !f.itemsFail ==>
                var id := old(nextId);
                var lines := LinesOf(old(quotationItems), quotationId);
                && r == Success(id)
                && invoiceItems == old(invoiceItems) + StoredItems(WithoutProducts(lines), id, id + 1)
                && nextId == id + 1 + |lines|
                && quotations == (if f.statusUpdateFails then old(quotations)
                                  else old(quotations)[quotationId := old(quotations[quotationId]).(status := Invoiced)])
    {
      if f.headerFails {
        return Failure(HeaderInsertFailed);
      }
      var q := quotations[quotationId];
      var lines := LinesOf(quotationItems, quotationId);
      var id := InsertConvertedHeader(q, quotationId, now, number);
      if f.itemsFail {
        return Failure(ItemsInsertFailed);
      }
      CopyConvertedLines(id, quotationId, lines, f.statusUpdateFails);
      r := Success(id);
    }

    /**
     * `convertQuotationToInvoice`: read the quotation and its items, then
     * the document part above with the generated number, then deduct stock
     * for the quotation lines that carry a product id. The quotation's prior
     * status is not examined. The ghost results name the quotation's lines
     * as read and the generated invoice number.
     */
    method ConvertQuotationToInvoice(quotationId: Id, now: DateTime, random: Draw, f: ConversionFaults,
                                     faults: seq<MovementFaults>)
      returns (r: Result<Id, Failure>, ghost lines: seq<LineItem>, ghost number: string)
      requires Valid() && Calendar.Valid(now)
      modifies this`invoices, this`invoiceItems, this`quotations, this`products, this`movements, this`nextId
      ensures Valid()
      ensures lines == LinesOf(old(quotationItems), quotationId) && number == InvoiceNumber(now, random)
      ensures f.fetchFails || quotationId !in old(quotations) ==> r == Failure(QuotationFetchFailed) && unchanged(this)
      ensures !f.fetchFails && quotationId in old(quotations) && f.headerFails ==>
                r == Failure(HeaderInsertFailed) && unchanged(this)
      ensures !f.fetchFails && quotationId in old(quotations) && !f.headerFails ==>
                var id := old(nextId);
                && id !in old(invoices) && id in invoices
                && var due := invoices[id].dueDate;
                && Calendar.Valid(due) && due.msOfDay == now.msOfDay
                && DayNumber(due) == DayNumber(now) + PaymentTermDays
                && invoices == old(invoices)[id := ConvertedHeader(old(quotations[quotationId]), quotationId, id, now,
                                                                   number, due)]
      ensures !f.fetchFails && quotationId in old(quotations) && !f.headerFails && f.itemsFail ==>
                && r == Failure(ItemsInsertFailed)
                && invoiceItems == old(invoiceItems) && quotations == old(quotations)
                && products == old(products) && movements == old(movements)
      ensures !f.fetchFails && quotationId in old(quotations) && !f.headerFails && !f.itemsFail ==>
                var id := old(nextId);
                && invoiceItems == old(invoiceItems) + StoredItems(WithoutProducts(lines), id, id + 1)
                && quotations == (if f.statusUpdateFails then old(quotations)
                                  else old(quotations)[quotationId := old(quotations[quotationId]).(status := Invoiced)])
      ensures !f.fetchFails && quotationId in old(quotations) && !f.headerFails && !f.itemsFail ==>
                var id := old(nextId);
                var sale := RecordAll(Stock(old(products), old(movements), id + 1 + |lines|),
                                      SaleRequests(lines, id, ConvertedSale(number, old(quotations[quotationId]).number)),
                                      faults);
                && StockView() == sale.0
                && r == (if sale.1 then Success(id) else Failure(MovementInsertFailed))
    {
      lines, number := LinesOf(quotationItems, quotationId), InvoiceNumber(now, random);
      if f.fetchFails || quotationId !in quotations {
        r := Failure(QuotationFetchFailed);
        return;
      }
      var q := quotations[quotationId];
      var items := LinesOf(quotationItems, quotationId);
      var invoiceNumber := InvoiceNumber(now, random);
      var id := nextId;
      var d := ConvertDocuments(quotationId, now, invoiceNumber, f);
      if d.Failure? {
        r := d;
        return;
      }
      var o := RecordSaleMovements(items, id, ConvertedSale(invoiceNumber, q.number), faults,
                                   Stock(old(products), old(movements), old(nextId) + 1 + |lines|));
      r := if o.Fail? then Failure(o.error) else Success(id);
    }

    /**
     * `createProduct`: insert the row with `stock_quantity` set to the given
     * quantity (missing is 0); if that insert fails, throw with nothing
     * changed. Then, when the given quantity is positive, also record an
     * `in` movement of it. The returned row is the inserted one.
     */
    method CreateProduct(input: ProductInput, insertFails: bool, f: MovementFaults)
      returns (r: Result<ProductRow, Failure>)
      requires Valid()
      modifies this`products, this`movements, this`nextId
      ensures Valid()
      ensures insertFails ==> r == Failure(ProductInsertFailed) && unchanged(this)
      ensures !insertFails ==>
                var id := old(nextId);
                var created := OpenProduct(old(StockView()), NewProductRow(id, input), OrZero(input.stockQuantity), f);
                && id !in old(products)
                && StockView() == created.0
                && r == (if created.1 then Success(NewProductRow(id, input)) else Failure(MovementInsertFailed))
    {
      ghost var before := StockView();
      if insertFails {
        return Failure(ProductInsertFailed);
      }
      var id := nextId;
      var row := NewProductRow(id, input);
      products := products[id := row];
      nextId := nextId + 1;
      OpenProductKeepsValid(before, row, OrZero(input.stockQuantity), f);
      assert StockView() == Seed(before, row);
      if input.stockQuantity.Some? && input.stockQuantity.value > 0 {
        var o := RecordStockMovement(id, In, input.stockQuantity.value, None, InitialStock, f);
        r := if o.Fail? then Failure(MovementInsertFailed) else Success(row);
      } else {
        r := Success(row);
      }
    }

    /**
     * The evidently intended `createProduct`: insert the row with a level of
     * 0 and let the `in` movement alone bring it to the starting quantity,
     * so the cached level equals the movement log's net from the start.
     */
    method CreateProductCorrected(input: ProductInput, insertFails: bool, f: MovementFaults)
      returns (r: Result<ProductRow, Failure>)
      requires Valid()
      modifies this`products, this`movements, this`nextId
      ensures Valid()
      ensures insertFails ==> r == Failure(ProductInsertFailed) && unchanged(this)
      ensures !insertFails ==>
                var id := old(nextId);
                var row := NewProductRow(id, input.(stockQuantity := Some(0)));
                var created := OpenProduct(old(StockView()), row, OrZero(input.stockQuantity), f);
                && id !in old(products)
                && StockView() == created.0
                && r == (if created.1 then Success(row) else Failure(MovementInsertFailed))
    {
      ghost var before := StockView();
      if insertFails {
        return Failure(ProductInsertFailed);
      }
      var id := nextId;
      var row := NewProductRow(id, input.(stockQuantity := Some(0)));
      products := products[id := row];
      nextId := nextId + 1;
      OpenProductKeepsValid(before, row, OrZero(input.stockQuantity), f);
      assert StockView() == Seed(before, row);
      if input.stockQuantity.Some? && input.stockQuantity.value > 0 {
        var o := RecordStockMovement(id, In, input.stockQuantity.value, None, InitialStock, f);
        r := if o.Fail? then Failure(MovementInsertFailed) else Success(row);
      } else {
        r := Success(row);
      }
    }

    /**
     * `deleteProduct`: remove the product's row (no row is no error). The
     * movement history is kept and still names the product.
     */
    method DeleteProduct(id: Id, deleteFails: bool) returns (r: Outcome<Failure>)
      requires Valid()
      modifies this`products
      ensures Valid()
      ensures movements == old(movements) && nextId == old(nextId)
      ensures deleteFails ==> r == Fail(ProductDeleteFailed) && products == old(products)
      ensures !deleteFails ==> r == Pass && products == old(products) - {id}
    {
      if deleteFails {
        return Fail(ProductDeleteFailed);
      }
      products := products - {id};
      r := Pass;
    }
  }

  /** Items appended for a new document, whose id no earlier item row names, read back as its renumbered lines. */
  lemma ReadBackNewDocument(items: seq<ItemRow>, lines: seq<LineItem>, id: Id)
    requires forall k :: 0 <= k < |items| ==> items[k].documentId < id
    ensures LinesOf(items + StoredItems(lines, id, id + 1), id) == Renumbered(lines, id + 1)
  {
    NoLinesOfNewDocument(items, id);
    LinesOfAppend(items, StoredItems(lines, id, id + 1), id);
    StoredItemsReadBack(lines, id, id + 1);
  }

  /**
   * The lines of an invoice made by conversion read back without product
   * ids, so a sale loop over the invoice's own lines would issue no
   * movement: the stock deduction of conversion comes from the quotation's
   * lines alone.
   */
  lemma ConvertedLinesUnlinked(items: seq<ItemRow>, lines: seq<LineItem>, id: Id, note: MovementNote)
    requires forall k :: 0 <= k < |items| ==> items[k].documentId < id
    ensures var stored := LinesOf(items + StoredItems(WithoutProducts(lines), id, id + 1), id);
            && |stored| == |lines|
            && (forall k :: 0 <= k < |stored| ==> stored[k] == lines[k].(productId := None, id := id + 1 + k))
            && SaleRequests(stored, id, note) == []
  {
    ReadBackNewDocument(items, WithoutProducts(lines), id);
    var stored := LinesOf(items + StoredItems(WithoutProducts(lines), id, id + 1), id);
    UnlinkedLinesIssueNoSales(stored, id, note);
  }

  /**
   * Nothing stops a quotation from being converted twice: its lines are
   * still there after the first conversion, and a second sale run over them
   * deducts the sold quantities again, whatever happened to the documents
   * in between.
   */
  lemma ConvertingTwiceDeductsTwice(s: Stock, lines: seq<LineItem>, first: Id, second: Id,
                                    note1: MovementNote, note2: MovementNote,
                                    faults1: seq<MovementFaults>, faults2: seq<MovementFaults>, between: Stock, p: Id)
    requires NoInsertFails(faults1, |SaleRequests(lines, first, note1)|) && AllWritesApply(faults1)
    requires NoInsertFails(faults2, |SaleRequests(lines, second, note2)|) && AllWritesApply(faults2)
    requires between.products == RecordAll(s, SaleRequests(lines, first, note1), faults1).0.products
    requires p in s.products
    ensures CurrentStock(RecordAll(between, SaleRequests(lines, second, note2), faults2).0.products, p)
            == CurrentStock(s.products, p) - 2 * SoldQuantity(lines, p)
  {
    SaleStockEffect(s, lines, first, note1, faults1, p);
    RecordAllShape(s, SaleRequests(lines, first, note1), faults1);
    SaleStockEffect(between, lines, second, note2, faults2, p);
  }
}
