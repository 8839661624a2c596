/**
 * The backend's tables as rows, and the read-side mappers of
 * lib/data-service.ts that turn rows into entities: `getProducts`
 * (missing numbers read as 0), `getInvoiceById` (header plus its items) and
 * `getStockMovements` (one product's movements, newest first).
 */
module Rows {
  import opened Wrappers
  import opened Calendar
  import opened Types

  /** A row of `products`; the numeric stock columns are nullable. */
  datatype ProductRow = ProductRow(
    id: Id,
    name: string,
    sku: Option<string>,
    price: int,
    unit: string,
    description: Option<string>,
    stockQuantity: Option<int>,
    minStockLevel: Option<int>,
    category: string)

  /** A row of `invoices`; `quotationId` is set only on invoices made from a quotation. */
  datatype InvoiceRow = InvoiceRow(
    id: Id,
    number: string,
    date: DateTime,
    dueDate: DateTime,
    customer: CustomerSnapshot,
    totals: Totals,
    status: InvoiceStatus,
    notes: Option<string>,
    quotationId: Option<Id>,
    createdAt: Timestamp)

  /** A row of `quotations`. */
  datatype QuotationRow = QuotationRow(
    id: Id,
    number: string,
    date: DateTime,
    dueDate: DateTime,
    customer: CustomerSnapshot,
    totals: Totals,
    status: QuotationStatus,
    notes: Option<string>,
    createdAt: Timestamp)

  /** A row of `invoice_items` or `quotation_items`: the owning document and the line. */
  datatype ItemRow = ItemRow(documentId: Id, line: LineItem)

  /** The row `createProduct` inserts: missing stock levels are written as 0, the category is fixed. */
  function NewProductRow(id: Id, p: ProductInput): ProductRow {
    ProductRow(id, p.name, p.sku, p.price, p.unit, p.description,
               Some(OrZero(p.stockQuantity)), Some(OrZero(p.minStockLevel)), "general")
  }

  /** One element of `getProducts`: a missing stock level or threshold reads as 0. */
  function ProductOf(row: ProductRow): Product {
    Product(row.id, row.name, row.sku, row.price, row.unit, row.description,
            OrZero(row.stockQuantity), OrZero(row.minStockLevel))
  }

  /** `getProducts` over the rows in the order the query returns them. */
  function ProductsOf(rows: seq<ProductRow>): (r: seq<Product>)
    ensures |r| == |rows|
    ensures forall i :: 0 <= i < |rows| ==> r[i].id == rows[i].id && r[i].name == rows[i].name
    ensures forall i :: 0 <= i < |rows| ==>
              && r[i].sku == rows[i].sku && r[i].price == rows[i].price
              && r[i].unit == rows[i].unit && r[i].description == rows[i].description
    ensures forall i :: 0 <= i < |rows| ==>
              r[i].stockQuantity == OrZero(rows[i].stockQuantity) && r[i].minStockLevel == OrZero(rows[i].minStockLevel)
  {
    seq(|rows|, i requires 0 <= i < |rows| => ProductOf(rows[i]))
  }

  /** A product written by `createProduct` reads back with its given fields and its missing numbers as 0. */
  lemma ProductReadsBack(id: Id, p: ProductInput)
    ensures ProductOf(NewProductRow(id, p))
            == Product(id, p.name, p.sku, p.price, p.unit, p.description,
                       OrZero(p.stockQuantity), OrZero(p.minStockLevel))
  {
  }

  /** The lines of one document, in table order. */
  function LinesOf(items: seq<ItemRow>, documentId: Id): (r: seq<LineItem>)
    ensures |r| <= |items|
  {
    if items == [] then []
    else
      var rest := LinesOf(items[..|items| - 1], documentId);
      var last := items[|items| - 1];
      if last.documentId == documentId then rest + [last.line] else rest
  }

  /** A line belongs to a document's lines exactly when the table holds it under that document. */
  lemma {:induction false} LinesOfMembers(items: seq<ItemRow>, documentId: Id)
    ensures forall l :: l in LinesOf(items, documentId) <==> ItemRow(documentId, l) in items
    decreases |items|
  {
    if items != [] {
      LinesOfMembers(items[..|items| - 1], documentId);
      assert items == items[..|items| - 1] + [items[|items| - 1]];
    }
  }

  /** Lines of a document spread over two parts of a table are the lines of each part, in order. */
  lemma {:induction false} LinesOfAppend(a: seq<ItemRow>, b: seq<ItemRow>, documentId: Id)
    ensures LinesOf(a + b, documentId) == LinesOf(a, documentId) + LinesOf(b, documentId)
    decreases |b|
  {
    if b == [] {
      assert a + b == a;
    } else {
      var b', last := b[..|b| - 1], b[|b| - 1];
      var tail := if last.documentId == documentId then [last.line] else [];
      LinesOfAppend(a, b', documentId);
      assert (a + b)[..|a + b| - 1] == a + b';
      assert (a + b)[|a + b| - 1] == last;
      calc {
        LinesOf(a + b, documentId);
        LinesOf(a + b', documentId) + tail;
        (LinesOf(a, documentId) + LinesOf(b', documentId)) + tail;
        { assert (LinesOf(a, documentId) + LinesOf(b', documentId)) + tail
                 == LinesOf(a, documentId) + (LinesOf(b', documentId) + tail); }
        LinesOf(a, documentId) + (LinesOf(b', documentId) + tail);
        LinesOf(a, documentId) + LinesOf(b, documentId);
      }
    }
  }

  /** The rows an item insert writes: every line of the document, under fresh ids from `firstId` on. */
  function StoredItems(lines: seq<LineItem>, documentId: Id, firstId: Id): (r: seq<ItemRow>)
    ensures |r| == |lines|
  {
    seq(|lines|, k requires 0 <= k < |lines| => ItemRow(documentId, lines[k].(id := firstId + k)))
  }

  /** The lines under consecutive fresh ids from `firstId` on. */
  function Renumbered(lines: seq<LineItem>, firstId: Id): seq<LineItem> {
    seq(|lines|, k requires 0 <= k < |lines| => lines[k].(id := firstId + k))
  }

  /** Reading a document's lines back from freshly stored items gives the lines, in order, with their new ids. */
  lemma {:induction false} StoredItemsReadBack(lines: seq<LineItem>, documentId: Id, firstId: Id)
    ensures LinesOf(StoredItems(lines, documentId, firstId), documentId) == Renumbered(lines, firstId)
    decreases |lines|
  {
    var s := StoredItems(lines, documentId, firstId);
    if lines != [] {
      var n := |lines| - 1;
      StoredItemsReadBack(lines[..n], documentId, firstId);
      assert s[..n] == StoredItems(lines[..n], documentId, firstId);
    }
  }

  /** A table whose rows all belong to documents numbered below `id` holds no line of document `id`. */
  lemma {:induction false} NoLinesOfNewDocument(items: seq<ItemRow>, id: Id)
    requires forall i :: 0 <= i < |items| ==> items[i].documentId < id
    ensures LinesOf(items, id) == []
    decreases |items|
  {
    if items != [] {
      NoLinesOfNewDocument(items[..|items| - 1], id);
    }
  }

  /** `getInvoiceById`: the header with its items; the withholding total is not read back. */
  function InvoiceOf(row: InvoiceRow, items: seq<ItemRow>): Invoice {
    Invoice(row.id, row.number, row.date, row.dueDate, row.customer, LinesOf(items, row.id),
            row.totals, None, row.status, row.notes, row.createdAt)
  }

  /** Movements in strictly increasing creation order, as a sequential backend appends them. */
  predicate Chronological(ms: seq<StockMovement>) {
    forall i, j :: 0 <= i < j < |ms| ==> ms[i].createdAt < ms[j].createdAt
  }

  /**
   * `getStockMovements(productId)`: the movements of one product ordered by
   * creation time, newest first. Over a chronological table this is the
   * product's movements in reverse table order.
   */
  function MovementsOf(ms: seq<StockMovement>, productId: Id): (r: seq<StockMovement>)
    ensures |r| <= |ms|
    ensures forall m :: m in r <==> m in ms && m.productId == productId
  {
    if ms == [] then []
    else
      var last := ms[|ms| - 1];
      assert ms == ms[..|ms| - 1] + [last];
      (if last.productId == productId then [last] else []) + MovementsOf(ms[..|ms| - 1], productId)
  }

  /** The history `getStockMovements` returns is newest first: creation times strictly decrease. */
  lemma {:induction false} MovementsNewestFirst(ms: seq<StockMovement>, productId: Id)
    requires Chronological(ms)
    ensures forall i, j :: 0 <= i < j < |MovementsOf(ms, productId)| ==>
              MovementsOf(ms, productId)[i].createdAt > MovementsOf(ms, productId)[j].createdAt
    decreases |ms|
  {
    if ms != [] {
      var init := ms[..|ms| - 1];
      var last := ms[|ms| - 1];
      assert Chronological(init);
      MovementsNewestFirst(init, productId);
      var rest := MovementsOf(init, productId);
      forall m | m in rest ensures m.createdAt < last.createdAt {
        var k :| 0 <= k < |init| && init[k] == m;
      }
    }
  }
}
