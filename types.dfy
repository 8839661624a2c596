/**
 * The application's entities (types/index.ts), with the fields that
 * lib/data-service.ts reads and writes. Ids that the backend generates are
 * natural numbers; the customer snapshot and the four document totals, which
 * quotations and invoices share field for field, are grouped into records of
 * their own. Money and quantities are integers in the smallest unit.
 */
module Types {
  import opened Wrappers
  import opened Calendar

  type Id = nat

  /** Creation timestamps; in this sequential model the backend's clock ticks once per inserted row. */
  type Timestamp = nat

  /** The five invoice states. */
  datatype InvoiceStatus = Draft | Issued | Paid | Overdue | Cancelled

  /** The six quotation states; `Invoiced` exists only here. */
  datatype QuotationStatus = Draft | Sent | Accepted | Rejected | Invoiced | Expired

  /** The text stored in the `status` column of `invoices`. */
  function InvoiceStatusName(s: InvoiceStatus): string {
    match s
    case Draft => "draft"
    case Issued => "issued"
    case Paid => "paid"
    case Overdue => "overdue"
    case Cancelled => "cancelled"
  }

  /** The text stored in the `status` column of `quotations`. */
  function QuotationStatusName(s: QuotationStatus): string {
    match s
    case Draft => "draft"
    case Sent => "sent"
    case Accepted => "accepted"
    case Rejected => "rejected"
    case Invoiced => "invoiced"
    case Expired => "expired"
  }

  /** Reads an invoice status; exactly the five names are accepted. */
  function ParseInvoiceStatus(t: string): (r: Option<InvoiceStatus>)
    ensures r.Some? ==> InvoiceStatusName(r.value) == t
    ensures r.None? ==> forall s :: InvoiceStatusName(s) != t
  {
    if t == "draft" then Some(InvoiceStatus.Draft)
    else if t == "issued" then Some(Issued)
    else if t == "paid" then Some(Paid)
    else if t == "overdue" then Some(Overdue)
    else if t == "cancelled" then Some(Cancelled)
    else None
  }

  /** Reads a quotation status; exactly the six names are accepted. */
  function ParseQuotationStatus(t: string): (r: Option<QuotationStatus>)
    ensures r.Some? ==> QuotationStatusName(r.value) == t
    ensures r.None? ==> forall s :: QuotationStatusName(s) != t
  {
    if t == "draft" then Some(QuotationStatus.Draft)
    else if t == "sent" then Some(Sent)
    else if t == "accepted" then Some(Accepted)
    else if t == "rejected" then Some(Rejected)
    else if t == "invoiced" then Some(Invoiced)
    else if t == "expired" then Some(Expired)
    else None
  }

  /** "invoiced" names a quotation state and no invoice state; the other invoice names are distinct too. */
  lemma InvoicedIsQuotationOnly()
    ensures ParseQuotationStatus("invoiced") == Some(Invoiced)
    ensures ParseInvoiceStatus("invoiced") == None
    ensures forall s :: ParseInvoiceStatus(InvoiceStatusName(s)) == Some(s)
    ensures forall s :: ParseQuotationStatus(QuotationStatusName(s)) == Some(s)
  {
  }

  /**
   * One line of a quotation or an invoice (`InvoiceItem` is the same type).
   * `discount` is an absolute amount for the whole line, not a percentage;
   * `vatRate` is a percentage (0 or 7 in practice) and is stored as given.
   * Only lines that carry a `productId` take part in stock movements.
   */
  datatype LineItem = LineItem(
    id: Id,
    productId: Option<Id>,
    description: string,
    quantity: int,
    price: int,
    discount: int,
    vatRate: int)

  type InvoiceItem = LineItem

  /** The customer as copied onto a document when it is made. */
  datatype CustomerSnapshot = CustomerSnapshot(
    customerId: Id,
    name: string,
    address: Option<string>,
    taxId: Option<string>)

  /** The four stored totals of a document; they are stored as given, never recomputed. */
  datatype Totals = Totals(subtotal: int, discountTotal: int, vatTotal: int, grandTotal: int)

  datatype Quotation = Quotation(
    id: Id,
    number: string,
    date: DateTime,
    dueDate: DateTime,
    customer: CustomerSnapshot,
    items: seq<LineItem>,
    totals: Totals,
    status: QuotationStatus,
    notes: Option<string>,
    createdAt: Timestamp)

  datatype Invoice = Invoice(
    id: Id,
    number: string,
    date: DateTime,
    dueDate: DateTime,
    customer: CustomerSnapshot,
    items: seq<InvoiceItem>,
    totals: Totals,
    whtTotal: Option<int>,
    status: InvoiceStatus,
    notes: Option<string>,
    createdAt: Timestamp)

  /** A product as the product list shows it, with its cached stock level. */
  datatype Product = Product(
    id: Id,
    name: string,
    sku: Option<string>,
    price: int,
    unit: string,
    description: Option<string>,
    stockQuantity: int,
    minStockLevel: int)

  /** What `createProduct` is given: every numeric field may be missing. */
  datatype ProductInput = ProductInput(
    name: string,
    sku: Option<string>,
    price: int,
    unit: string,
    description: Option<string>,
    stockQuantity: Option<int>,
    minStockLevel: Option<int>)

  datatype MovementType = In | Out | Adjustment

  /** The free-text note of a movement, by the situation that writes it. */
  datatype MovementNote =
    | InitialStock                                         // product created with a starting quantity
    | InvoiceSale(invoiceNumber: string)                   // sold on an invoice
    | ConvertedSale(invoiceNumber: string, quotationNumber: string)  // sold on an invoice made from a quotation
    | Manual(text: string)                                 // entered with a manual adjustment

  /** One row of the append-only stock ledger; `quantity` is a magnitude, the direction is `kind`. */
  datatype StockMovement = StockMovement(
    id: Id,
    productId: Id,
    kind: MovementType,
    quantity: int,
    referenceId: Option<Id>,
    notes: MovementNote,
    createdAt: Timestamp)
}
