# Document and stock ledger

A Dafny model of the document and stock ledger of a small invoicing
application (`lib/data-service.ts` with the entity types of
`types/index.ts`). The backend's tables are in-memory state of one `Store`
object:

- products, keyed by id, each with a cached stock level;
- the append-only log of stock movements;
- invoice and quotation headers, each with its item table.

The operations update that state step by step, as the code does:

- record a stock movement, and the manual adjustment built on it;
- create and delete a product;
- create an invoice, with its compensating delete and its sale movements;
- create a quotation;
- convert a quotation into an invoice.

The write-side backend calls that can fail are explicit fault arguments. So
are the errors the code ignores: a failed rollback delete, a failed quotation
status update, and a failed read or write in the stock fallback. The reads of
`getProducts` and `getStockMovements` are taken to succeed, and the only
error of `getInvoiceById` is a missing row. The clock (`new Date()`) and
`Math.random()` are arguments too.

The model is proved against value-level specifications:

- `StockLedger.Record` is one `recordStockMovement` call.
- `StockLedger.RecordAll` is a loop of them that stops at the first failure.
- `StockLedger.OpenProduct` is product creation.

Stock reconciliation is stated over these values:

- `Reconciled`: the cached level equals an opening amount plus the net of the
  movements logged since the product was created.
- `Balanced`: the same, with a zero opening amount.

Modules:

- `Wrappers`: `Option`, `Result`, `Outcome`, and JavaScript's `x || 0`.
- `Types`: the entities and the two status unions.
- `Calendar`: local dates and the `setDate(getDate() + n)` day arithmetic.
- `Numbering`: the generated `INV-YYYYMMDD-NNN` invoice number and its
  read-back.
- `Rows`: table rows and the read-side mappers.
- `StockLedger`: the stock specification and its lemmas.
- `Ledger`: the `Store` class with the operations.

In four places one would expect the code to do more than it does. The model
follows the code.

- **Reconversion.** One would expect converting an already `invoiced`
  quotation to fail. The code never reads the quotation's status, so
  `ConvertQuotationToInvoice` accepts any quotation, and
  `Ledger.ConvertingTwiceDeductsTwice` shows the second deduction.
- **Which lines are deducted.** One would expect stock to be deducted for the
  copied invoice items. The code copies the items without `product_id` and deducts for the
  quotation's own items; `Ledger.ConvertedLinesUnlinked` states this.
- **A failed rollback delete.** One would expect it to be reported. The code
  ignores its error, and so does the model.
- **Preconditions of a movement.** One would expect a positive quantity and an
  existing product to be demanded. The code checks neither, so the model has no such
  precondition. A movement for a missing product is logged and changes no
  level.

## Model

| member | source | states |
|---|---|---|
| Types.ParseInvoiceStatus | types/index.ts:21 | an invoice status is read back exactly when it is one of the five names, and it reads as the state of that name |
| Types.ParseQuotationStatus | types/index.ts:22 | a quotation status is read back exactly when it is one of the six names, and it reads as the state of that name |
| Types.InvoicedIsQuotationOnly | types/index.ts:21-22 | "invoiced" is a quotation state and no invoice state; every status name reads back as its own state |
| Calendar.NextDay | lib/data-service.ts:546 | rolling one day on gives a valid date at the same time of day, in the same year or on 1 January of the next |
| Calendar.AddDays | lib/data-service.ts:546 | n days on is a valid date at the same time of day, never in an earlier year |
| Calendar.NextDayIsOneDayLater | lib/data-service.ts:546 | the next day's day count is one more, across month and year ends |
| Calendar.AddDaysCountsDays | lib/data-service.ts:546 | `setDate(getDate() + n)` lands exactly n days later by day count |
| Numbering.Decimal | lib/data-service.ts:538 | `String(n)` is a non-empty string of decimal digits |
| Numbering.DecimalValue | lib/data-service.ts:538 | the digits of `String(n)` read back as n |
| Numbering.PaddedDecimal | lib/data-service.ts:538 | `padStart(width, '0')` of a short enough number has exactly `width` digits and keeps the value |
| Numbering.RandomSuffix | lib/data-service.ts:538 | `Math.floor(Math.random() * 1000)` lies in 0..999 and is the largest k with k/1000 not above the drawn value |
| Numbering.ParseInvoiceNumber | lib/data-service.ts:538 | a number that reads back is 16 characters long, begins with `INV-`, has `-` before a suffix below 1000, and its month and day are below 100 |
| Numbering.InvoiceNumberRoundTrip | lib/data-service.ts:538 | the generated number is 16 characters long and reads back as the year, month and day it was made on and the random suffix |
| Rows.ProductsOf | lib/data-service.ts:104-113 | one product per row, in the rows' order, with id, name, SKU, price, unit and description copied and a missing stock level or threshold read as 0 |
| Rows.ProductReadsBack | lib/data-service.ts:116-128 | a product stored by `createProduct` reads back with its given fields, and a missing stock level or threshold reads as 0 |
| Rows.LinesOfMembers | lib/data-service.ts:370-378 | a line is among a document's items exactly when the item table holds it under that document |
| Rows.LinesOfAppend | lib/data-service.ts:370-378 | the items of a document spread over two parts of the table are those of each part, in order |
| Rows.StoredItemsReadBack | lib/data-service.ts:259-272 | items inserted for a document read back as its lines, in order, under their new ids |
| Rows.NoLinesOfNewDocument | lib/data-service.ts:370-378 | a document newer than every item row has no items yet |
| Rows.MovementsOf | lib/data-service.ts:332-352 | the result holds exactly the logged movements of the product |
| Rows.MovementsNewestFirst | lib/data-service.ts:337 | over a chronological log the product's history is strictly newest first |
| StockLedger.Multiplier | lib/data-service.ts:315 | `in` gives +1, `out` -1, and only `adjustment` gives 0 |
| StockLedger.WriteStock | lib/data-service.ts:317-328 | the write touches only the named product's level; a write that lands adds the delta; a fallback whose read failed overwrites with the delta alone; a failed fallback write changes nothing; a missing product stays missing |
| StockLedger.Record | lib/data-service.ts:300-329 | a failed movement insert changes nothing and reports failure; otherwise exactly one row is appended; no product is added or removed, and unnamed products keep their rows |
| StockLedger.RecordStockEffect | lib/data-service.ts:315-321 | a recorded movement whose write lands adds the quantity for `in`, subtracts it for `out` (going negative when it exceeds the level), and leaves stock alone for `adjustment` |
| StockLedger.RecordContribution | lib/data-service.ts:315-328 | a recorded movement whose write lands moves a product's level by exactly what the appended row contributes to it |
| StockLedger.RecordKeepsValid | lib/data-service.ts:300-329 | recording keeps ids below the counter and the log in creation order; the counter and the log only grow |
| StockLedger.RecordKeepsReconciled | lib/data-service.ts:300-329 | a movement whose write lands keeps every cached level equal to its opening amount plus the net of its logged movements |
| StockLedger.RecordAllStopsAtFailure | lib/data-service.ts:285-297 | after the first failing movement, later lines of the loop have no effect |
| StockLedger.RecordAllShape | lib/data-service.ts:285-297 | a loop without failing inserts succeeds and appends one row per request, in order; products no request names keep their rows |
| StockLedger.RecordAllKeepsValid | lib/data-service.ts:285-297 | a movement loop keeps the ledger well formed and the set of products unchanged |
| StockLedger.RecordAllKeepsReconciled | lib/data-service.ts:285-297 | a movement loop whose writes all land keeps stock and log reconciled, even when it stops early |
| StockLedger.RecordAllStock | lib/data-service.ts:285-297 | after a loop without failures each product's level has moved by the net of the rows appended for it |
| StockLedger.LinkedLines | lib/data-service.ts:286 | the lines kept are exactly those that carry a product id, each as many times as it occurs in the input |
| StockLedger.SaleRequestsMatchLinkedLines | lib/data-service.ts:285-297 | the sale loop issues one `out` movement per line with a product id, in order, for that product and quantity, referring to the invoice |
| StockLedger.NoLinkedLines | lib/data-service.ts:286 | lines none of which carries a product id keep nothing |
| StockLedger.UnlinkedLinesIssueNoSales | lib/data-service.ts:286 | lines without product ids issue no movement |
| StockLedger.SaleNet | lib/data-service.ts:285-297 | the rows a sale appends net, per product, to minus the quantity sold of it |
| StockLedger.SaleStockEffect | lib/data-service.ts:285-297 | a sale without failures lowers each product's level by exactly the quantity sold of it |
| StockLedger.Seed | lib/data-service.ts:118-130 | inserting a product stores its row under the next id, keeps every other product's row and the log, and advances the counter |
| StockLedger.OpenProduct | lib/data-service.ts:116-148 | creating a product stores its row under the next id and keeps the others; a starting quantity of 0 or less records no movement; a positive one succeeds exactly when the movement insert does, appending one `in` row of that quantity with the initial-stock note, and the level then rises by it; a failed insert leaves just the stored row |
| StockLedger.OpenProductKeepsValid | lib/data-service.ts:116-148 | product creation keeps the ledger well formed |
| StockLedger.OpenProductReconciled | lib/data-service.ts:125-145 | after creation the log accounts for the `in` movement only, so the inserted level counts as the new product's opening amount |
| StockLedger.OpenAtZeroKeepsBalanced | lib/data-service.ts:137-145 | a product inserted at level 0 whose starting quantity enters only through its movement keeps cached levels equal to logged nets |
| StockLedger.DeleteKeepsReconciled | lib/data-service.ts:150-160 | deleting a product keeps the other products reconciled, and its movements stay in the log |
| StockLedger.InitialStockCountedTwice | lib/data-service.ts:125-145 | creating a product with a starting quantity q > 0, when the insert succeeds and the write lands, leaves its level at 2q while the rows appended for it net q |
| Ledger.DueDate | lib/data-service.ts:546 | the due date is a valid date 30 calendar days after now by day count, at the same time of day |
| Ledger.WithoutProducts | lib/data-service.ts:564-571 | one line per quotation line, in order, with every field other than the product id kept, and no copied line linked to a product |
| Ledger.Store.GetProducts | lib/data-service.ts:93-113 | one product per listed key, in that order, with id, name, SKU, price, unit and description copied, its cached level, and a missing level or threshold read as 0 |
| Ledger.Store.GetStockMovements | lib/data-service.ts:332-353 | exactly the product's logged movements, with creation times strictly decreasing |
| Ledger.Store.GetInvoiceById | lib/data-service.ts:370-409 | succeeds exactly when the invoice exists, with its id, number, dates, customer snapshot, totals, status, notes, creation time and the items stored under it, and no withholding total |
| Ledger.Store.RecordStockMovement | lib/data-service.ts:300-329 | the new ledger state is `Record` of the old one; it fails exactly when the movement insert fails |
| Ledger.Store.WriteStockLevel | lib/data-service.ts:315-328 | the procedure path and the read-then-write fallback both leave the products table as `WriteStock` describes |
| Ledger.Store.AdjustStock | lib/data-service.ts:355-368 | a manual movement with no reference, recorded as `recordStockMovement` records it |
| Ledger.Store.RecordSaleMovements | lib/data-service.ts:285-297 | the loop leaves the ledger as `RecordAll` of the sale requests from where it started, and fails exactly when that run fails |
| Ledger.Store.InsertInvoiceItems | lib/data-service.ts:259-272 | the lines are appended under the invoice with fresh consecutive ids, and nothing else changes |
| Ledger.Store.CreateInvoice | lib/data-service.ts:234-300 | a failed header insert changes nothing; failed items remove the header again unless that delete fails, record no movement and keep stock; otherwise header and items are stored and stock follows the sale run, with the result reporting whether it completed |
| Ledger.Store.CreateQuotation | lib/data-service.ts:438-482 | the same header, items and rollback as an invoice, never touching products, movements or invoices |
| Ledger.Store.InsertConvertedHeader | lib/data-service.ts:540-561 | the converted header goes in under the next id, copying the quotation's customer and totals, status `issued`, linked to the quotation, due 30 days after now |
| Ledger.Store.MarkInvoiced | lib/data-service.ts:579-583 | the quotation becomes `invoiced` with its other fields kept, unless the update fails, whose error is ignored |
| Ledger.Store.CopyConvertedLines | lib/data-service.ts:564-583 | the quotation's lines are stored under the new invoice without product ids, under fresh consecutive ids, and the quotation becomes `invoiced` unless the update fails |
| Ledger.Store.ConvertDocuments | lib/data-service.ts:540-583 | the header is inserted; failed items throw and leave the header in place with no rollback; otherwise the lines are copied without product ids and the quotation is marked `invoiced` |
| Ledger.Store.ConvertQuotationToInvoice | lib/data-service.ts:524-601 | a failed read changes nothing; the invoice carries the generated number, now, the due date, the copied snapshot and totals; stock is deducted from the quotation's lines with the conversion note; the quotation's prior status is not consulted |
| Ledger.Store.CreateProduct | lib/data-service.ts:116-148 | a failed insert changes nothing; otherwise the row is stored with its starting level, and a positive starting quantity also records an `in` movement of it (as written) |
| Ledger.Store.CreateProductCorrected | lib/data-service.ts:116-148 | the same creation with the row stored at level 0, so the starting quantity enters only through its movement |
| Ledger.Store.DeleteProduct | lib/data-service.ts:150-160 | the product's row goes, whether it existed or not; movements and everything else stay |
| Ledger.ReadBackNewDocument | lib/data-service.ts:259-272 | items stored for a new document read back as exactly its lines, in order, under their new ids |
| Ledger.ConvertedLinesUnlinked | lib/data-service.ts:564-577 | the converted invoice's items read back as the quotation's lines without product ids, so they would issue no movement |
| Ledger.ConvertingTwiceDeductsTwice | lib/data-service.ts:524-598 | a second conversion of the same quotation deducts the sold quantities a second time |

## Left out

- The backend client, network errors and logging. Each failing call is a fault flag, and a thrown error is a `Failure` result.
- Concurrency. Runs are sequential, so the lost-update race between the increment procedure and the read-then-write fallback is not modelled.
- The `increment_stock` procedure is not part of this model. It is taken to add the delta to the level of an existing row, with a missing level read as 0, and to do nothing for a missing row.
- Money and quantities are integers. Totals are stored as given and never computed, because the code computes none.
- Quantities are always present. Every caller in the file passes one, so `quantity || 0` has nothing to default.
- Every `new Date()` in one conversion is the same `now`. Time zones are not modelled.
- Creation timestamps are the id counter, so they are strictly increasing.
- `getInvoices`, `getQuotations` and `getQuotationById` are left out. They apply the field mapping of `getInvoiceById` to headers or quotations and carry no further logic.
- The customers, expenses and profile operations are left out, because they are single inserts, selects and deletes with field renaming.
- `vatRate` being 0 or 7 and `discount` being a non-negative amount are not enforced. The code stores both as given.
- Nested item rows are read in table order; the code's query gives no order for them.
- Ledger.Store.GetProducts: the name ordering of the query is the `order` argument. The model does not require that argument to list every product, sorted by name.
- Ledger.Store.CreateInvoice: the ensures states the stored item rows. That the invoice then reads back with exactly its lines is the separate lemma `Ledger.ReadBackNewDocument`.
- Ledger.Store.CreateQuotation: the read-back of its lines is likewise stated by `Ledger.ReadBackNewDocument`.
- Ledger.Store.InsertInvoiceItems: the read-back of its lines is likewise stated by `Ledger.ReadBackNewDocument`.
- Ledger.Store.RecordSaleMovements: the stock state the loop starts from is a ghost parameter, used only in its contract.
- Ledger.Store.ConvertQuotationToInvoice: the lines read and the number generated are ghost results, used only in its contract.
- Numbering.InvoiceNumberRoundTrip: holds for four-digit years only. The code does not pad the year, so other years give a number of another length.
- Movement notes are a datatype, one constructor per situation that writes a note. The code stores plain text, so a manual note whose text equals a generated sale note is the same note there and a different one in the model.
- Numbering.RandomSuffix: `Math.random()` is taken to be a 53-bit draw, a multiple of 2^-53 below 1. The model floors the exact product of that draw and 1000; the code floors the double nearest to it, which can differ when that product lies just below an integer.
- The invoice-number collision is not modelled: nothing checks the random suffix against existing numbers, and the model does not either.

## Findings

| source | as written | input that shows it | evidently intended | confidence | as-written member | corrected member |
|---|---|---|---|---|---|---|
| lib/data-service.ts:125-145 | `createProduct` stores the starting quantity as the product's level and then records an `in` movement of the same quantity, which adds it again | a new product with `stockQuantity` 5 ends with a cached level of 10, while its movement log nets 5 | the starting quantity is counted once, so the cached level equals the net of the product's movements | high, not executed | StockLedger.InitialStockCountedTwice | Ledger.Store.CreateProductCorrected |
