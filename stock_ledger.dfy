/**
 * The stock ledger of lib/data-service.ts as a specification over values:
 * `recordStockMovement` appends a movement row and then applies a signed
 * delta to the product's cached `stock_quantity`, either through the
 * `increment_stock` procedure or, when that call errors, by reading the
 * current level and writing back the sum. Every backend call that can fail
 * is an explicit fault flag.
 */
module StockLedger {
  import opened Wrappers
  import opened Types
  import opened Rows

  /** The part of the backend the ledger touches, and the id generator. */
  datatype Stock = Stock(products: map<Id, ProductRow>, movements: seq<StockMovement>, nextId: nat)

  /**
   * How the stock update went. `Rpc`: `increment_stock` succeeded.
   * `Fallback`: it errored, and the code read the product (`selectFails`:
   * that read errored and yielded no row) and wrote the new level
   * (`updateFails`: that write errored). Errors of the fallback are ignored.
   */
  datatype StockWrite = Rpc | Fallback(selectFails: bool, updateFails: bool)

  /** The faults one `recordStockMovement` call meets. */
  datatype MovementFaults = MovementFaults(insertFails: bool, write: StockWrite)

  const NoFaults: MovementFaults := MovementFaults(false, Rpc)

  /** The arguments of one `recordStockMovement` call. */
  datatype MovementRequest = MovementRequest(
    productId: Id,
    kind: MovementType,
    quantity: int,
    referenceId: Option<Id>,
    notes: MovementNote)

  /** A stock write that lands: the procedure, or a fallback whose read and write both went through. */
  predicate WriteApplies(w: StockWrite) {
    w.Rpc? || (!w.selectFails && !w.updateFails)
  }

  /** `in` adds, `out` subtracts, `adjustment` is a note only. */
  function Multiplier(kind: MovementType): (m: int)
    ensures kind == In ==> m == 1
    ensures kind == Out ==> m == -1
    ensures m == 0 <==> kind == Adjustment
  {
    match kind
    case In => 1
    case Out => -1
    case Adjustment => 0
  }

  /** The cached stock level of a product as the code reads it: missing row or missing value is 0. */
  function CurrentStock(products: map<Id, ProductRow>, productId: Id): int {
    if productId in products then OrZero(products[productId].stockQuantity) else 0
  }

  /**
   * Writing `delta` to a product's stock. On a row that does not exist both
   * paths change nothing. A fallback whose read failed writes `0 + delta`
   * over the stored level; one whose write failed leaves it as it was.
   */
  function WriteStock(products: map<Id, ProductRow>, productId: Id, delta: int, w: StockWrite)
    : (r: map<Id, ProductRow>)
    ensures r.Keys == products.Keys
    ensures forall p :: p in r && p != productId ==> r[p] == products[p]
    ensures productId in products ==>
              r[productId] == products[productId].(stockQuantity := r[productId].stockQuantity)
    ensures productId in products && WriteApplies(w) ==>
              CurrentStock(r, productId) == CurrentStock(products, productId) + delta
    ensures productId in products && w.Fallback? && w.selectFails && !w.updateFails ==>
              CurrentStock(r, productId) == delta
    ensures w.Fallback? && w.updateFails ==> r == products
  {
    if productId !in products then products
    else
      var row := products[productId];
      match w
      case Rpc =>
        products[productId := row.(stockQuantity := Some(OrZero(row.stockQuantity) + delta))]
      case Fallback(selectFails, updateFails) =>
        var current := if selectFails then 0 else OrZero(row.stockQuantity);
        if updateFails then products
        else products[productId := row.(stockQuantity := Some(current + delta))]
  }

  /** The movement row a request becomes under the id (and creation time) `id`. */
  function MovementRow(id: Id, req: MovementRequest): StockMovement {
    StockMovement(id, req.productId, req.kind, req.quantity, req.referenceId, req.notes, id)
  }

  /**
   * `recordStockMovement`: if the movement insert fails nothing changes and
   * the call reports failure; otherwise the row is appended and, for `in`
   * and `out`, `quantity * multiplier` is written to the product's stock.
   */
  function Record(s: Stock, req: MovementRequest, f: MovementFaults): (r: (Stock, bool))
    ensures r.1 == !f.insertFails
    ensures !r.1 ==> r.0 == s
    ensures r.1 ==> r.0.movements == s.movements + [MovementRow(s.nextId, req)]
    ensures r.1 ==> r.0.nextId == s.nextId + 1
    ensures r.0.products.Keys == s.products.Keys
    ensures forall p :: p in s.products && p != req.productId ==> r.0.products[p] == s.products[p]
    ensures forall p :: p in s.products ==> r.0.products[p].id == s.products[p].id
  {
    if f.insertFails then (s, false)
    else
      var m := Multiplier(req.kind);
      var products := if m == 0 then s.products
                      else WriteStock(s.products, req.productId, req.quantity * m, f.write);
      (Stock(products, s.movements + [MovementRow(s.nextId, req)], s.nextId + 1), true)
  }

  /** What one movement contributes to a product's level: its signed quantity, or 0 for another product. */
  function Contribution(m: StockMovement, productId: Id): int {
    if m.productId == productId then m.quantity * Multiplier(m.kind) else 0
  }

  /** The net quantity a sequence of movements records for a product. */
  function Net(ms: seq<StockMovement>, productId: Id): int {
    if ms == [] then 0 else Net(ms[..|ms| - 1], productId) + Contribution(ms[|ms| - 1], productId)
  }

  lemma NetSnoc(ms: seq<StockMovement>, m: StockMovement, productId: Id)
    ensures Net(ms + [m], productId) == Net(ms, productId) + Contribution(m, productId)
  {
    assert (ms + [m])[..|ms|] == ms;
  }

  /**
   * One movement that is recorded and whose stock write lands changes the
   * product's cached level by +quantity for `in`, -quantity for `out` and
   * not at all for `adjustment`; there is no lower bound, so the level may
   * go negative. Every other product keeps its row.
   */
  lemma RecordStockEffect(s: Stock, req: MovementRequest, f: MovementFaults)
    requires !f.insertFails && WriteApplies(f.write)
    requires req.productId in s.products
    ensures req.kind == In ==>
              CurrentStock(Record(s, req, f).0.products, req.productId) == CurrentStock(s.products, req.productId) + req.quantity
    ensures req.kind == Out ==>
              CurrentStock(Record(s, req, f).0.products, req.productId) == CurrentStock(s.products, req.productId) - req.quantity
    ensures req.kind == Adjustment ==> Record(s, req, f).0.products == s.products
    ensures req.kind == Out && req.quantity > CurrentStock(s.products, req.productId) ==>
              CurrentStock(Record(s, req, f).0.products, req.productId) < 0
  {
  }

  /** The fault that the k-th movement call of an operation meets; calls past the list meet none. */
  function FaultAt(faults: seq<MovementFaults>, k: nat): MovementFaults {
    if k < |faults| then faults[k] else NoFaults
  }

  predicate AllWritesApply(faults: seq<MovementFaults>) {
    forall k :: 0 <= k < |faults| ==> WriteApplies(faults[k].write)
  }

  predicate NoInsertFails(faults: seq<MovementFaults>, n: nat) {
    forall k :: 0 <= k < n ==> !FaultAt(faults, k).insertFails
  }

  /**
   * Recording a run of movements one after another, as a `for` loop that
   * awaits each call does: the first failing movement insert stops the run
   * (its error propagates) and leaves the earlier movements in place.
   */
  function RecordAll(s: Stock, reqs: seq<MovementRequest>, faults: seq<MovementFaults>): (r: (Stock, bool))
    decreases |reqs|
  {
    if reqs == [] then (s, true)
    else
      var prev := RecordAll(s, reqs[..|reqs| - 1], faults);
      if !prev.1 then prev
      else Record(prev.0, reqs[|reqs| - 1], FaultAt(faults, |reqs| - 1))
  }

  /** Once a run has failed, the requests after the failure have no effect. */
  lemma {:induction false} RecordAllStopsAtFailure(s: Stock, reqs: seq<MovementRequest>, faults: seq<MovementFaults>, n: nat)
    requires n <= |reqs|
    requires !RecordAll(s, reqs[..n], faults).1
    ensures RecordAll(s, reqs, faults) == RecordAll(s, reqs[..n], faults)
    decreases |reqs|
  {
    if n < |reqs| {
      var init := reqs[..|reqs| - 1];
      assert init[..n] == reqs[..n];
      RecordAllStopsAtFailure(s, init, faults, n);
    } else {
      assert reqs[..n] == reqs;
    }
  }

  /** The rows a run of requests becomes, with consecutive ids from `firstId` on. */
  function MovementRows(reqs: seq<MovementRequest>, firstId: Id): (r: seq<StockMovement>)
    ensures |r| == |reqs|
  {
    seq(|reqs|, k requires 0 <= k < |reqs| => MovementRow(firstId + k, reqs[k]))
  }

  /** One more request gives one more row, numbered after the others. */
  lemma MovementRowsSnoc(reqs: seq<MovementRequest>, req: MovementRequest, firstId: Id)
    ensures MovementRows(reqs + [req], firstId) == MovementRows(reqs, firstId) + [MovementRow(firstId + |reqs|, req)]
  {
    assert forall k :: 0 <= k < |reqs| ==> MovementRows(reqs + [req], firstId)[k] == MovementRows(reqs, firstId)[k];
  }

  /**
   * A run without failing inserts succeeds and appends exactly one row per
   * request, in order; whatever the faults, the product table keeps its keys
   * and the rows of products no request names.
   */
  lemma {:induction false} RecordAllShape(s: Stock, reqs: seq<MovementRequest>, faults: seq<MovementFaults>)
    ensures RecordAll(s, reqs, faults).0.products.Keys == s.products.Keys
    ensures forall p :: p in s.products && (forall k :: 0 <= k < |reqs| ==> reqs[k].productId != p) ==>
              RecordAll(s, reqs, faults).0.products[p] == s.products[p]
    ensures NoInsertFails(faults, |reqs|) ==>
              && RecordAll(s, reqs, faults).1
              && RecordAll(s, reqs, faults).0.movements == s.movements + MovementRows(reqs, s.nextId)
              && RecordAll(s, reqs, faults).0.nextId == s.nextId + |reqs|
    decreases |reqs|
  {
    if reqs != [] {
      var n := |reqs| - 1;
      var init := reqs[..n];
      RecordAllShape(s, init, faults);
      var prev := RecordAll(s, init, faults);
      if NoInsertFails(faults, |reqs|) {
        assert NoInsertFails(faults, n);
        assert MovementRows(reqs, s.nextId) == MovementRows(init, s.nextId) + [MovementRow(s.nextId + n, reqs[n])];
      }
    }
  }

  /**
   * The cached stock level agrees with the movement log: for every product,
   * its level is an opening amount plus the net of the movements recorded
   * since the product was created (`born` is the log length at that time).
   */
  ghost predicate Reconciled(s: Stock, opening: map<Id, int>, born: map<Id, nat>) {
    forall p :: p in s.products ==>
      && p in opening && p in born && born[p] <= |s.movements|
      && CurrentStock(s.products, p) == opening[p] + Net(s.movements[born[p]..], p)
  }

  /** A recorded movement whose stock write lands keeps stock and log in agreement. */
  lemma RecordKeepsReconciled(s: Stock, req: MovementRequest, f: MovementFaults, opening: map<Id, int>, born: map<Id, nat>)
    requires Reconciled(s, opening, born) && WriteApplies(f.write)
    ensures Reconciled(Record(s, req, f).0, opening, born)
  {
    var r := Record(s, req, f).0;
    if !f.insertFails {
      var m := MovementRow(s.nextId, req);
      forall p | p in r.products
        ensures CurrentStock(r.products, p) == opening[p] + Net(r.movements[born[p]..], p)
      {
        assert r.movements[born[p]..] == s.movements[born[p]..] + [m];
        NetSnoc(s.movements[born[p]..], m, p);
      }
    }
  }

  /** A run whose stock writes all land keeps stock and log in agreement, even when it stops early. */
  lemma {:induction false} RecordAllKeepsReconciled(s: Stock, reqs: seq<MovementRequest>, faults: seq<MovementFaults>,
                                                     opening: map<Id, int>, born: map<Id, nat>)
    requires Reconciled(s, opening, born) && AllWritesApply(faults)
    ensures Reconciled(RecordAll(s, reqs, faults).0, opening, born)
    decreases |reqs|
  {
    if reqs != [] {
      RecordAllKeepsReconciled(s, reqs[..|reqs| - 1], faults, opening, born);
      var prev := RecordAll(s, reqs[..|reqs| - 1], faults);
      if prev.1 {
        RecordKeepsReconciled(prev.0, reqs[|reqs| - 1], FaultAt(faults, |reqs| - 1), opening, born);
      }
    }
  }

  /** Well-formed ledger state: product keys and movement times lie below the id counter, times increase. */
  ghost predicate StockValid(s: Stock) {
    && (forall p :: p in s.products ==> p < s.nextId && s.products[p].id == p)
    && (forall i :: 0 <= i < |s.movements| ==> s.movements[i].createdAt < s.nextId)
    && Chronological(s.movements)
  }

  lemma RecordKeepsValid(s: Stock, req: MovementRequest, f: MovementFaults)
    requires StockValid(s)
    ensures StockValid(Record(s, req, f).0)
    ensures s.nextId <= Record(s, req, f).0.nextId
    ensures |s.movements| <= |Record(s, req, f).0.movements|
  {
  }

  lemma {:induction false} RecordAllKeepsValid(s: Stock, reqs: seq<MovementRequest>, faults: seq<MovementFaults>)
    requires StockValid(s)
    ensures StockValid(RecordAll(s, reqs, faults).0)
    ensures s.nextId <= RecordAll(s, reqs, faults).0.nextId
    ensures |s.movements| <= |RecordAll(s, reqs, faults).0.movements|
    ensures RecordAll(s, reqs, faults).0.products.Keys == s.products.Keys
    decreases |reqs|
  {
    if reqs != [] {
      RecordAllKeepsValid(s, reqs[..|reqs| - 1], faults);
      var prev := RecordAll(s, reqs[..|reqs| - 1], faults);
      if prev.1 {
        RecordKeepsValid(prev.0, reqs[|reqs| - 1], FaultAt(faults, |reqs| - 1));
      }
    }
  }

  /** One more request runs after the earlier ones, unless one of those already failed. */
  lemma RecordAllSnoc(s: Stock, reqs: seq<MovementRequest>, req: MovementRequest, faults: seq<MovementFaults>)
    ensures RecordAll(s, reqs + [req], faults)
            == if RecordAll(s, reqs, faults).1
               then Record(RecordAll(s, reqs, faults).0, req, FaultAt(faults, |reqs|))
               else RecordAll(s, reqs, faults)
  {
    assert (reqs + [req])[..|reqs|] == reqs;
  }

  /**
   * The requests the sale loops issue: one `out` movement per line that
   * carries a product id, for that product and the line's quantity,
   * referring to the invoice; lines without a product id issue none.
   */
  function SaleRequests(lines: seq<LineItem>, invoiceId: Id, note: MovementNote): seq<MovementRequest> {
    if lines == [] then []
    else
      var last := lines[|lines| - 1];
      SaleRequests(lines[..|lines| - 1], invoiceId, note)
        + (if last.productId.Some?
           then [MovementRequest(last.productId.value, Out, last.quantity, Some(invoiceId), note)]
           else [])
  }

  /** The lines that name a product, in order. */
  function LinkedLines(lines: seq<LineItem>): (r: seq<LineItem>)
    ensures forall l :: l in r <==> l in lines && l.productId.Some?
    ensures forall l :: multiset(r)[l] == if l.productId.Some? then multiset(lines)[l] else 0
  {
    if lines == [] then []
    else
      var last := lines[|lines| - 1];
      assert lines == lines[..|lines| - 1] + [last];
      assert multiset(lines) == multiset(lines[..|lines| - 1]) + multiset{last};
      LinkedLines(lines[..|lines| - 1]) + (if last.productId.Some? then [last] else [])
  }

  /** Lines none of which names a product issue no sale request. */
  lemma {:induction false} UnlinkedLinesIssueNoSales(lines: seq<LineItem>, invoiceId: Id, note: MovementNote)
    requires forall k :: 0 <= k < |lines| ==> lines[k].productId.None?
    ensures SaleRequests(lines, invoiceId, note) == []
    decreases |lines|
  {
    if lines != [] {
      UnlinkedLinesIssueNoSales(lines[..|lines| - 1], invoiceId, note);
    }
  }

  /** Lines none of which names a product keep no linked line. */
  lemma {:induction false} NoLinkedLines(lines: seq<LineItem>)
    requires forall k :: 0 <= k < |lines| ==> lines[k].productId.None?
    ensures LinkedLines(lines) == []
    decreases |lines|
  {
    if lines != [] {
      NoLinkedLines(lines[..|lines| - 1]);
    }
  }

  /** The quantity of a product sold on a list of lines. */
  function SoldQuantity(lines: seq<LineItem>, productId: Id): int {
    if lines == [] then 0
    else
      var last := lines[|lines| - 1];
      SoldQuantity(lines[..|lines| - 1], productId) + (if last.productId == Some(productId) then last.quantity else 0)
  }

  /**
   * The sale requests correspond one to one, in order, to the lines that
   * carry a product id: each is an `out` of that line's quantity for that
   * product, referring to the invoice and carrying the note.
   */
  lemma {:induction false} SaleRequestsMatchLinkedLines(lines: seq<LineItem>, invoiceId: Id, note: MovementNote)
    ensures |SaleRequests(lines, invoiceId, note)| == |LinkedLines(lines)|
    ensures forall k :: 0 <= k < |LinkedLines(lines)| ==>
              SaleRequests(lines, invoiceId, note)[k]
              == MovementRequest(LinkedLines(lines)[k].productId.value, Out, LinkedLines(lines)[k].quantity,
                                 Some(invoiceId), note)
    decreases |lines|
  {
    if lines != [] {
      SaleRequestsMatchLinkedLines(lines[..|lines| - 1], invoiceId, note);
    }
  }

  /** One more line issues one more request when it names a product, and none otherwise. */
  lemma SaleRequestsStep(lines: seq<LineItem>, i: nat, invoiceId: Id, note: MovementNote)
    requires i < |lines|
    ensures lines[i].productId.Some? ==>
              SaleRequests(lines[..i + 1], invoiceId, note)
              == SaleRequests(lines[..i], invoiceId, note)
                 + [MovementRequest(lines[i].productId.value, Out, lines[i].quantity, Some(invoiceId), note)]
    ensures lines[i].productId.None? ==>
              SaleRequests(lines[..i + 1], invoiceId, note) == SaleRequests(lines[..i], invoiceId, note)
  {
    assert lines[..i + 1][..i] == lines[..i];
  }

  /** A sale run that has failed by line i ends as it stood then. */
  lemma SaleStopsAtFailure(s: Stock, lines: seq<LineItem>, i: nat, invoiceId: Id, note: MovementNote,
                           faults: seq<MovementFaults>)
    requires i <= |lines|
    requires !RecordAll(s, SaleRequests(lines[..i], invoiceId, note), faults).1
    ensures RecordAll(s, SaleRequests(lines, invoiceId, note), faults)
            == RecordAll(s, SaleRequests(lines[..i], invoiceId, note), faults)
  {
    SaleRequestsPrefix(lines, i, invoiceId, note);
    RecordAllStopsAtFailure(s, SaleRequests(lines, invoiceId, note), faults, |SaleRequests(lines[..i], invoiceId, note)|);
  }

  /** A prefix of the lines issues a prefix of the requests. */
  lemma SaleRequestsPrefix(lines: seq<LineItem>, i: nat, invoiceId: Id, note: MovementNote)
    requires i <= |lines|
    ensures |SaleRequests(lines[..i], invoiceId, note)| <= |SaleRequests(lines, invoiceId, note)|
    ensures SaleRequests(lines, invoiceId, note)[..|SaleRequests(lines[..i], invoiceId, note)|]
            == SaleRequests(lines[..i], invoiceId, note)
    decreases |lines| - i
  {
    if i < |lines| {
      var init := lines[..|lines| - 1];
      assert init[..i] == lines[..i];
      SaleRequestsPrefix(init, i, invoiceId, note);
    } else {
      assert lines[..i] == lines;
    }
  }

  /** The rows recorded for a sale net, per product, to minus the quantity sold of it. */
  lemma {:induction false} SaleNet(lines: seq<LineItem>, invoiceId: Id, note: MovementNote, firstId: Id, productId: Id)
    ensures Net(MovementRows(SaleRequests(lines, invoiceId, note), firstId), productId) == -SoldQuantity(lines, productId)
    decreases |lines|
  {
    if lines != [] {
      var init := lines[..|lines| - 1];
      var last := lines[|lines| - 1];
      var a := SaleRequests(init, invoiceId, note);
      SaleNet(init, invoiceId, note, firstId, productId);
      if last.productId.Some? {
        var req := MovementRequest(last.productId.value, Out, last.quantity, Some(invoiceId), note);
        assert SaleRequests(lines, invoiceId, note) == a + [req];
        MovementRowsSnoc(a, req, firstId);
        NetSnoc(MovementRows(a, firstId), MovementRow(firstId + |a|, req), productId);
      } else {
        assert SaleRequests(lines, invoiceId, note) == a;
      }
    }
  }

  /**
   * After a run without failing inserts whose stock writes all land, each
   * existing product's cached level has moved by the net of the rows the run
   * appended for it.
   */
  lemma {:induction false} RecordAllStock(s: Stock, reqs: seq<MovementRequest>, faults: seq<MovementFaults>, p: Id)
    requires NoInsertFails(faults, |reqs|) && AllWritesApply(faults)
    requires p in s.products
    ensures |s.movements| <= |RecordAll(s, reqs, faults).0.movements|
    ensures CurrentStock(RecordAll(s, reqs, faults).0.products, p)
            == CurrentStock(s.products, p) + Net(RecordAll(s, reqs, faults).0.movements[|s.movements|..], p)
    decreases |reqs|
  {
    if reqs == [] {
      assert s.movements[|s.movements|..] == [];
    } else {
      var n := |reqs| - 1;
      assert NoInsertFails(faults, n);
      RecordAllStock(s, reqs[..n], faults, p);
      RecordAllShape(s, reqs[..n], faults);
      var prev := RecordAll(s, reqs[..n], faults).0;
      var m := MovementRow(prev.nextId, reqs[n]);
      var f := FaultAt(faults, n);
      assert !f.insertFails && WriteApplies(f.write);
      var after := Record(prev, reqs[n], f).0;
      assert RecordAll(s, reqs, faults).0 == after;
      RecordContribution(prev, reqs[n], f, p);
      assert after.movements[|s.movements|..] == prev.movements[|s.movements|..] + [m];
      NetSnoc(prev.movements[|s.movements|..], m, p);
    }
  }

  /** One recorded movement whose write lands moves a product's level by exactly its contribution. */
  lemma RecordContribution(s: Stock, req: MovementRequest, f: MovementFaults, p: Id)
    requires !f.insertFails && WriteApplies(f.write)
    requires p in s.products
    ensures CurrentStock(Record(s, req, f).0.products, p)
            == CurrentStock(s.products, p) + Contribution(MovementRow(s.nextId, req), p)
  {
  }

  /**
   * A sale run without failing inserts whose writes all land lowers each
   * existing product's cached level by exactly the quantity sold of it;
   * products that no line names keep their rows.
   */
  lemma SaleStockEffect(s: Stock, lines: seq<LineItem>, invoiceId: Id, note: MovementNote,
                        faults: seq<MovementFaults>, p: Id)
    requires NoInsertFails(faults, |SaleRequests(lines, invoiceId, note)|) && AllWritesApply(faults)
    requires p in s.products
    ensures CurrentStock(RecordAll(s, SaleRequests(lines, invoiceId, note), faults).0.products, p)
            == CurrentStock(s.products, p) - SoldQuantity(lines, p)
  {
    var reqs := SaleRequests(lines, invoiceId, note);
    RecordAllStock(s, reqs, faults, p);
    RecordAllShape(s, reqs, faults);
    var after := RecordAll(s, reqs, faults).0;
    assert after.movements[|s.movements|..] == MovementRows(reqs, s.nextId);
    SaleNet(lines, invoiceId, note, s.nextId, p);
  }

  /** The ledger once a new product row has been inserted under the next id. */
  function Seed(s: Stock, row: ProductRow): (r: Stock)
    ensures r.products.Keys == s.products.Keys + {s.nextId}
    ensures r.products[s.nextId] == row
    ensures forall p :: p in s.products && p != s.nextId ==> r.products[p] == s.products[p]
    ensures r.movements == s.movements && r.nextId == s.nextId + 1
  {
    Stock(s.products[s.nextId := row], s.movements, s.nextId + 1)
  }

  /**
   * Opening a product as `createProduct` does: insert its row under the next
   * id, then, for a positive starting quantity, record an `in` movement of it
   * with the initial-stock note. The flag reports whether that movement was
   * recorded.
   */
  function OpenProduct(s: Stock, row: ProductRow, initial: int, f: MovementFaults): (r: (Stock, bool))
    ensures r.0.products.Keys == s.products.Keys + {s.nextId}
    ensures initial <= 0 ==> r == (Seed(s, row), true)
    ensures initial > 0 ==> r.1 == !f.insertFails
    ensures initial > 0 && f.insertFails ==> r.0 == Seed(s, row)
    ensures initial > 0 && !f.insertFails ==>
              && r.0.movements == s.movements + [MovementRow(s.nextId + 1, MovementRequest(s.nextId, In, initial, None, InitialStock))]
              && r.0.nextId == s.nextId + 2
    ensures initial > 0 && !f.insertFails && WriteApplies(f.write) ==>
              CurrentStock(r.0.products, s.nextId) == OrZero(row.stockQuantity) + initial
    ensures forall p :: p in s.products && p != s.nextId ==> r.0.products[p] == s.products[p]
  {
    if initial > 0 then Record(Seed(s, row), MovementRequest(s.nextId, In, initial, None, InitialStock), f)
    else (Seed(s, row), true)
  }

  lemma OpenProductKeepsValid(s: Stock, row: ProductRow, initial: int, f: MovementFaults)
    requires StockValid(s) && row.id == s.nextId
    ensures StockValid(OpenProduct(s, row, initial, f).0)
    ensures |s.movements| <= |OpenProduct(s, row, initial, f).0.movements|
  {
    if initial > 0 {
      RecordKeepsValid(Seed(s, row), MovementRequest(s.nextId, In, initial, None, InitialStock), f);
    }
  }

  /**
   * Opening a product keeps stock and log reconciled, with the new product's
   * opening part being the level its row was inserted with: the log accounts
   * for the initial movement, never for the inserted level.
   */
  lemma OpenProductReconciled(s: Stock, row: ProductRow, initial: int, f: MovementFaults,
                              opening: map<Id, int>, born: map<Id, nat>)
    requires StockValid(s) && Reconciled(s, opening, born) && WriteApplies(f.write)
    ensures Reconciled(OpenProduct(s, row, initial, f).0,
                       opening[s.nextId := OrZero(row.stockQuantity)], born[s.nextId := |s.movements|])
  {
    var seeded := Seed(s, row);
    var opening' := opening[s.nextId := OrZero(row.stockQuantity)];
    var born' := born[s.nextId := |s.movements|];
    forall p | p in seeded.products
      ensures CurrentStock(seeded.products, p) == opening'[p] + Net(seeded.movements[born'[p]..], p)
    {
      if p == s.nextId {
        assert seeded.movements[born'[p]..] == [];
      }
    }
    assert Reconciled(seeded, opening', born');
    if initial > 0 {
      RecordKeepsReconciled(seeded, MovementRequest(s.nextId, In, initial, None, InitialStock), f, opening', born');
    }
  }

  /** Reconciled with no opening part: every cached level is exactly the net of the product's movements since its creation. */
  ghost predicate Balanced(s: Stock, opening: map<Id, int>, born: map<Id, nat>) {
    Reconciled(s, opening, born) && forall p :: p in s.products ==> p in opening && opening[p] == 0
  }

  /**
   * A product opened with a stored level of 0, whose starting quantity
   * enters only through its `in` movement, keeps a balanced ledger balanced.
   */
  lemma OpenAtZeroKeepsBalanced(s: Stock, row: ProductRow, initial: int, f: MovementFaults,
                                opening: map<Id, int>, born: map<Id, nat>)
    requires StockValid(s) && Balanced(s, opening, born) && WriteApplies(f.write)
    requires row.stockQuantity == Some(0)
    ensures Balanced(OpenProduct(s, row, initial, f).0, opening[s.nextId := 0], born[s.nextId := |s.movements|])
  {
    OpenProductReconciled(s, row, initial, f, opening, born);
  }

  /** Deleting a product row keeps the others reconciled; its movements stay in the log. */
  lemma DeleteKeepsReconciled(s: Stock, id: Id, opening: map<Id, int>, born: map<Id, nat>)
    requires Reconciled(s, opening, born)
    ensures Reconciled(s.(products := s.products - {id}), opening, born)
    ensures StockValid(s) ==> StockValid(s.(products := s.products - {id}))
  {
    var r := s.(products := s.products - {id});
    forall p | p in r.products
      ensures CurrentStock(r.products, p) == CurrentStock(s.products, p)
    {
    }
  }

  /**
   * Initial stock counted twice, as written in `createProduct`: a product
   * created from input with a starting quantity q > 0 is inserted at level q
   * and then given an `in` movement of q, so it ends with a cached level of
   * 2q while the log records q for it.
   */
  lemma InitialStockCountedTwice(s: Stock, input: ProductInput, q: int, f: MovementFaults)
    requires input.stockQuantity == Some(q) && q > 0
    requires !f.insertFails && WriteApplies(f.write)
    ensures var after := OpenProduct(s, NewProductRow(s.nextId, input), q, f).0;
            && CurrentStock(after.products, s.nextId) == 2 * q
            && Net(after.movements[|s.movements|..], s.nextId) == q
  {
    var req := MovementRequest(s.nextId, In, q, None, InitialStock);
    var after := OpenProduct(s, NewProductRow(s.nextId, input), q, f).0;
    assert after.movements[|s.movements|..] == [MovementRow(s.nextId + 1, req)];
    NetSnoc([], MovementRow(s.nextId + 1, req), s.nextId);
  }
}
