/**
 * The pharmacy's server actions (app/actions/pharmacy-actions.ts): the
 * stocked inventory, counter billing with its stock deduction, the queue of
 * open orders, marking an order paid, and adding a batch.
 */
module PharmacyActions {
  import opened Wrappers
  import opened Lists
  import opened Store

  // ---------------------------------------------------------------------
  // getInventory
  // ---------------------------------------------------------------------

  predicate InStock(b: Batch) {
    b.currentStock > 0
  }

  function Expiry(b: Batch): int {
    b.expiryDate
  }

  /** A batch row with its medicine master row (`include: { medicine: true }`). */
  datatype StockRow = StockRow(batch: Batch, medicine: Option<Medicine>)

  function WithMedicines(batches: seq<Batch>, medicines: seq<Medicine>): (r: seq<StockRow>)
    ensures |r| == |batches|
    ensures forall k :: 0 <= k < |r| ==> r[k] == StockRow(batches[k], MedicineById(medicines, batches[k].medicineId))
  {
    seq(|batches|, k requires 0 <= k < |batches| => StockRow(batches[k], MedicineById(medicines, batches[k].medicineId)))
  }

  /** `getInventory()`: the batches with stock left, soonest expiry first, each with its medicine. */
  function StockedInventory(batches: seq<Batch>, medicines: seq<Medicine>): seq<StockRow> {
    WithMedicines(SortBy(Filter(batches, InStock), Expiry), medicines)
  }

  /** Exactly the batches with stock left are listed, ordered by ascending expiry. */
  lemma StockedInventoryContents(batches: seq<Batch>, medicines: seq<Medicine>)
    ensures var r := StockedInventory(batches, medicines);
            && (forall b :: b in batches ==> (b.currentStock > 0 <==> exists k :: 0 <= k < |r| && r[k].batch == b))
            && (forall k :: 0 <= k < |r| ==> r[k].batch.currentStock > 0)
            && (forall i, j :: 0 <= i < j < |r| ==> r[i].batch.expiryDate <= r[j].batch.expiryDate)
  {
    var kept := Filter(batches, InStock);
    var sorted := SortBy(kept, Expiry);
    var r := StockedInventory(batches, medicines);
    forall b | b in batches
      ensures b.currentStock > 0 <==> exists k :: 0 <= k < |r| && r[k].batch == b
    {
      FilterMember(batches, InStock, b);
      SortByMember(kept, Expiry, b);
      if b in sorted {
        var k :| 0 <= k < |sorted| && sorted[k] == b;
        assert r[k].batch == b;
      }
    }
    forall k | 0 <= k < |r|
      ensures r[k].batch.currentStock > 0
    {
      SortByMember(kept, Expiry, sorted[k]);
    }
  }

  // ---------------------------------------------------------------------
  // generateInvoice
  // ---------------------------------------------------------------------

  /** A cart line of the billing counter: `{batch_no, quantity}`. */
  datatype BillLine = BillLine(batchNo: string, quantity: int)

  /** An invoice line: `{medicine_name, qty, price, batch_no}`, with `price` the line's cost. */
  datatype InvoiceLine = InvoiceLine(medicineName: string, qty: int, price: int, batchNo: string)

  datatype InvoiceResult = Invoice(total: int, lines: seq<InvoiceLine>) | InvoiceFailed(error: string)

  const InvoiceFailedMessage := "Failed to generate invoice"

  /** The batch table and the reply once billing is over. */
  datatype Billing = Billing(batches: seq<Batch>, result: InvoiceResult)

  /** The index of the batch with this number (`findUnique` on `batch_no`). */
  function FindBatch(batches: seq<Batch>, batchNo: string): (r: Option<nat>)
    ensures r.Some? ==> r.value < |batches| && batches[r.value].batchNo == batchNo
    ensures r.Some? ==> forall k :: 0 <= k < r.value ==> batches[k].batchNo != batchNo
    ensures r.None? ==> forall k :: 0 <= k < |batches| ==> batches[k].batchNo != batchNo
  {
    FirstIndex(batches, (b: Batch) => b.batchNo == batchNo)
  }

  /** What one cart line does: nothing, a charge, or a throw (the batch has no medicine row). */
  datatype Outcome = Skipped | Charged(line: InvoiceLine) | Broken

  datatype LineStep = LineStep(batches: seq<Batch>, outcome: Outcome)

  /**
   * One line of the loop: a line whose batch is missing or short of stock
   * is skipped; otherwise the stock is decremented first and the line is
   * charged at the medicine's unit price.
   */
  function BillOne(batches: seq<Batch>, medicines: seq<Medicine>, l: BillLine): (r: LineStep)
    ensures |r.batches| == |batches|
  {
    match FindBatch(batches, l.batchNo)
    case None => LineStep(batches, Skipped)
    case Some(k) =>
      if batches[k].currentStock < l.quantity then LineStep(batches, Skipped)
      else
        var after := batches[k := batches[k].(currentStock := batches[k].currentStock - l.quantity)];
        match MedicineById(medicines, batches[k].medicineId)
        case None => LineStep(after, Broken)
        case Some(m) => LineStep(after, Charged(InvoiceLine(m.brandName, l.quantity, m.pricePerUnit * l.quantity, l.batchNo)))
  }

  /** The result of the remaining lines with a charge in front of them. */
  function Prepend(il: InvoiceLine, rest: Billing): Billing {
    match rest.result
    case Invoice(t, ls) => Billing(rest.batches, Invoice(il.price + t, [il] + ls))
    case InvoiceFailed(_) => rest
  }

  /** `generateInvoice(patientId, items)` over the batch table: the final table and the reply. */
  function Bill(batches: seq<Batch>, medicines: seq<Medicine>, lines: seq<BillLine>): (r: Billing)
    ensures |r.batches| == |batches|
    decreases |lines|
  {
    if lines == [] then Billing(batches, Invoice(0, []))
    else
      var step := BillOne(batches, medicines, lines[0]);
      match step.outcome
      case Skipped => Bill(step.batches, medicines, lines[1..])
      case Broken => Billing(step.batches, InvoiceFailed(InvoiceFailedMessage))
      case Charged(il) => Prepend(il, Bill(step.batches, medicines, lines[1..]))
  }

  /** The loop's accumulated total and lines in front of what the remaining lines give. */
  function Resume(total: int, acc: seq<InvoiceLine>, rest: Billing): Billing {
    match rest.result
    case Invoice(t, ls) => Billing(rest.batches, Invoice(total + t, acc + ls))
    case InvoiceFailed(_) => rest
  }

  lemma ResumePrepend(total: int, acc: seq<InvoiceLine>, il: InvoiceLine, rest: Billing)
    ensures Resume(total, acc, Prepend(il, rest)) == Resume(total + il.price, acc + [il], rest)
  {
    if rest.result.Invoice? {
      assert acc + ([il] + rest.result.lines) == acc + [il] + rest.result.lines;
    }
  }

  lemma ResumeNothing(r: Billing)
    ensures Resume(0, [], r) == r
  {
    if r.result.Invoice? {
      assert [] + r.result.lines == r.result.lines;
    }
  }

  /** The remaining lines, one line unfolded: the step's table feeds the rest unless the step threw. */
  lemma BillUnfold(batches: seq<Batch>, medicines: seq<Medicine>, lines: seq<BillLine>, i: nat)
    requires i < |lines|
    ensures var step := BillOne(batches, medicines, lines[i]);
            Bill(batches, medicines, lines[i..])
            == match step.outcome
               case Skipped => Bill(step.batches, medicines, lines[i + 1..])
               case Broken => Billing(step.batches, InvoiceFailed(InvoiceFailedMessage))
               case Charged(il) => Prepend(il, Bill(step.batches, medicines, lines[i + 1..]))
  {
    assert lines[i..][0] == lines[i] && lines[i..][1..] == lines[i + 1..];
  }

  /**
   * The loop's invariant survives a line that did not throw: the
   * accumulators, grown by the charged line if any, in front of the
   * remaining lines still give the whole billing.
   */
  lemma StepResume(total: int, acc: seq<InvoiceLine>, total': int, acc': seq<InvoiceLine>, before: seq<Batch>, after: seq<Batch>,
                   medicines: seq<Medicine>, lines: seq<BillLine>, i: nat, outcome: Outcome, billed: Billing)
    requires i < |lines| && !outcome.Broken?
    requires LineStep(after, outcome) == BillOne(before, medicines, lines[i])
    requires Resume(total, acc, Bill(before, medicines, lines[i..])) == billed
    requires outcome.Skipped? ==> total' == total && acc' == acc
    requires outcome.Charged? ==> total' == total + outcome.line.price && acc' == acc + [outcome.line]
    ensures Resume(total', acc', Bill(after, medicines, lines[i + 1..])) == billed
  {
    var rest := Bill(after, medicines, lines[i + 1..]);
    BillUnfold(before, medicines, lines, i);
    if outcome.Charged? {
      assert Bill(before, medicines, lines[i..]) == Prepend(outcome.line, rest);
      ResumePrepend(total, acc, outcome.line, rest);
    } else {
      assert Bill(before, medicines, lines[i..]) == rest;
    }
  }

  /** A line that throws ends the billing with the table as the throw left it. */
  lemma BrokenResume(total: int, acc: seq<InvoiceLine>, before: seq<Batch>, after: seq<Batch>,
                     medicines: seq<Medicine>, lines: seq<BillLine>, i: nat, billed: Billing)
    requires i < |lines|
    requires LineStep(after, Broken) == BillOne(before, medicines, lines[i])
    requires Resume(total, acc, Bill(before, medicines, lines[i..])) == billed
    ensures billed == Billing(after, InvoiceFailed(InvoiceFailedMessage))
  {
    BillUnfold(before, medicines, lines, i);
  }

  /** With no lines left, the accumulators are the reply. */
  lemma DoneResume(total: int, acc: seq<InvoiceLine>, batches: seq<Batch>, medicines: seq<Medicine>, billed: Billing)
    requires Resume(total, acc, Bill(batches, medicines, [])) == billed
    ensures billed == Billing(batches, Invoice(total, acc))
  {
    assert acc + [] == acc;
  }

  /**
   * One iteration of the loop: looks the batch up, and when it holds
   * enough stock decrements it in place and prices the line.
   */
  method BillLineStep(inv: Inventory, line: BillLine) returns (outcome: Outcome)
    modifies inv`batches
    ensures LineStep(inv.batches, outcome) == BillOne(old(inv.batches), inv.medicines, line)
  {
    var found := FindBatch(inv.batches, line.batchNo);
    if found.None? || inv.batches[found.value].currentStock < line.quantity {
      return Skipped;
    }
    var batch := inv.batches[found.value];
    inv.batches := inv.batches[found.value := batch.(currentStock := batch.currentStock - line.quantity)];
    var medicine := MedicineById(inv.medicines, batch.medicineId);
    if medicine.None? {
      // `batch.medicine.price_per_unit` throws after the decrement.
      return Broken;
    }
    var cost := medicine.value.pricePerUnit * line.quantity;
    outcome := Charged(InvoiceLine(medicine.value.brandName, line.quantity, cost, line.batchNo));
  }

  /**
   * One iteration of the loop with its accumulators: the line is billed
   * and, when charged, its price and invoice line are added. The
   * accumulators in front of the remaining lines still give the whole
   * billing, unless the line threw, which ends it.
   */
  method AccumulateLine(inv: Inventory, lines: seq<BillLine>, i: nat, total: int, invoiceItems: seq<InvoiceLine>, ghost billed: Billing)
    returns (outcome: Outcome, total': int, invoiceItems': seq<InvoiceLine>)
    requires i < |lines|
    requires Resume(total, invoiceItems, Bill(inv.batches, inv.medicines, lines[i..])) == billed
    modifies inv`batches
    ensures outcome.Broken? ==> billed == Billing(inv.batches, InvoiceFailed(InvoiceFailedMessage))
    ensures !outcome.Broken? ==> Resume(total', invoiceItems', Bill(inv.batches, inv.medicines, lines[i + 1..])) == billed
  {
    ghost var before := inv.batches;
    outcome := BillLineStep(inv, lines[i]);
    total', invoiceItems' := total, invoiceItems;
    if outcome.Broken? {
      BrokenResume(total, invoiceItems, before, inv.batches, inv.medicines, lines, i, billed);
      return;
    }
    if outcome.Charged? {
      total' := total + outcome.line.price;
      invoiceItems' := invoiceItems + [outcome.line];
    }
    StepResume(total, invoiceItems, total', invoiceItems', before, inv.batches, inv.medicines, lines, i, outcome, billed);
  }

  /**
   * `generateInvoice(patientId, items)`: walks the lines in order,
   * decrementing the batch table in place and accumulating the total and
   * the invoice lines; the final table and reply are those of `Bill`.
   */
  method GenerateInvoice(inv: Inventory, lines: seq<BillLine>) returns (r: InvoiceResult)
    modifies inv`batches
    ensures Billing(inv.batches, r) == Bill(old(inv.batches), inv.medicines, lines)
  {
    var total := 0;
    var invoiceItems: seq<InvoiceLine> := [];
    ghost var medicines := inv.medicines;
    ghost var billed := Bill(inv.batches, medicines, lines);
    ResumeNothing(billed);
    var i := 0;
    while i < |lines|
      invariant 0 <= i <= |lines| && inv.medicines == medicines
      invariant Resume(total, invoiceItems, Bill(inv.batches, medicines, lines[i..])) == billed
    {
      var outcome;
      outcome, total, invoiceItems := AccumulateLine(inv, lines, i, total, invoiceItems, billed);
      if outcome.Broken? {
        return InvoiceFailed(InvoiceFailedMessage);
      }
      i := i + 1;
    }
    assert lines[i..] == [];
    DoneResume(total, invoiceItems, inv.batches, medicines, billed);
    r := Invoice(total, invoiceItems);
  }


  // ---------------------------------------------------------------------
  // What billing promises
  // ---------------------------------------------------------------------

  function PriceSum(ls: seq<InvoiceLine>): int {
    if ls == [] then 0 else ls[0].price + PriceSum(ls[1..])
  }

  function QuantitySum(ls: seq<InvoiceLine>): int {
    if ls == [] then 0 else ls[0].qty + QuantitySum(ls[1..])
  }

  function StockSum(batches: seq<Batch>): int {
    if batches == [] then 0 else batches[0].currentStock + StockSum(batches[1..])
  }

  lemma {:induction false} StockSumUpdate(batches: seq<Batch>, k: nat, b: Batch)
    requires k < |batches|
    ensures StockSum(batches[k := b]) == StockSum(batches) - batches[k].currentStock + b.currentStock
  {
    if k > 0 {
      assert batches[k := b][1..] == batches[1..][k - 1 := b];
      StockSumUpdate(batches[1..], k - 1, b);
    }
  }

  /**
   * The invoice line is priced from the billed batch's own medicine: the
   * batch with the line's number exists, and its medicine gives the line's
   * name and its unit price times the quantity.
   */
  predicate PricedFromBatch(batches: seq<Batch>, medicines: seq<Medicine>, il: InvoiceLine) {
    match FindBatch(batches, il.batchNo)
    case None => false
    case Some(k) =>
      match MedicineById(medicines, batches[k].medicineId)
      case None => false
      case Some(m) => il.medicineName == m.brandName && il.price == m.pricePerUnit * il.qty
  }

  /** Two tables that differ only in stock levels have the same batch numbers and medicines in the same places. */
  predicate SameRowsButStock(a: seq<Batch>, b: seq<Batch>) {
    |a| == |b| && forall k :: 0 <= k < |a| ==> a[k].batchNo == b[k].batchNo && a[k].medicineId == b[k].medicineId
  }

  /** Looking a batch number up gives the same index in two such tables. */
  lemma FindBatchSameRows(a: seq<Batch>, b: seq<Batch>, batchNo: string)
    requires SameRowsButStock(a, b)
    ensures FindBatch(a, batchNo) == FindBatch(b, batchNo)
  {
    var fa, fb := FindBatch(a, batchNo), FindBatch(b, batchNo);
    if fa.Some? {
      assert b[fa.value].batchNo == batchNo;
    }
    if fb.Some? {
      assert a[fb.value].batchNo == batchNo;
    }
  }

  /** A line priced from a table's batch is priced alike from any table that differs only in stock. */
  lemma PricedSameRows(a: seq<Batch>, b: seq<Batch>, medicines: seq<Medicine>, il: InvoiceLine)
    requires SameRowsButStock(a, b) && PricedFromBatch(b, medicines, il)
    ensures PricedFromBatch(a, medicines, il)
  {
    FindBatchSameRows(a, b, il.batchNo);
    var k := FindBatch(b, il.batchNo).value;
    assert a[k].medicineId == b[k].medicineId;
  }

  /**
   * The reply's total is the sum of its line prices; each line is priced
   * from the billed batch's own medicine, its unit price times the quantity.
   */
  lemma {:induction false} InvoiceTotal(batches: seq<Batch>, medicines: seq<Medicine>, lines: seq<BillLine>)
    ensures var r := Bill(batches, medicines, lines).result;
            r.Invoice? ==>
              && r.total == PriceSum(r.lines)
              && forall j :: 0 <= j < |r.lines| ==> PricedFromBatch(batches, medicines, r.lines[j])
    decreases |lines|
  {
    if lines != [] {
      var step := BillOne(batches, medicines, lines[0]);
      InvoiceTotal(step.batches, medicines, lines[1..]);
      StepStock(batches, medicines, lines[0]);
      var rest := Bill(step.batches, medicines, lines[1..]);
      assert SameRowsButStock(batches, step.batches);
      if step.outcome.Charged? && rest.result.Invoice? {
        var il := step.outcome.line;
        assert PricedFromBatch(batches, medicines, il);
        assert Bill(batches, medicines, lines) == Prepend(il, rest);
        var ls := [il] + rest.result.lines;
        forall j | 0 <= j < |ls|
          ensures PricedFromBatch(batches, medicines, ls[j])
        {
          if j > 0 {
            PricedSameRows(batches, step.batches, medicines, rest.result.lines[j - 1]);
          }
        }
      } else if step.outcome.Skipped? && rest.result.Invoice? {
        forall j | 0 <= j < |rest.result.lines|
          ensures PricedFromBatch(batches, medicines, rest.result.lines[j])
        {
          PricedSameRows(batches, step.batches, medicines, rest.result.lines[j]);
        }
      }
    }
  }

  /**
   * Stock moves only by what is invoiced: on success the batches together
   * lose exactly the invoiced quantities. No batch is left with negative
   * stock when none started with it, and a batch no line names is untouched.
   */
  lemma {:induction false} StockConservation(batches: seq<Batch>, medicines: seq<Medicine>, lines: seq<BillLine>)
    ensures var r := Bill(batches, medicines, lines);
            r.result.Invoice? ==> StockSum(batches) - StockSum(r.batches) == QuantitySum(r.result.lines)
    decreases |lines|
  {
    if lines != [] {
      var step := BillOne(batches, medicines, lines[0]);
      var rest := Bill(step.batches, medicines, lines[1..]);
      StockConservation(step.batches, medicines, lines[1..]);
      StepStock(batches, medicines, lines[0]);
      match step.outcome
      case Skipped =>
        assert Bill(batches, medicines, lines) == rest;
      case Broken =>
      case Charged(il) =>
        assert Bill(batches, medicines, lines) == Prepend(il, rest);
        if rest.result.Invoice? {
          assert ([il] + rest.result.lines)[1..] == rest.result.lines;
        }
    }
  }

  /**
   * One line moves stock only when it is not skipped, and then takes its
   * quantity off exactly the named batch, which held at least that much;
   * every other batch is untouched. A charged line bills that quantity.
   */
  lemma StepStock(batches: seq<Batch>, medicines: seq<Medicine>, l: BillLine)
    ensures var step := BillOne(batches, medicines, l);
            && (step.outcome.Skipped? ==> step.batches == batches)
            && (!step.outcome.Skipped? ==>
                  exists k :: FindBatch(batches, l.batchNo) == Some(k) && batches[k].currentStock >= l.quantity
                    && step.batches == batches[k := batches[k].(currentStock := batches[k].currentStock - l.quantity)])
            && (step.outcome.Charged? ==> step.outcome.line.qty == l.quantity && step.outcome.line.batchNo == l.batchNo)
            && (step.outcome.Charged? ==> StockSum(batches) - StockSum(step.batches) == step.outcome.line.qty)
  {
    match FindBatch(batches, l.batchNo)
    case None =>
    case Some(k) =>
      if batches[k].currentStock >= l.quantity {
        StockSumUpdate(batches, k, batches[k].(currentStock := batches[k].currentStock - l.quantity));
      }
  }

  /** Billing changes only stock levels, never to below zero, and only of batches some line names. */
  lemma {:induction false} BillTouchesOnlyStock(batches: seq<Batch>, medicines: seq<Medicine>, lines: seq<BillLine>)
    ensures var after := Bill(batches, medicines, lines).batches;
            forall k :: 0 <= k < |batches| ==>
              && after[k] == batches[k].(currentStock := after[k].currentStock)
              && (batches[k].currentStock >= 0 ==> after[k].currentStock >= 0)
              && (after[k].currentStock != batches[k].currentStock ==> exists l :: l in lines && l.batchNo == batches[k].batchNo)
    decreases |lines|
  {
    if lines != [] {
      var step := BillOne(batches, medicines, lines[0]);
      BillTouchesOnlyStock(step.batches, medicines, lines[1..]);
      var after := Bill(batches, medicines, lines).batches;
      assert after == Bill(step.batches, medicines, lines[1..]).batches || (step.outcome.Broken? && after == step.batches);
      forall k | 0 <= k < |batches| && after[k].currentStock != batches[k].currentStock
        ensures exists l :: l in lines && l.batchNo == batches[k].batchNo
      {
        if step.batches[k].currentStock != batches[k].currentStock {
          assert lines[0] in lines;
        } else {
          var l :| l in lines[1..] && l.batchNo == step.batches[k].batchNo;
          assert l in lines;
        }
      }
    }
  }

  /** A line whose batch is missing or short of stock changes nothing and adds no invoice line. */
  lemma SkippedLine(batches: seq<Batch>, medicines: seq<Medicine>, l: BillLine, rest: seq<BillLine>)
    requires FindBatch(batches, l.batchNo).None? || batches[FindBatch(batches, l.batchNo).value].currentStock < l.quantity
    ensures Bill(batches, medicines, [l] + rest) == Bill(batches, medicines, rest)
  {
    assert ([l] + rest)[0] == l && ([l] + rest)[1..] == rest;
  }

  /**
   * Lines are billed in order against the stock left by the earlier ones:
   * two lines on one batch that together ask for more than it holds bill
   * only the first.
   */
  lemma SecondLineSeesReducedStock(b: Batch, m: Medicine, q1: int, q2: int)
    requires b.medicineId == m.id && q1 <= b.currentStock < q1 + q2
    ensures var r := Bill([b], [m], [BillLine(b.batchNo, q1), BillLine(b.batchNo, q2)]);
            && r.batches == [b.(currentStock := b.currentStock - q1)]
            && r.result == Invoice(m.pricePerUnit * q1, [InvoiceLine(m.brandName, q1, m.pricePerUnit * q1, b.batchNo)])
  {
    var lines := [BillLine(b.batchNo, q1), BillLine(b.batchNo, q2)];
    var after := [b.(currentStock := b.currentStock - q1)];
    assert FindBatch([b], b.batchNo) == Some(0);
    assert FindBatch(after, b.batchNo) == Some(0);
    assert MedicineById([m], b.medicineId) == Some(m);
    assert lines[0..] == lines && lines[2..] == [];
    BillUnfold([b], [m], lines, 0);
    BillUnfold(after, [m], lines, 1);
  }

  // ---------------------------------------------------------------------
  // getPharmacyQueue
  // ---------------------------------------------------------------------

  predicate Open(o: Order) {
    o.status == Pending || o.status == Processed
  }

  /** Newest first. */
  function NewestFirst(o: Order): int {
    -o.createdAt
  }

  /** An order row with its item rows and its patient row, or `null` when the patient is not registered. */
  datatype QueuedOrder = QueuedOrder(order: Order, items: seq<OrderItem>, patient: Option<Patient>)

  function PatientOf(patients: seq<Patient>, patientId: string): (r: Option<Patient>)
    ensures r.Some? ==> r.value in patients && r.value.patientId == patientId
    ensures r.None? ==> forall p :: p in patients ==> p.patientId != patientId
  {
    match FirstIndex(patients, (p: Patient) => p.patientId == patientId)
    case Some(k) => Some(patients[k])
    case None => None
  }

  function ItemOf(orderId: int): OrderItem -> bool {
    (it: OrderItem) => it.orderId == orderId
  }

  /**
   * `getPharmacyQueue()` over the rows of the order, item and patient
   * tables: the Pending and Processed orders, newest first, each with its
   * items and its patient. The source fetches only the patients whose id
   * some open order has; `find` over those is `find` over all of them.
   */
  function PharmacyQueue(orders: seq<Order>, items: seq<OrderItem>, patients: seq<Patient>): (r: seq<QueuedOrder>)
    ensures |r| == |Filter(orders, Open)|
  {
    var open := SortBy(Filter(orders, Open), NewestFirst);
    seq(|open|, k requires 0 <= k < |open| =>
      QueuedOrder(open[k], Filter(items, ItemOf(open[k].id)), PatientOf(patients, open[k].patientId)))
  }

  /** The queue lists exactly the open orders, newest first. */
  lemma PharmacyQueueOrders(orders: seq<Order>, items: seq<OrderItem>, patients: seq<Patient>)
    ensures var q := PharmacyQueue(orders, items, patients);
            && (forall o :: o in orders ==> (Open(o) <==> exists k :: 0 <= k < |q| && q[k].order == o))
            && (forall k :: 0 <= k < |q| ==> Open(q[k].order))
            && (forall i, j :: 0 <= i < j < |q| ==> q[i].order.createdAt >= q[j].order.createdAt)
  {
    var kept := Filter(orders, Open);
    var open := SortBy(kept, NewestFirst);
    var q := PharmacyQueue(orders, items, patients);
    forall o | o in orders
      ensures Open(o) <==> exists k :: 0 <= k < |q| && q[k].order == o
    {
      FilterMember(orders, Open, o);
      SortByMember(kept, NewestFirst, o);
      if o in open {
        var k :| 0 <= k < |open| && open[k] == o;
        assert q[k].order == o;
      }
    }
    forall k | 0 <= k < |q|
      ensures Open(q[k].order)
    {
      SortByMember(kept, NewestFirst, open[k]);
    }
  }

  /**
   * Each queued order comes with exactly its own items, and with its
   * patient exactly when that patient is registered.
   */
  lemma PharmacyQueueJoin(orders: seq<Order>, items: seq<OrderItem>, patients: seq<Patient>)
    ensures var q := PharmacyQueue(orders, items, patients);
            && (forall k :: 0 <= k < |q| ==> forall it :: it in items ==> (it in q[k].items <==> it.orderId == q[k].order.id))
            && (forall k :: 0 <= k < |q| ==> (q[k].patient.Some? <==> exists p :: p in patients && p.patientId == q[k].order.patientId))
  {
    var q := PharmacyQueue(orders, items, patients);
    forall k, it | 0 <= k < |q| && it in items
      ensures it in q[k].items <==> it.orderId == q[k].order.id
    {
      FilterMember(items, ItemOf(q[k].order.id), it);
    }
  }

  // ---------------------------------------------------------------------
  // markOrderAsPaid
  // ---------------------------------------------------------------------

  datatype UpdateResult = Updated | UpdateFailed(error: string)

  const MarkPaidFailedMessage := "Failed to update order"

  /** `markOrderAsPaid(orderId)`: the order becomes Completed; a missing order makes the update throw. */
  method MarkOrderAsPaid(book: OrderBook, orderId: int) returns (r: UpdateResult)
    requires book.Valid()
    modifies book`orders
    ensures book.Valid()
    ensures orderId in old(book.orders) ==>
              r == Updated && book.orders == old(book.orders)[orderId := old(book.orders)[orderId].(status := Completed)]
    ensures orderId !in old(book.orders) ==> r == UpdateFailed(MarkPaidFailedMessage) && book.orders == old(book.orders)
  {
    if orderId !in book.orders {
      return UpdateFailed(MarkPaidFailedMessage);
    }
    OrdersValidWrite(book.orders, book.nextOrderId, book.orders[orderId].(status := Completed));
    book.orders := book.orders[orderId := book.orders[orderId].(status := Completed)];
    r := Updated;
  }

  /** Marking paid changes the status column of one order and nothing else; doing it twice is doing it once. */
  lemma MarkPaidOnlyStatus(orders: map<int, Order>, orderId: int)
    requires orderId in orders
    ensures var after := orders[orderId := orders[orderId].(status := Completed)];
            && after.Keys == orders.Keys
            && after[orderId] == orders[orderId].(status := Completed)
            && (forall id :: id in orders && id != orderId ==> after[id] == orders[id])
            && after[orderId := after[orderId].(status := Completed)] == after
  {
  }

  // ---------------------------------------------------------------------
  // addInventoryBatch
  // ---------------------------------------------------------------------

  /**
   * The form's fields. An absent `medicine_id` or `brand_name` is `None`;
   * JavaScript also treats the id 0 and the empty name as absent.
   */
  datatype BatchForm = BatchForm(
    medicineId: Option<int>,
    brandName: Option<string>,
    genericName: Option<string>,
    batchNo: string,
    stock: int,
    price: int,
    expiry: int,
    rack: string)

  predicate HasId(id: Option<int>) {
    id.Some? && id.value != 0
  }

  predicate HasName(name: Option<string>) {
    name.Some? && name.value != ""
  }

  datatype AddResult = Added | AddFailed(error: string)

  const InvalidMedicineMessage := "Invalid Medicine ID"
  const AddFailedMessage := "Failed to add inventory"

  /** Whether a master row already has this brand name. */
  predicate BrandTaken(medicines: seq<Medicine>, name: string) {
    FirstIndex(medicines, (m: Medicine) => m.brandName == name).Some?
  }

  /**
   * Whether the batch insert is accepted: its batch number is new and its
   * medicine exists (the unique key and the foreign key of the table).
   */
  predicate Insertable(batches: seq<Batch>, medicines: seq<Medicine>, batchNo: string, medicineId: int) {
    FindBatch(batches, batchNo).None? && MedicineById(medicines, medicineId).Some?
  }

  /**
   * `addInventoryBatch(data)`: without a medicine id but with a brand name
   * the master row is created first (price from the form), unless that
   * brand name is already in the master, whose unique key then rejects the
   * create and nothing is written; without either the call fails before
   * writing. A rejected batch insert fails after the master row was created.
   */
  method AddInventoryBatch(inv: Inventory, data: BatchForm) returns (r: AddResult)
    requires inv.Valid()
    modifies inv`medicines, inv`nextMedicineId, inv`batches
    ensures inv.Valid()
    ensures var created := !HasId(data.medicineId) && HasName(data.brandName);
            var duplicate := created && BrandTaken(old(inv.medicines), data.brandName.value);
            var newMed := Medicine(old(inv.nextMedicineId), data.brandName.GetOr(""), data.genericName.GetOr(""), data.price);
            var medicineId := if created then old(inv.nextMedicineId) else data.medicineId.GetOr(0);
            && inv.medicines == (if created && !duplicate then old(inv.medicines) + [newMed] else old(inv.medicines))
            && inv.nextMedicineId == (if created && !duplicate then old(inv.nextMedicineId) + 1 else old(inv.nextMedicineId))
            && (if duplicate then
                  r == AddFailed(AddFailedMessage) && inv.batches == old(inv.batches)
                else if !HasId(data.medicineId) && !created then
                  r == AddFailed(InvalidMedicineMessage) && inv.batches == old(inv.batches)
                else if Insertable(old(inv.batches), inv.medicines, data.batchNo, medicineId) then
                  r == Added && inv.batches == old(inv.batches) + [Batch(data.batchNo, medicineId, data.stock, data.expiry, data.rack)]
                else
                  r == AddFailed(AddFailedMessage) && inv.batches == old(inv.batches))
  {
    var medicineId := data.medicineId;
    if !HasId(medicineId) && HasName(data.brandName) {
      if BrandTaken(inv.medicines, data.brandName.value) {
        // The master's unique key on `brand_name` makes the create throw.
        return AddFailed(AddFailedMessage);
      }
      var id := inv.nextMedicineId;
      var med := Medicine(id, data.brandName.value, data.genericName.GetOr(""), data.price);
      AppendFreshMedicine(inv.medicines, med);
      inv.medicines := inv.medicines + [med];
      inv.nextMedicineId := id + 1;
      medicineId := Some(id);
    }
    if !HasId(medicineId) {
      return AddFailed(InvalidMedicineMessage);
    }
    if !Insertable(inv.batches, inv.medicines, data.batchNo, medicineId.value) {
      return AddFailed(AddFailedMessage);
    }
    AppendFreshBatch(inv.batches, Batch(data.batchNo, medicineId.value, data.stock, data.expiry, data.rack));
    inv.batches := inv.batches + [Batch(data.batchNo, medicineId.value, data.stock, data.expiry, data.rack)];
    r := Added;
  }

  /** A medicine whose brand name is not yet taken keeps the brand names unique. */
  lemma AppendFreshMedicine(medicines: seq<Medicine>, m: Medicine)
    requires BrandNamesUnique(medicines) && !BrandTaken(medicines, m.brandName)
    ensures BrandNamesUnique(medicines + [m])
  {
  }

  /** A batch with a new number keeps the batch numbers unique. */
  lemma AppendFreshBatch(batches: seq<Batch>, b: Batch)
    requires BatchNosUnique(batches) && FindBatch(batches, b.batchNo).None?
    ensures BatchNosUnique(batches + [b])
  {
  }
}
