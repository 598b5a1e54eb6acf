/**
 * The doctor's server actions (app/actions/doctor-actions.ts): pharmacy
 * order settlement against the dispensing agent's reply, the admission-id
 * lookup of a medical note, the appointment status update and the queue
 * mapping.
 */
module DoctorActions {
  import opened Wrappers
  import opened Text
  import opened Lists
  import opened Store

  // ---------------------------------------------------------------------
  // The dispensing agent's reply, as far as the settlement reads it
  // ---------------------------------------------------------------------

  /** One `{medicine, price, batch}` record; a missing name reads as "" (normalised to '' either way). */
  datatype MedEntry = MedEntry(medicine: string, price: Option<int>, batch: Option<string>)

  /**
   * The value under `dispensed_medicines` or `unavailable_medicines`:
   * absent or falsy, a flat array, an object holding the array under the
   * same key again, or anything else (which has no array `find`).
   */
  datatype MedField = Absent | Flat(entries: seq<MedEntry>) | Nested(entries: seq<MedEntry>) | Malformed

  /** `bill_summary`; each missing or falsy number reads as 0 (`|| 0`). */
  datatype BillSummary = BillSummary(totalAmountToCollect: int, itemsDispensed: int, itemsMissing: int)

  datatype AgentReport = AgentReport(bill: BillSummary, dispensed: MedField, unavailable: MedField)

  /** What property access yields on an array or a primitive: every field undefined. */
  const NoReport := AgentReport(BillSummary(0, 0, 0), Absent, Absent)

  /** A parsed JSON body: null, a primitive, an array, or an object. */
  datatype Json = JNull | JScalar | JArray(elems: seq<Json>) | JObject(report: AgentReport)

  datatype Body = NotJson(text: string) | Parsed(json: Json)

  /** The webhook call: it threw (network), answered with a non-ok status, or delivered a body. */
  datatype AgentCall = Unreachable | HttpError(status: int) | Delivered(body: Body)

  /** The action's reply: `success: true` with the agent's result, `agentStatus: 'Failed'`, or `success: false`. */
  datatype OrderResult =
    | Settled(orderId: int, agentResponse: AgentReport)
    | AgentOffline(orderId: int, message: string)
    | OrderFailed(error: string)

  const AgentOfflineMessage := "Order sent to pharmacy (Agent offline)"
  const OrderFailedMessage := "Failed to create pharmacy order"

  /** `result` used as an object: null (and undefined) throw on property access, a non-object has no fields. */
  function AsReport(v: Json): Option<AgentReport> {
    match v
    case JNull => None
    case JObject(r) => Some(r)
    case _ => Some(NoReport)
  }

  /**
   * An array body stands for its first element; an empty array gives
   * undefined. Only `null` and undefined throw; a scalar reads every field
   * as undefined.
   */
  function Unwrap(v: Json): (r: Option<AgentReport>)
    ensures r.None? <==> v.JNull? || (v.JArray? && (v.elems == [] || v.elems[0].JNull?))
    ensures v.JObject? ==> r == Some(v.report)
    ensures v.JScalar? || (v.JArray? && v.elems != [] && (v.elems[0].JScalar? || v.elems[0].JArray?)) ==> r == Some(NoReport)
  {
    if v.JArray? then (if v.elems == [] then None else AsReport(v.elems[0])) else AsReport(v)
  }

  /** Only the first element of an array body is ever read. */
  lemma ArrayBodyUsesFirst(e: Json, rest: seq<Json>)
    ensures Unwrap(JArray([e] + rest)) == Unwrap(JArray([e]))
    ensures e.JObject? ==> Unwrap(JArray([e] + rest)) == Unwrap(e) == Some(e.report)
  {
  }

  /** The medicine list after undoing the nesting; `None` where `find` would throw. */
  function Entries(f: MedField): Option<seq<MedEntry>> {
    match f
    case Absent => Some([])
    case Flat(es) => Some(es)
    case Nested(es) => Some(es)
    case Malformed => None
  }

  // ---------------------------------------------------------------------
  // Order creation
  // ---------------------------------------------------------------------

  /** A prescription line `{name, qty}` sent by the doctor's cart. */
  datatype CartLine = CartLine(name: string, qty: int)

  /** The order row as created: Pending, one requested item per cart line. */
  function NewOrder(id: int, patientId: string, doctorId: string, lineCount: nat, now: int): (o: Order)
    ensures o.id == id && o.patientId == patientId && o.doctorId == doctorId
    ensures o.status == Pending && o.totalItemsRequested == lineCount
  {
    Order(id, patientId, doctorId, Pending, lineCount, 0, 0, 0, now)
  }

  /** The item rows as created, with consecutive ids from `firstId`: one Pending item per line, in line order. */
  function NewItems(orderId: int, firstId: int, lines: seq<CartLine>): (r: seq<OrderItem>)
    ensures |r| == |lines|
    ensures forall k :: 0 <= k < |r| ==> r[k].id == firstId + k && r[k].orderId == orderId
    ensures forall k :: 0 <= k < |r| ==>
      && r[k].status == ItemPending
      && r[k].medicineName == lines[k].name
      && r[k].quantityRequested == lines[k].qty
      && r[k].quantityDispensed.None? && r[k].totalPrice.None?
  {
    seq(|lines|, k requires 0 <= k < |lines| =>
      OrderItem(firstId + k, orderId, lines[k].name, lines[k].qty, None, ItemPending, None, None, None))
  }

  // ---------------------------------------------------------------------
  // First pass: matching by normalised name
  // ---------------------------------------------------------------------

  /** `s ? s.trim().toLowerCase() : ''` */
  function Normalize(s: string): string {
    Lower(Trim(s))
  }

  /** Index of the first entry whose normalised name equals `name` (`list.find`). */
  function MatchIndex(entries: seq<MedEntry>, name: string): (r: Option<nat>)
    ensures r.Some? ==> r.value < |entries| && Normalize(entries[r.value].medicine) == name
    ensures r.Some? ==> forall j :: 0 <= j < r.value ==> Normalize(entries[j].medicine) != name
    ensures r.None? ==> forall j :: 0 <= j < |entries| ==> Normalize(entries[j].medicine) != name
  {
    FirstIndex(entries, (e: MedEntry) => Normalize(e.medicine) == name)
  }

  /** The item names a medicine of the list, up to white space and case. */
  ghost predicate Listed(entries: seq<MedEntry>, itemName: string) {
    exists e :: e in entries && Normalize(e.medicine) == Normalize(itemName)
  }

  lemma MatchIndexListed(entries: seq<MedEntry>, itemName: string)
    ensures MatchIndex(entries, Normalize(itemName)).Some? <==> Listed(entries, itemName)
  {
    var p := (e: MedEntry) => Normalize(e.medicine) == Normalize(itemName);
    if e :| e in entries && Normalize(e.medicine) == Normalize(itemName) {
      var j :| 0 <= j < |entries| && entries[j] == e;
      assert p(entries[j]);
    }
  }

  /** The update of a dispensed match: reported price and batch (when present), requested quantity dispensed. */
  function Dispense(it: OrderItem, d: MedEntry): (r: OrderItem)
    ensures r.status == Dispensed && r.quantityDispensed == Some(it.quantityRequested)
    ensures r.totalPrice == Some(d.price.GetOr(0) * it.quantityRequested)
    ensures r.unitPrice == (if d.price.Some? then d.price else it.unitPrice)
    ensures r.batchId == (if d.batch.Some? then d.batch else it.batchId)
  {
    it.(status := Dispensed,
        quantityDispensed := Some(it.quantityRequested),
        unitPrice := if d.price.Some? then d.price else it.unitPrice,
        totalPrice := Some(d.price.GetOr(0) * it.quantityRequested),
        batchId := if d.batch.Some? then d.batch else it.batchId)
  }

  /** The update of an unavailable match. */
  function MarkOutOfStock(it: OrderItem): (r: OrderItem)
    ensures r.status == OutOfStock && r.quantityDispensed == Some(0)
    ensures r.unitPrice == it.unitPrice && r.totalPrice == it.totalPrice && r.batchId == it.batchId
  {
    it.(status := OutOfStock, quantityDispensed := Some(0))
  }

  /** One item of the first pass: the dispensed list is tried first, then the unavailable one, else no change. */
  function MatchItem(it: OrderItem, dispensed: seq<MedEntry>, unavailable: seq<MedEntry>): (r: OrderItem)
    ensures r.id == it.id && r.orderId == it.orderId
    ensures r.medicineName == it.medicineName && r.quantityRequested == it.quantityRequested
  {
    var name := Normalize(it.medicineName);
    match MatchIndex(dispensed, name)
    case Some(k) => Dispense(it, dispensed[k])
    case None =>
      if MatchIndex(unavailable, name).Some? then MarkOutOfStock(it) else it
  }

  function FirstPass(items: seq<OrderItem>, dispensed: seq<MedEntry>, unavailable: seq<MedEntry>): (r: seq<OrderItem>)
    ensures |r| == |items|
  {
    seq(|items|, k requires 0 <= k < |items| => MatchItem(items[k], dispensed, unavailable))
  }

  // ---------------------------------------------------------------------
  // Second pass: authoritative prices from the medicine master
  // ---------------------------------------------------------------------

  /**
   * The master record `findFirst` returns for a name: brand equal ignoring
   * case, and NOT trimmed (unlike the first pass).
   */
  function MasterIndex(master: seq<Medicine>, name: string): (r: Option<nat>)
    ensures r.Some? ==> r.value < |master| && Lower(master[r.value].brandName) == Lower(name)
    ensures r.Some? ==> forall j :: 0 <= j < r.value ==> Lower(master[j].brandName) != Lower(name)
    ensures r.None? ==> forall j :: 0 <= j < |master| ==> Lower(master[j].brandName) != Lower(name)
  {
    FirstIndex(master, (m: Medicine) => Lower(m.brandName) == Lower(name))
  }

  /** A dispensed item with a master record takes the master's unit price; any other item is left alone. */
  function Reprice(it: OrderItem, master: seq<Medicine>): (r: OrderItem)
    ensures r.id == it.id && r.orderId == it.orderId && r.status == it.status
    ensures r.medicineName == it.medicineName && r.quantityRequested == it.quantityRequested
    ensures r.quantityDispensed == it.quantityDispensed && r.batchId == it.batchId
  {
    if it.status != Dispensed then it
    else
      match MasterIndex(master, it.medicineName)
      case Some(k) =>
        var price := master[k].pricePerUnit;
        it.(unitPrice := Some(price), totalPrice := Some(price * it.quantityRequested))
      case None => it
  }

  function SecondPass(items: seq<OrderItem>, master: seq<Medicine>): (r: seq<OrderItem>)
    ensures |r| == |items|
  {
    seq(|items|, k requires 0 <= k < |items| => Reprice(items[k], master))
  }

  predicate IsDispensed(it: OrderItem) {
    it.status == Dispensed
  }

  /** What a row adds to the order total: its total price (or 0) when dispensed. */
  function Charge(it: OrderItem): int {
    if it.status == Dispensed then it.totalPrice.GetOr(0) else 0
  }

  /** Sum of `total_price` over the dispensed items. */
  function DispensedTotal(items: seq<OrderItem>): int {
    if items == [] then 0 else Charge(items[0]) + DispensedTotal(items[1..])
  }

  lemma {:induction false} DispensedTotalAppend(a: seq<OrderItem>, b: seq<OrderItem>)
    ensures DispensedTotal(a + b) == DispensedTotal(a) + DispensedTotal(b)
  {
    if a == [] {
      assert a + b == b;
    } else {
      assert (a + b)[0] == a[0] && (a + b)[1..] == a[1..] + b;
      DispensedTotalAppend(a[1..], b);
    }
  }

  /** Number of dispensed items. */
  function DispensedCount(items: seq<OrderItem>): nat {
    Count(items, IsDispensed)
  }

  // ---------------------------------------------------------------------
  // The whole settlement
  // ---------------------------------------------------------------------

  datatype Settlement = Settlement(order: Order, items: seq<OrderItem>, result: OrderResult)

  /** What the webhook call leaves for the settlement: the reply to give up with, or the agent's report. */
  datatype Reply = Failed(result: OrderResult) | Report(report: AgentReport)

  /**
   * The agent call read as `createPharmacyOrder` reads it: a throw is a
   * failure, a non-ok status leaves the order with the agent offline, a body
   * that does not parse or that unwraps to nothing usable is a failure.
   */
  function AgentReply(orderId: int, call: AgentCall): (r: Reply)
    ensures r.Report? <==> call.Delivered? && call.body.Parsed? && Unwrap(call.body.json).Some?
    ensures r.Report? ==> Some(r.report) == Unwrap(call.body.json)
    ensures r.Failed? ==> r.result == if call.HttpError? then AgentOffline(orderId, AgentOfflineMessage) else OrderFailed(OrderFailedMessage)
  {
    match call
    case Unreachable => Failed(OrderFailed(OrderFailedMessage))
    case HttpError(_) => Failed(AgentOffline(orderId, AgentOfflineMessage))
    case Delivered(NotJson(_)) => Failed(OrderFailed(OrderFailedMessage))
    case Delivered(Parsed(json)) =>
      match Unwrap(json)
      case None => Failed(OrderFailed(OrderFailedMessage))
      case Some(report) => Report(report)
  }

  /** The order row once the agent answered: Processed, with the agent's bill summary. */
  function WithBill(order: Order, bill: BillSummary): (o: Order)
    ensures o.id == order.id && o.status == Processed && o.totalItemsRequested == order.totalItemsRequested
    ensures o.totalAmount == bill.totalAmountToCollect && o.itemsDispensed == bill.itemsDispensed
    ensures o.itemsMissing == bill.itemsMissing
  {
    order.(
      status := Processed,
      totalAmount := bill.totalAmountToCollect,
      itemsDispensed := bill.itemsDispensed,
      itemsMissing := bill.itemsMissing)
  }

  /**
   * The order row, its item rows and the reply once the agent's report is
   * in: the order takes the bill summary; a medicine list without `find`
   * fails the action when there is an item to look up; otherwise both
   * passes run and the order's totals are recomputed from the rows.
   */
  function ApplyReport(order: Order, items: seq<OrderItem>, report: AgentReport, master: seq<Medicine>): Settlement {
    var processed := WithBill(order, report.bill);
    var dispensed := Entries(report.dispensed);
    var unavailable := Entries(report.unavailable);
    if items != [] && (dispensed.None? || unavailable.None?) then
      Settlement(processed, items, OrderFailed(OrderFailedMessage))
    else
      var settled := SecondPass(FirstPass(items, dispensed.GetOr([]), unavailable.GetOr([])), master);
      Settlement(
        processed.(totalAmount := DispensedTotal(settled), itemsDispensed := DispensedCount(settled)),
        settled,
        Settled(order.id, report))
  }

  /**
   * The order row, its item rows and the reply after `createPharmacyOrder`
   * handled the agent call, given the rows as created and the master table.
   */
  function Settle(order: Order, items: seq<OrderItem>, call: AgentCall, master: seq<Medicine>): Settlement {
    match AgentReply(order.id, call)
    case Failed(result) => Settlement(order, items, result)
    case Report(report) => ApplyReport(order, items, report, master)
  }


  // ---------------------------------------------------------------------
  // What the settlement promises
  // ---------------------------------------------------------------------

  /**
   * A call that threw, answered with a non-ok status, or delivered a body
   * that is not JSON (or unwraps to nothing) leaves the order and its items
   * exactly as created. Only a non-ok status counts as success, with the
   * agent reported offline.
   */
  lemma FailedCallKeepsRows(order: Order, items: seq<OrderItem>, call: AgentCall, master: seq<Medicine>)
    requires !call.Delivered? || call.body.NotJson? || Unwrap(call.body.json).None?
    ensures var s := Settle(order, items, call, master);
            && s.order == order && s.items == items
            && (call.HttpError? ==> s.result == AgentOffline(order.id, AgentOfflineMessage))
            && (!call.HttpError? ==> s.result == OrderFailed(OrderFailedMessage))
  {
  }

  /** Once the agent's report is in, the order is Processed whatever happens next. */
  lemma ReportMarksProcessed(order: Order, items: seq<OrderItem>, call: AgentCall, master: seq<Medicine>)
    requires order.status == Pending
    ensures var s := Settle(order, items, call, master);
            && (s.order.status == Processed <==> AgentReply(order.id, call).Report?)
            && (s.order.status != Processed ==> s.order == order)
            && s.order.id == order.id && s.order.totalItemsRequested == order.totalItemsRequested
  {
  }

  /**
   * A medicine list that is neither absent nor an array makes the action
   * fail, but only after the order took the bill summary, and only when
   * there is an item to look up; the items stay as created.
   */
  lemma MalformedListAfterProcessed(order: Order, items: seq<OrderItem>, report: AgentReport, master: seq<Medicine>)
    requires report.dispensed.Malformed? || report.unavailable.Malformed?
    ensures var s := ApplyReport(order, items, report, master);
            && (items != [] ==> s == Settlement(WithBill(order, report.bill), items, OrderFailed(OrderFailedMessage)))
            && (items == [] ==> s.result == Settled(order.id, report) && s.items == [] && s.order.totalAmount == 0)
  {
    if items == [] {
      var settled := SecondPass(FirstPass(items, Entries(report.dispensed).GetOr([]), Entries(report.unavailable).GetOr([])), master);
      assert settled == [];
    }
  }

  /**
   * The status of a created (Pending) item after both passes: Dispensed
   * exactly when the dispensed list names it, Out of Stock exactly when only
   * the unavailable list does, and otherwise the row is untouched.
   */
  lemma SettledItemStatus(it: OrderItem, dispensed: seq<MedEntry>, unavailable: seq<MedEntry>, master: seq<Medicine>)
    requires it.status == ItemPending
    ensures var r := Reprice(MatchItem(it, dispensed, unavailable), master);
            && (r.status == Dispensed <==> Listed(dispensed, it.medicineName))
            && (r.status == OutOfStock <==> !Listed(dispensed, it.medicineName) && Listed(unavailable, it.medicineName))
            && (r.status == ItemPending <==> !Listed(dispensed, it.medicineName) && !Listed(unavailable, it.medicineName))
            && (r.status == ItemPending ==> r == it)
            && (r.status == OutOfStock ==> r == it.(status := OutOfStock, quantityDispensed := Some(0)))
  {
    MatchIndexListed(dispensed, it.medicineName);
    MatchIndexListed(unavailable, it.medicineName);
  }

  /**
   * The prices of a dispensed item after both passes. `e` is the first
   * dispensed entry with the item's normalised name; the item dispenses the
   * requested quantity from `e`'s batch. With a master record (first brand
   * equal ignoring case, untrimmed) the master price sets unit and total
   * price; without one the total is `e`'s price (or 0) times the quantity.
   */
  lemma SettledItemPrice(it: OrderItem, dispensed: seq<MedEntry>, unavailable: seq<MedEntry>, master: seq<Medicine>)
    requires MatchIndex(dispensed, Normalize(it.medicineName)).Some?
    ensures var e := dispensed[MatchIndex(dispensed, Normalize(it.medicineName)).value];
            var r := Reprice(MatchItem(it, dispensed, unavailable), master);
            && r.status == Dispensed
            && r.quantityDispensed == Some(it.quantityRequested)
            && r.batchId == (if e.batch.Some? then e.batch else it.batchId)
            && match MasterIndex(master, it.medicineName)
               case Some(j) =>
                 r.unitPrice == Some(master[j].pricePerUnit) && r.totalPrice == Some(master[j].pricePerUnit * it.quantityRequested)
               case None =>
                 r.unitPrice == (if e.price.Some? then e.price else it.unitPrice)
                 && r.totalPrice == Some(e.price.GetOr(0) * it.quantityRequested)
  {
  }

  predicate IsOutOfStock(it: OrderItem) {
    it.status == OutOfStock
  }

  predicate IsStillPending(it: OrderItem) {
    it.status == ItemPending
  }

  /** Every row is Dispensed, Out of Stock or Pending: the three counts add up to the number of rows. */
  lemma {:induction false} StatusPartition(items: seq<OrderItem>)
    ensures Count(items, IsDispensed) + Count(items, IsOutOfStock) + Count(items, IsStillPending) == |items|
  {
    if items != [] {
      StatusPartition(items[1..]);
    }
  }

  /**
   * After a settled report the order's `total_amount` is the sum of the
   * dispensed rows' total prices and `items_dispensed` their number; with
   * the out-of-stock and still-pending rows they account for every item
   * requested. The missing count is the agent's, not recomputed.
   */
  lemma SettledTotals(order: Order, items: seq<OrderItem>, report: AgentReport, master: seq<Medicine>)
    requires order.totalItemsRequested == |items|
    requires ApplyReport(order, items, report, master).result.Settled?
    ensures var s := ApplyReport(order, items, report, master);
            && s.order.status == Processed
            && s.order.totalAmount == DispensedTotal(s.items)
            && s.order.itemsDispensed == |Filter(s.items, IsDispensed)|
            && s.order.itemsDispensed + Count(s.items, IsOutOfStock) + Count(s.items, IsStillPending) == s.order.totalItemsRequested
            && s.order.itemsMissing == report.bill.itemsMissing
  {
    var s := ApplyReport(order, items, report, master);
    CountIsFilterLength(s.items, IsDispensed);
    StatusPartition(s.items);
  }

  /**
   * The first pass trims, the master lookup does not: an item typed with
   * surrounding blanks is matched to the agent's entry but finds no master
   * record, so it keeps the agent's price instead of the master's.
   */
  lemma TrimAsymmetry()
    ensures var it := NewItems(1, 1, [CartLine(" Dolo", 2)])[0];
            var master := [Medicine(1, "Dolo", "Paracetamol", 2)];
            var r := Reprice(MatchItem(it, [MedEntry("dolo", Some(3), Some("B7"))], []), master);
            && MatchIndex([MedEntry("dolo", Some(3), Some("B7"))], Normalize(it.medicineName)) == Some(0)
            && MasterIndex(master, it.medicineName).None?
            && MasterIndex(master, "Dolo") == Some(0)
            && r.status == Dispensed && r.totalPrice == Some(6)
  {
    DoloNames();
  }

  /** The spellings of the example above. */
  lemma DoloNames()
    ensures Normalize(" Dolo") == "dolo" && Normalize("dolo") == "dolo"
    ensures Lower(" Dolo") != Lower("Dolo") && Lower("Dolo") == "dolo"
  {
    DoloLower();
    DoloTrimmed();
  }

  lemma DoloLower()
    ensures Lower("Dolo") == "dolo" && Normalize("dolo") == "dolo"
    ensures Lower(" Dolo") != Lower("Dolo")
  {
    LowerCapital();
    LowerSmall();
    assert |Lower(" Dolo")| == 5;
  }

  lemma LowerCapital()
    ensures Lower("Dolo") == "dolo"
  {
    var l := Lower("Dolo");
    assert l[0] == 'd' && l[1] == 'o' && l[2] == 'l' && l[3] == 'o';
  }

  lemma LowerSmall()
    ensures Normalize("dolo") == "dolo"
  {
    TrimOfTrimmed("dolo");
    var l := Lower("dolo");
    assert l[0] == 'd' && l[1] == 'o' && l[2] == 'l' && l[3] == 'o';
  }


  lemma DoloTrimmed()
    ensures Trim(" Dolo") == "Dolo"
  {
    assert " Dolo"[1..] == "Dolo";
    assert TrimStart(" Dolo") == TrimStart("Dolo");
    TrimOfTrimmed("Dolo");
  }


  /**
   * A two-line prescription end to end: the agent dispenses the first line
   * at its own price from a list nested under its key, lists the second as
   * unavailable, and wraps its reply in an array. The master price replaces
   * the agent's, and the order's totals are recomputed from the rows.
   */
  lemma TwoLineSettlement(order: Order, firstId: int, a: string, qa: int, b: string, qb: int,
                          price: int, batch: string, bill: BillSummary, master: seq<Medicine>)
    requires Normalize(a) != Normalize(b)
    requires MasterIndex(master, a).Some?
    ensures var report := AgentReport(bill, Nested([MedEntry(a, Some(price), Some(batch))]), Flat([MedEntry(b, None, None)]));
            var s := Settle(order, NewItems(order.id, firstId, [CartLine(a, qa), CartLine(b, qb)]),
                            Delivered(Parsed(JArray([JObject(report)]))), master);
            var m := master[MasterIndex(master, a).value].pricePerUnit;
            && s.result == Settled(order.id, report)
            && s.order.status == Processed && s.order.totalAmount == m * qa && s.order.itemsDispensed == 1
            && s.order.itemsMissing == bill.itemsMissing
            && |s.items| == 2
            && s.items[0] == OrderItem(firstId, order.id, a, qa, Some(qa), Dispensed, Some(m), Some(m * qa), Some(batch))
            && s.items[1] == OrderItem(firstId + 1, order.id, b, qb, Some(0), OutOfStock, None, None, None)
  {
    var d := [MedEntry(a, Some(price), Some(batch))];
    var u := [MedEntry(b, None, None)];
    var report := AgentReport(bill, Nested(d), Flat(u));
    var items := NewItems(order.id, firstId, [CartLine(a, qa), CartLine(b, qb)]);
    ArrayReply(order.id, report);
    ListsReport(order, items, report, master, d, u);
    TwoLineRows(order.id, firstId, a, qa, b, qb, price, batch, master, items, d, u);
    TwoRowTotals(SecondPass(FirstPass(items, d, u), master));
  }

  /** An array holding one report object delivers that report. */
  lemma ArrayReply(orderId: int, report: AgentReport)
    ensures AgentReply(orderId, Delivered(Parsed(JArray([JObject(report)])))) == Report(report)
  {
  }

  /** With both medicine lists arrays (flat or nested), both passes run over the created rows. */
  lemma ListsReport(order: Order, items: seq<OrderItem>, report: AgentReport, master: seq<Medicine>, d: seq<MedEntry>, u: seq<MedEntry>)
    requires Entries(report.dispensed) == Some(d) && Entries(report.unavailable) == Some(u)
    ensures var settled := SecondPass(FirstPass(items, d, u), master);
            ApplyReport(order, items, report, master) == Settlement(
              WithBill(order, report.bill).(totalAmount := DispensedTotal(settled), itemsDispensed := DispensedCount(settled)),
              settled,
              Settled(order.id, report))
  {
  }

  /** The two rows of the prescription above, each settled. */
  lemma TwoLineRows(orderId: int, firstId: int, a: string, qa: int, b: string, qb: int, price: int, batch: string,
                    master: seq<Medicine>, items: seq<OrderItem>, d: seq<MedEntry>, u: seq<MedEntry>)
    requires Normalize(a) != Normalize(b)
    requires MasterIndex(master, a).Some?
    requires items == NewItems(orderId, firstId, [CartLine(a, qa), CartLine(b, qb)])
    requires d == [MedEntry(a, Some(price), Some(batch))] && u == [MedEntry(b, None, None)]
    ensures var settled := SecondPass(FirstPass(items, d, u), master);
            var m := master[MasterIndex(master, a).value].pricePerUnit;
            && |settled| == 2
            && settled[0] == OrderItem(firstId, orderId, a, qa, Some(qa), Dispensed, Some(m), Some(m * qa), Some(batch))
            && settled[1] == OrderItem(firstId + 1, orderId, b, qb, Some(0), OutOfStock, None, None, None)
  {
    var first := FirstPass(items, d, u);
    var settled := SecondPass(first, master);
    var m := master[MasterIndex(master, a).value].pricePerUnit;
    assert items[0] == OrderItem(firstId, orderId, a, qa, None, ItemPending, None, None, None);
    assert items[1] == OrderItem(firstId + 1, orderId, b, qb, None, ItemPending, None, None, None);
    assert first[0] == Dispense(items[0], d[0]) by {
      assert MatchIndex(d, Normalize(a)) == Some(0);
    }
    assert first[1] == MarkOutOfStock(items[1]) by {
      assert MatchIndex(d, Normalize(b)) == None;
      assert MatchIndex(u, Normalize(b)) == Some(0);
    }
    assert settled[0] == Reprice(first[0], master) == first[0].(unitPrice := Some(m), totalPrice := Some(m * qa));
    assert settled[1] == Reprice(first[1], master) == first[1];
  }

  /** The total and count of two rows. */
  lemma TwoRowTotals(rows: seq<OrderItem>)
    requires |rows| == 2
    ensures DispensedTotal(rows) == Charge(rows[0]) + Charge(rows[1])
    ensures DispensedCount(rows) == (if IsDispensed(rows[0]) then 1 else 0) + (if IsDispensed(rows[1]) then 1 else 0)
  {
    var tail := rows[1..];
    assert tail[0] == rows[1] && tail[1..] == [];
    assert DispensedTotal(tail) == Charge(rows[1]) + DispensedTotal(tail[1..]);
    assert Count(tail, IsDispensed) == (if IsDispensed(rows[1]) then 1 else 0) + Count(tail[1..], IsDispensed);
  }

  // ---------------------------------------------------------------------
  // The item table around one order's consecutive item ids
  // ---------------------------------------------------------------------

  /** The ids `first`, ..., `first + n - 1`. */
  function IdRange(first: int, n: nat): (r: set<int>)
    ensures forall id :: id in r <==> first <= id < first + n
    decreases n
  {
    if n == 0 then {} else {first} + IdRange(first + 1, n - 1)
  }

  /** The item table with `rows` stored under the ids `first`, `first + 1`, ... */
  function Placed(table: map<int, OrderItem>, first: int, rows: seq<OrderItem>): map<int, OrderItem> {
    map id | id in table.Keys + IdRange(first, |rows|) ::
      if first <= id < first + |rows| then rows[id - first] else table[id]
  }

  lemma PlacedUpdate(table: map<int, OrderItem>, first: int, rows: seq<OrderItem>, k: nat, x: OrderItem)
    requires k < |rows|
    ensures Placed(table, first, rows)[first + k := x] == Placed(table, first, rows[k := x])
  {
  }

  /** Where each id of the placed table comes from. */
  lemma PlacedFacts(table: map<int, OrderItem>, first: int, rows: seq<OrderItem>)
    ensures forall id :: id in Placed(table, first, rows) <==> id in table || first <= id < first + |rows|
    ensures forall id :: first <= id < first + |rows| ==> Placed(table, first, rows)[id] == rows[id - first]
    ensures forall id :: id in table && !(first <= id < first + |rows|) ==> Placed(table, first, rows)[id] == table[id]
  {
  }

  /** Placing rows numbered from the id counter, for orders that exist, keeps the item table valid. */
  lemma PlacedItemsValid(m: map<int, OrderItem>, table: map<int, OrderItem>, orders: map<int, Order>, orders': map<int, Order>,
                          first: int, next: int, rows: seq<OrderItem>)
    requires Stored(m, table, first, rows) && next == first + |rows|
    requires ItemsValid(table, orders, first) && 1 <= first
    requires orders.Keys <= orders'.Keys
    requires forall k :: 0 <= k < |rows| ==> rows[k].id == first + k && rows[k].orderId in orders'
    ensures ItemsValid(m, orders', next)
  {
    PlacedFacts(table, first, rows);
    forall id | id in m
      ensures 1 <= id < first + |rows| && m[id].id == id && m[id].orderId in orders'
    {
      if first <= id < first + |rows| {
        assert m[first + (id - first)] == rows[id - first];
      }
    }
  }

  /** Neither pass changes an item's id or order. */
  lemma PassesKeepKeys(items: seq<OrderItem>, dispensed: seq<MedEntry>, unavailable: seq<MedEntry>, master: seq<Medicine>)
    ensures var r := SecondPass(FirstPass(items, dispensed, unavailable), master);
            |r| == |items| && forall k :: 0 <= k < |r| ==> r[k].id == items[k].id && r[k].orderId == items[k].orderId
  {
  }

  /** Reading the placed rows back by id gives the rows. */
  lemma RowsOfPlaced(table: map<int, OrderItem>, first: int, rows: seq<OrderItem>)
    ensures forall id :: first <= id < first + |rows| ==> id in Placed(table, first, rows)
    ensures Rows(Placed(table, first, rows), first, |rows|) == rows
  {
    PlacedFacts(table, first, rows);
  }

  /** The rows of the order read back by id (`findMany where order_id`). */
  function Rows(table: map<int, OrderItem>, first: int, n: nat): seq<OrderItem>
    requires forall id :: first <= id < first + n ==> id in table
  {
    seq(n, k requires 0 <= k < n => table[first + k])
  }

  /** The rows part way through a pass over them: the first `i` already `done`, the others still as in `rest`. */
  function Spliced(done: seq<OrderItem>, rest: seq<OrderItem>, i: nat): (r: seq<OrderItem>)
    requires |done| == |rest| && i <= |rest|
    ensures |r| == |rest|
  {
    done[..i] + rest[i..]
  }

  /** The table `m` is `table` with `rows` placed from id `first` on. */
  ghost predicate Stored(m: map<int, OrderItem>, table: map<int, OrderItem>, first: int, rows: seq<OrderItem>) {
    m == Placed(table, first, rows)
  }

  /** One step of a pass over the table `m`: the `i`-th row written back in its `done` form. */
  lemma SplicedStep(m: map<int, OrderItem>, table: map<int, OrderItem>, first: int,
                    done: seq<OrderItem>, rest: seq<OrderItem>, i: nat, id: int, x: OrderItem)
    requires |done| == |rest| && i < |rest|
    requires Stored(m, table, first, Spliced(done, rest, i))
    requires id == first + i && x == done[i]
    ensures Stored(m[id := x], table, first, Spliced(done, rest, i + 1))
  {
    var rows := Spliced(done, rest, i);
    PlacedUpdate(table, first, rows, i, x);
    assert Placed(table, first, rows[i := x]) == Placed(table, first, Spliced(done, rest, i + 1)) by {
      assert rows[i := x] == Spliced(done, rest, i + 1);
    }
  }

  /** A step of a pass that leaves the `i`-th row as it was. */
  lemma SplicedSkip(m: map<int, OrderItem>, table: map<int, OrderItem>, first: int,
                    done: seq<OrderItem>, rest: seq<OrderItem>, i: nat)
    requires |done| == |rest| && i < |rest|
    requires Stored(m, table, first, Spliced(done, rest, i))
    requires done[i] == rest[i]
    ensures Stored(m, table, first, Spliced(done, rest, i + 1))
  {
    assert Spliced(done, rest, i) == Spliced(done, rest, i + 1);
  }

  /** Before a pass nothing is done. */
  lemma SplicedStart(m: map<int, OrderItem>, table: map<int, OrderItem>, first: int, done: seq<OrderItem>, rest: seq<OrderItem>)
    requires |done| == |rest|
    requires m == Placed(table, first, rest)
    ensures Stored(m, table, first, Spliced(done, rest, 0))
  {
    assert Spliced(done, rest, 0) == rest;
  }

  /** After a pass everything is. */
  lemma SplicedEnd(m: map<int, OrderItem>, table: map<int, OrderItem>, first: int, done: seq<OrderItem>, rest: seq<OrderItem>)
    requires |done| == |rest|
    requires Stored(m, table, first, Spliced(done, rest, |rest|))
    ensures m == Placed(table, first, done)
  {
    assert Spliced(done, rest, |rest|) == done;
  }

  /** `total` and `count` are the charge and the number of the dispensed rows among the first `j`, once repriced. */
  ghost predicate Summed(updated: seq<OrderItem>, master: seq<Medicine>, j: nat, total: int, count: int) {
    && j <= |updated|
    && total == DispensedTotal(SecondPass(updated[..j], master))
    && count == DispensedCount(SecondPass(updated[..j], master))
  }

  /** The running total and count of the second loop, extended by the `j`-th row. */
  lemma RunningSums(updated: seq<OrderItem>, master: seq<Medicine>, j: nat, total: int, count: nat, charge: int, counted: nat)
    requires j < |updated| && Summed(updated, master, j, total, count)
    requires charge == Charge(Reprice(updated[j], master))
    requires counted == if IsDispensed(updated[j]) then 1 else 0
    ensures Summed(updated, master, j + 1, total + charge, count + counted)
  {
    var before := SecondPass(updated[..j], master);
    var x := Reprice(updated[j], master);
    assert SecondPass(updated[..j + 1], master) == before + [x];
    DispensedTotalAppend(before, [x]);
    CountAppend(before, [x], IsDispensed);
  }

  lemma SummedAll(updated: seq<OrderItem>, master: seq<Medicine>, total: int, count: int)
    requires Summed(updated, master, |updated|, total, count)
    ensures total == DispensedTotal(SecondPass(updated, master)) && count == DispensedCount(SecondPass(updated, master))
  {
    assert updated[..|updated|] == updated;
  }

  lemma SummedNone(updated: seq<OrderItem>, master: seq<Medicine>)
    ensures Summed(updated, master, 0, 0, 0)
  {
    assert SecondPass(updated[..0], master) == [];
  }

  /** The first `for` loop of the settlement: each created item is matched and written back. */
  method MatchItems(book: OrderBook, ghost table: map<int, OrderItem>, firstId: int, created: seq<OrderItem>,
                    dispensed: seq<MedEntry>, unavailable: seq<MedEntry>)
    requires forall k :: 0 <= k < |created| ==> created[k].id == firstId + k
    requires book.items == Placed(table, firstId, created)
    modifies book`items
    ensures book.items == Placed(table, firstId, FirstPass(created, dispensed, unavailable))
  {
    ghost var done := FirstPass(created, dispensed, unavailable);
    SplicedStart(book.items, table, firstId, done, created);
    var i := 0;
    while i < |created|
      invariant 0 <= i <= |created|
      invariant Stored(book.items, table, firstId, Spliced(done, created, i))
    {
      var item := created[i];
      var itemName := Normalize(item.medicineName);
      var dispItem := MatchIndex(dispensed, itemName);
      var unavItem := MatchIndex(unavailable, itemName);
      if dispItem.Some? {
        SplicedStep(book.items, table, firstId, done, created, i, item.id, Dispense(item, dispensed[dispItem.value]));
        book.items := book.items[item.id := Dispense(item, dispensed[dispItem.value])];
      } else if unavItem.Some? {
        SplicedStep(book.items, table, firstId, done, created, i, item.id, MarkOutOfStock(item));
        book.items := book.items[item.id := MarkOutOfStock(item)];
      } else {
        SplicedSkip(book.items, table, firstId, done, created, i);
      }
      i := i + 1;
    }
    SplicedEnd(book.items, table, firstId, done, created);
  }

  /**
   * One iteration of the second `for` loop: a dispensed item with a master
   * record is written back at the master price. Returns what the item adds
   * to the running total and to the dispensed count.
   */
  method RepriceOne(book: OrderBook, ghost table: map<int, OrderItem>, firstId: int, updated: seq<OrderItem>, master: seq<Medicine>, j: nat)
    returns (charge: int, counted: nat)
    requires j < |updated| && updated[j].id == firstId + j
    requires Stored(book.items, table, firstId, Spliced(SecondPass(updated, master), updated, j))
    modifies book`items
    ensures Stored(book.items, table, firstId, Spliced(SecondPass(updated, master), updated, j + 1))
    ensures charge == Charge(Reprice(updated[j], master))
    ensures counted == if IsDispensed(updated[j]) then 1 else 0
  {
    ghost var done := SecondPass(updated, master);
    var item := updated[j];
    if item.status == Dispensed {
      var masterMed := MasterIndex(master, item.medicineName);
      if masterMed.Some? {
        var realUnitPrice := master[masterMed.value].pricePerUnit;
        var realTotalPrice := realUnitPrice * item.quantityRequested;
        var repriced := item.(unitPrice := Some(realUnitPrice), totalPrice := Some(realTotalPrice));
        assert repriced == done[j];
        SplicedStep(book.items, table, firstId, done, updated, j, item.id, repriced);
        book.items := book.items[item.id := repriced];
        charge := realTotalPrice;
      } else {
        assert item == done[j];
        SplicedSkip(book.items, table, firstId, done, updated, j);
        charge := item.totalPrice.GetOr(0);
      }
      counted := 1;
    } else {
      assert item == done[j];
      SplicedSkip(book.items, table, firstId, done, updated, j);
      charge, counted := 0, 0;
    }
  }

  /**
   * The second `for` loop: each dispensed item with a master record gets the
   * master price; the running total and count are those of the repriced rows.
   */
  method RepriceItems(book: OrderBook, ghost table: map<int, OrderItem>, firstId: int, updated: seq<OrderItem>, master: seq<Medicine>)
    returns (grandTotal: int, itemsDispensedCount: nat)
    requires forall k :: 0 <= k < |updated| ==> updated[k].id == firstId + k
    requires book.items == Placed(table, firstId, updated)
    modifies book`items
    ensures book.items == Placed(table, firstId, SecondPass(updated, master))
    ensures grandTotal == DispensedTotal(SecondPass(updated, master))
    ensures itemsDispensedCount == DispensedCount(SecondPass(updated, master))
  {
    ghost var done := SecondPass(updated, master);
    SplicedStart(book.items, table, firstId, done, updated);
    grandTotal, itemsDispensedCount := 0, 0;
    SummedNone(updated, master);
    var j := 0;
    while j < |updated|
      invariant 0 <= j <= |updated|
      invariant Stored(book.items, table, firstId, Spliced(done, updated, j))
      invariant Summed(updated, master, j, grandTotal, itemsDispensedCount)
    {
      var charge, counted := RepriceOne(book, table, firstId, updated, master, j);
      RunningSums(updated, master, j, grandTotal, itemsDispensedCount, charge, counted);
      grandTotal := grandTotal + charge;
      itemsDispensedCount := itemsDispensedCount + counted;
      j := j + 1;
    }
    SplicedEnd(book.items, table, firstId, done, updated);
    SummedAll(updated, master, grandTotal, itemsDispensedCount);
  }


  /** Steps 4 and 5 of `createPharmacyOrder`: the first pass, the rows read back by order id, the second pass. */
  method RunPasses(book: OrderBook, ghost table: map<int, OrderItem>, firstId: int, created: seq<OrderItem>,
                   dispensed: seq<MedEntry>, unavailable: seq<MedEntry>, master: seq<Medicine>)
    returns (grandTotal: int, itemsDispensedCount: nat)
    requires forall k :: 0 <= k < |created| ==> created[k].id == firstId + k
    requires Stored(book.items, table, firstId, created)
    modifies book`items
    ensures var settled := SecondPass(FirstPass(created, dispensed, unavailable), master);
            && Stored(book.items, table, firstId, settled)
            && grandTotal == DispensedTotal(settled)
            && itemsDispensedCount == DispensedCount(settled)
  {
    MatchItems(book, table, firstId, created, dispensed, unavailable);
    ghost var matched := FirstPass(created, dispensed, unavailable);
    RowsOfPlaced(table, firstId, matched);
    var updated := Rows(book.items, firstId, |created|);
    grandTotal, itemsDispensedCount := RepriceItems(book, table, firstId, updated, master);
  }

  /** A second write to the same key replaces the first. */
  lemma Overwrite<K, V>(m: map<K, V>, k: K, a: V, b: V)
    ensures m[k := a][k := b] == m[k := b]
  {
  }

  /** Step 1 of `createPharmacyOrder`: the Pending order row and one Pending item row per cart line. */
  method OpenOrder(book: OrderBook, patientId: string, doctorId: string, lines: seq<CartLine>, now: int)
    returns (order: Order, created: seq<OrderItem>)
    requires book.Valid()
    modifies book`orders, book`items, book`nextOrderId, book`nextItemId
    ensures book.Valid()
    ensures order == NewOrder(old(book.nextOrderId), patientId, doctorId, |lines|, now)
    ensures created == NewItems(old(book.nextOrderId), old(book.nextItemId), lines)
    ensures book.nextOrderId == old(book.nextOrderId) + 1 && book.nextItemId == old(book.nextItemId) + |lines|
    ensures book.orders == old(book.orders)[order.id := order]
    ensures Stored(book.items, old(book.items), old(book.nextItemId), created)
  {
    var orderId := book.nextOrderId;
    var firstId := book.nextItemId;
    order := NewOrder(orderId, patientId, doctorId, |lines|, now);
    created := NewItems(orderId, firstId, lines);
    ghost var table := book.items;
    book.orders := book.orders[orderId := order];
    book.items := Placed(book.items, firstId, created);
    book.nextOrderId := orderId + 1;
    book.nextItemId := firstId + |lines|;
    PlacedItemsValid(book.items, table, old(book.orders), book.orders, firstId, book.nextItemId, created);
  }

  /**
   * Steps 3 to 6 of `createPharmacyOrder`, once the agent's report is in:
   * the bill summary, the first pass, the rows read back, the second pass
   * and the order's final totals.
   */
  method SettleReport(book: OrderBook, order: Order, ghost table: map<int, OrderItem>, firstId: int, created: seq<OrderItem>,
                      report: AgentReport, master: seq<Medicine>)
    returns (r: OrderResult)
    requires forall k :: 0 <= k < |created| ==> created[k].id == firstId + k
    requires Stored(book.items, table, firstId, created)
    modifies book`orders, book`items
    ensures var s := ApplyReport(order, created, report, master);
            && book.orders == old(book.orders)[order.id := s.order]
            && Stored(book.items, table, firstId, s.items)
            && r == s.result
  {
    ghost var s := ApplyReport(order, created, report, master);
    ghost var orders := book.orders;

    // 3. The order takes the agent's bill summary.
    var processed := WithBill(order, report.bill);
    book.orders := book.orders[order.id := processed];

    // 4. First pass. A list that is not an array makes the first `find` throw, before any item is written.
    var dispensed := Entries(report.dispensed);
    var unavailable := Entries(report.unavailable);
    if created != [] && (dispensed.None? || unavailable.None?) {
      r := OrderFailed(OrderFailedMessage);
      return;
    }
    var grandTotal, itemsDispensedCount := RunPasses(book, table, firstId, created, dispensed.GetOr([]), unavailable.GetOr([]), master);

    // 6. The order's final totals.
    Overwrite(orders, order.id, processed, s.order);
    book.orders := book.orders[order.id := processed.(totalAmount := grandTotal, itemsDispensed := itemsDispensedCount)];
    r := Settled(order.id, report);
  }

  /** The settlement keeps the order's id and each item's id and order. */
  lemma SettlementKeys(order: Order, items: seq<OrderItem>, call: AgentCall, master: seq<Medicine>)
    ensures var s := Settle(order, items, call, master);
            && s.order.id == order.id && |s.items| == |items|
            && forall k :: 0 <= k < |items| ==> s.items[k].id == items[k].id && s.items[k].orderId == items[k].orderId
  {
    if AgentReply(order.id, call).Report? {
      var report := AgentReply(order.id, call).report;
      PassesKeepKeys(items, Entries(report.dispensed).GetOr([]), Entries(report.unavailable).GetOr([]), master);
    }
  }

  /**
   * `createPharmacyOrder(patientId, doctorId, items)`: creates the Pending
   * order and its items, calls the agent, and on a usable reply matches the
   * items by name (first pass), reprices dispensed items from the medicine
   * master (second pass) and rewrites the order's totals. The final tables
   * and reply are exactly those of `Settle`.
   */
  method CreatePharmacyOrder(book: OrderBook, inv: Inventory, patientId: string, doctorId: string, lines: seq<CartLine>, now: int, call: AgentCall)
    returns (r: OrderResult)
    requires book.Valid()
    modifies book`orders, book`items, book`nextOrderId, book`nextItemId
    ensures book.Valid()
    ensures book.nextOrderId == old(book.nextOrderId) + 1 && book.nextItemId == old(book.nextItemId) + |lines|
    ensures var s := Settle(
              NewOrder(old(book.nextOrderId), patientId, doctorId, |lines|, now),
              NewItems(old(book.nextOrderId), old(book.nextItemId), lines),
              call, inv.medicines);
            && book.orders == old(book.orders)[old(book.nextOrderId) := s.order]
            && Stored(book.items, old(book.items), old(book.nextItemId), s.items)
            && r == s.result
  {
    // 1. The local order, Pending, with one Pending item per line.
    ghost var orders := book.orders;
    ghost var table := book.items;
    var firstId := book.nextItemId;
    var order, created := OpenOrder(book, patientId, doctorId, lines, now);
    ghost var withOrder := book.orders;

    // 2. The agent call.
    var master := inv.medicines;
    ghost var s := Settle(order, created, call, master);
    match AgentReply(order.id, call)
    case Failed(result) =>
      assert withOrder[order.id := s.order] == withOrder;
      r := result;
    case Report(report) =>
      Overwrite(orders, order.id, order, s.order);
      r := SettleReport(book, order, table, firstId, created, report, master);

    SettlementKeys(order, created, call, master);
    OrdersValidWrite(withOrder, book.nextOrderId, s.order);
    PlacedItemsValid(book.items, table, orders, book.orders, firstId, book.nextItemId, s.items);
  }
}
