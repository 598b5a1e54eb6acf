/**
 * The doctor's dashboard (app/doctor/dashboard/page.tsx): the prescription
 * cart, the queue search, the optimistic status update and the placing of a
 * pharmacy order. The handlers compute the next page state from the
 * previous one; the two that call server actions are methods on the tables
 * those actions write.
 */
module DoctorDashboard {
  import opened Wrappers
  import opened Text
  import opened Lists
  import opened Keyed
  import opened Store
  import opened DoctorVisits
  import opened DoctorActions

  // ---------------------------------------------------------------------
  // The prescription cart
  // ---------------------------------------------------------------------

  /** A prescription line: the medicine's brand name, the quantity and the unit price. */
  datatype RxLine = RxLine(name: string, qty: int, price: int)

  /** The pharmacy tab's state: the cart, the selected brand name and the quantity field. */
  datatype RxForm = RxForm(cart: seq<RxLine>, selected: string, qty: int)

  /** The key the cart is kept by. */
  function NameOf(l: RxLine): string {
    l.name
  }

  function AddQty(q: int): RxLine -> RxLine {
    (l: RxLine) => l.(qty := l.qty + q)
  }

  /** The first medicine of the list with the brand name (`medicines.find`). */
  function MedicineNamed(medicines: seq<Medicine>, name: string): (r: Option<Medicine>)
    ensures r.Some? ==> r.value in medicines && r.value.brandName == name
    ensures r.Some? ==> exists i :: 0 <= i < |medicines| && medicines[i] == r.value
                          && forall j :: 0 <= j < i ==> medicines[j].brandName != name
    ensures r.None? <==> forall m :: m in medicines ==> m.brandName != name
  {
    match FirstIndex(medicines, (m: Medicine) => m.brandName == name)
    case Some(k) => Some(medicines[k])
    case None => None
  }

  /**
   * `addToCart()`: nothing without a selection or when the selected name is
   * not a listed medicine; otherwise a line of that name gains the entered
   * quantity, or a new line is appended at the medicine's unit price, and
   * the form is reset.
   */
  function AddToCart(f: RxForm, medicines: seq<Medicine>): (r: RxForm)
    ensures f.selected == "" || MedicineNamed(medicines, f.selected).None? ==> r == f
    ensures f.selected != "" && MedicineNamed(medicines, f.selected).Some? ==> r.selected == "" && r.qty == 1
  {
    if f.selected == "" then f
    else
      match MedicineNamed(medicines, f.selected)
      case None => f
      case Some(med) =>
        var cart :=
          if Lookup(f.cart, NameOf, f.selected).Some? then Remap(f.cart, NameOf, f.selected, AddQty(f.qty))
          else f.cart + [RxLine(f.selected, f.qty, med.pricePerUnit)];
        RxForm(cart, "", 1)
  }

  /** `removeFromCart(name)` */
  function RemoveFromCart(cart: seq<RxLine>, name: string): seq<RxLine> {
    WithoutKey(cart, NameOf, name)
  }

  /** The line of the name after an add: the entered quantity added to the existing line's, or a new line at `price`. */
  function Merged(existing: Option<RxLine>, name: string, qty: int, price: int): RxLine {
    match existing
    case None => RxLine(name, qty, price)
    case Some(l) => l.(qty := l.qty + qty)
  }

  /**
   * What adding does to the line of the selected name: a new line with the
   * entered quantity at the listed price, or the existing line with the
   * entered quantity added to its own.
   */
  lemma AddToCartLine(f: RxForm, medicines: seq<Medicine>, med: Medicine)
    requires f.selected != "" && MedicineNamed(medicines, f.selected) == Some(med)
    ensures Lookup(AddToCart(f, medicines).cart, NameOf, f.selected)
            == Some(Merged(Lookup(f.cart, NameOf, f.selected), f.selected, f.qty, med.pricePerUnit))
  {
    var r := AddToCart(f, medicines);
    if Lookup(f.cart, NameOf, f.selected).Some? {
      var l := Lookup(f.cart, NameOf, f.selected).value;
      assert r.cart == Remap(f.cart, NameOf, f.selected, AddQty(f.qty));
      RemapLookup(f.cart, NameOf, f.selected, AddQty(f.qty), f.selected);
      assert Lookup(r.cart, NameOf, f.selected) == Some(AddQty(f.qty)(l));
      assert Merged(Some(l), f.selected, f.qty, med.pricePerUnit) == AddQty(f.qty)(l);
    } else {
      AppendLookup(f.cart, NameOf, RxLine(f.selected, f.qty, med.pricePerUnit), f.selected);
    }
  }

  /** Adding never touches the lines of other names. */
  lemma AddToCartOthers(f: RxForm, medicines: seq<Medicine>)
    ensures RemoveFromCart(AddToCart(f, medicines).cart, f.selected) == RemoveFromCart(f.cart, f.selected)
  {
    if f.selected != "" && MedicineNamed(medicines, f.selected).Some? {
      var med := MedicineNamed(medicines, f.selected).value;
      if Lookup(f.cart, NameOf, f.selected).Some? {
        RemapOthers(f.cart, NameOf, f.selected, AddQty(f.qty));
      } else {
        AppendOthers(f.cart, NameOf, RxLine(f.selected, f.qty, med.pricePerUnit));
      }
    }
  }

  /** Names in the cart stay unique: a name already there is merged, never appended. */
  lemma AddToCartUnique(f: RxForm, medicines: seq<Medicine>)
    requires UniqueKeys(f.cart, NameOf)
    ensures UniqueKeys(AddToCart(f, medicines).cart, NameOf)
  {
    if f.selected != "" && MedicineNamed(medicines, f.selected).Some? {
      var med := MedicineNamed(medicines, f.selected).value;
      if Lookup(f.cart, NameOf, f.selected).Some? {
        RemapUnique(f.cart, NameOf, f.selected, AddQty(f.qty));
      } else {
        AppendUnique(f.cart, NameOf, RxLine(f.selected, f.qty, med.pricePerUnit));
      }
    }
  }

  /** Every line carries the name of a listed medicine, at that medicine's price when it was added. */
  ghost predicate Prescribable(cart: seq<RxLine>, medicines: seq<Medicine>) {
    forall l :: l in cart ==> MedicineNamed(medicines, l.name).Some? && MedicineNamed(medicines, l.name).value.pricePerUnit == l.price
  }

  /** Only listed medicines enter the cart, each at its listed unit price. */
  lemma {:induction false} AddToCartPrescribable(f: RxForm, medicines: seq<Medicine>)
    requires Prescribable(f.cart, medicines)
    ensures Prescribable(AddToCart(f, medicines).cart, medicines)
  {
    if f.selected != "" && MedicineNamed(medicines, f.selected).Some? {
      var med := MedicineNamed(medicines, f.selected).value;
      var r := AddToCart(f, medicines).cart;
      forall l | l in r
        ensures MedicineNamed(medicines, l.name).Some? && MedicineNamed(medicines, l.name).value.pricePerUnit == l.price
      {
        if Lookup(f.cart, NameOf, f.selected).Some? {
          var i :| 0 <= i < |r| && r[i] == l;
          assert f.cart[i] in f.cart;
        } else if l != RxLine(f.selected, f.qty, med.pricePerUnit) {
          assert l in f.cart;
        }
      }
    }
  }

  /** Removing keeps exactly the lines of other names, and names stay unique. */
  lemma RemoveFromCartContents(cart: seq<RxLine>, name: string)
    ensures forall l :: l in RemoveFromCart(cart, name) <==> l in cart && l.name != name
    ensures UniqueKeys(cart, NameOf) ==> UniqueKeys(RemoveFromCart(cart, name), NameOf)
  {
    WithoutKeyContents(cart, NameOf, name);
    if UniqueKeys(cart, NameOf) {
      WithoutKeyUnique(cart, NameOf, name);
    }
  }

  // ---------------------------------------------------------------------
  // Placing the order
  // ---------------------------------------------------------------------

  const DoctorName := "Dr. Sarah"

  /** The cart as the order action reads it: names and quantities. */
  function OrderLines(cart: seq<RxLine>): (r: seq<CartLine>)
    ensures |r| == |cart|
    ensures forall k :: 0 <= k < |cart| ==> r[k].name == cart[k].name && r[k].qty == cart[k].qty
  {
    seq(|cart|, k requires 0 <= k < |cart| => CartLine(cart[k].name, cart[k].qty))
  }

  /** `success` of the action's reply: true unless the action failed outright. */
  predicate Succeeded(r: OrderResult) {
    !r.OrderFailed?
  }

  /**
   * `handlePlaceOrder()`: nothing without an active patient or with an
   * empty cart; otherwise the cart is ordered for the active patient, the
   * order row and its item rows are written as `Settle` gives them, and the
   * cart is cleared exactly when the order succeeds.
   */
  method HandlePlaceOrder(book: OrderBook, inv: Inventory, active: Option<QueueEntry>, cart: seq<RxLine>, now: int, call: AgentCall)
    returns (cart': seq<RxLine>)
    requires book.Valid()
    modifies book`orders, book`items, book`nextOrderId, book`nextItemId
    ensures book.Valid()
    ensures active.None? || cart == [] ==>
              cart' == cart && unchanged(book)
    ensures active.Some? && cart != [] ==>
              var s := Settle(
                NewOrder(old(book.nextOrderId), active.value.patient.patientId, DoctorName, |cart|, now),
                NewItems(old(book.nextOrderId), old(book.nextItemId), OrderLines(cart)),
                call, inv.medicines);
              && book.orders == old(book.orders)[old(book.nextOrderId) := s.order]
              && Stored(book.items, old(book.items), old(book.nextItemId), s.items)
              && book.nextOrderId == old(book.nextOrderId) + 1 && book.nextItemId == old(book.nextItemId) + |cart|
              && cart' == (if Succeeded(s.result) then [] else cart)
  {
    if active.None? || cart == [] {
      return cart;
    }
    var res := CreatePharmacyOrder(book, inv, active.value.patient.patientId, DoctorName, OrderLines(cart), now, call);
    cart' := if Succeeded(res) then [] else cart;
  }

  // ---------------------------------------------------------------------
  // The queue
  // ---------------------------------------------------------------------

  /** The queue panel: the queue and the patient being seen. */
  datatype Consult = Consult(queue: seq<QueueEntry>, active: Option<QueueEntry>)

  /** The status update needs an active patient with an appointment id. */
  predicate CanUpdate(c: Consult) {
    c.active.Some? && c.active.value.appointmentId != ""
  }

  function AppointmentOf(e: QueueEntry): string {
    e.appointmentId
  }

  function WithEntryStatus(status: string): QueueEntry -> QueueEntry {
    (e: QueueEntry) => e.(status := status)
  }

  /**
   * The optimistic part of `handleStatusUpdate(newStatus)`: the entries of
   * the active appointment and the active patient take the new status.
   */
  function Optimistic(c: Consult, newStatus: string): (r: Consult)
    ensures !CanUpdate(c) ==> r == c
    ensures CanUpdate(c) ==> r.active == Some(c.active.value.(status := newStatus))
  {
    if !CanUpdate(c) then c
    else Consult(Remap(c.queue, AppointmentOf, c.active.value.appointmentId, WithEntryStatus(newStatus)),
                 Some(c.active.value.(status := newStatus)))
  }

  /**
   * The update changes only the status, only of the entries of the active
   * appointment; every other entry is identical.
   */
  lemma OptimisticOnlyStatus(c: Consult, newStatus: string)
    requires CanUpdate(c)
    ensures var r := Optimistic(c, newStatus).queue;
            && |r| == |c.queue|
            && (forall k :: 0 <= k < |r| && c.queue[k].appointmentId != c.active.value.appointmentId ==> r[k] == c.queue[k])
            && (forall k :: 0 <= k < |r| && c.queue[k].appointmentId == c.active.value.appointmentId ==> r[k].status == newStatus)
            && (forall k :: 0 <= k < |r| ==> r[k].(status := c.queue[k].status) == c.queue[k])
  {
  }

  /** The active patient's entry stays in the queue, with the status it now shows. */
  lemma OptimisticKeepsActive(c: Consult, newStatus: string)
    requires CanUpdate(c) && c.active.value in c.queue
    ensures Optimistic(c, newStatus).active.value in Optimistic(c, newStatus).queue
  {
    var k :| 0 <= k < |c.queue| && c.queue[k] == c.active.value;
    assert Optimistic(c, newStatus).queue[k] == Optimistic(c, newStatus).active.value;
  }

  /** Setting the same status again changes nothing more. */
  lemma {:induction false} OptimisticIdempotent(c: Consult, newStatus: string)
    ensures Optimistic(Optimistic(c, newStatus), newStatus) == Optimistic(c, newStatus)
  {
    var r := Optimistic(c, newStatus);
    if CanUpdate(c) {
      var id := c.active.value.appointmentId;
      var q := Remap(r.queue, AppointmentOf, id, WithEntryStatus(newStatus));
      assert |q| == |r.queue|;
      forall k | 0 <= k < |q|
        ensures q[k] == r.queue[k]
      {
      }
    }
  }

  /**
   * `handleStatusUpdate(newStatus)`: the optimistic update of the page, then
   * the appointment's status written on the server twice; the second write
   * finds the status already set.
   */
  method HandleStatusUpdate(reg: Registry, c: Consult, newStatus: string) returns (r: Consult)
    requires reg.Valid()
    modifies reg`appointments
    ensures reg.Valid()
    ensures r == Optimistic(c, newStatus)
    ensures CanUpdate(c) && c.active.value.appointmentId in old(reg.appointments) ==>
              reg.appointments == WithStatus(old(reg.appointments), c.active.value.appointmentId, newStatus)
    ensures !CanUpdate(c) || c.active.value.appointmentId !in old(reg.appointments) ==>
              reg.appointments == old(reg.appointments)
  {
    if !CanUpdate(c) {
      return c;
    }
    r := Optimistic(c, newStatus);
    var id := c.active.value.appointmentId;
    var _ := UpdateAppointmentStatus(reg, id, newStatus);
    var _ := UpdateAppointmentStatus(reg, id, newStatus);
    if id in old(reg.appointments) {
      WithStatusIdempotent(old(reg.appointments), id, newStatus);
    }
  }

  /** The queue search: the lower-cased name, or a present digital id, contains the lower-cased search. */
  predicate MatchesPatient(e: QueueEntry, search: string) {
    || Contains(Lower(e.patient.fullName), Lower(search))
    || (e.digitalId != "" && Contains(Lower(e.digitalId), Lower(search)))
  }

  function PatientSearch(search: string): QueueEntry -> bool {
    (e: QueueEntry) => MatchesPatient(e, search)
  }

  /** `filteredQueue` */
  function FilteredQueue(queue: seq<QueueEntry>, search: string): (r: seq<QueueEntry>)
    ensures |r| <= |queue|
  {
    Filter(queue, PatientSearch(search))
  }

  /** A patient is listed exactly when the name or the digital id contains the search, ignoring case. */
  lemma FilteredQueueMember(queue: seq<QueueEntry>, search: string, e: QueueEntry)
    ensures e in FilteredQueue(queue, search)
            <==> e in queue
                 && (Contains(Lower(e.patient.fullName), Lower(search))
                     || (e.digitalId != "" && Contains(Lower(e.digitalId), Lower(search))))
  {
    FilterMember(queue, PatientSearch(search), e);
  }

  /** The search ignores the case of the search text. */
  lemma FilteredQueueCase(queue: seq<QueueEntry>, search: string)
    ensures FilteredQueue(queue, Lower(search)) == FilteredQueue(queue, search)
  {
    LowerIdempotent(search);
    FilterAgree(queue, PatientSearch(Lower(search)), PatientSearch(search));
  }

  /** An empty search lists the whole queue, in order. */
  lemma EmptySearchShowsQueue(queue: seq<QueueEntry>)
    ensures FilteredQueue(queue, "") == queue
  {
    forall k | 0 <= k < |queue|
      ensures MatchesPatient(queue[k], "")
    {
      ContainsEmpty(Lower(queue[k].patient.fullName));
    }
    FilterAll(queue, PatientSearch(""));
  }

  // ---------------------------------------------------------------------
  // The status colour
  // ---------------------------------------------------------------------

  const InProgressColor := "border-l-4 border-l-blue-500"
  const CompletedColor := "border-l-4 border-l-green-500 opacity-60"
  const CancelledColor := "border-l-4 border-l-red-500 opacity-60"
  const DefaultColor := "border-l-4 border-l-amber-400"

  /** `getStatusColor(status)`, an absent status being `None`. */
  function StatusColor(status: Option<string>): (r: string)
    ensures r in {InProgressColor, CompletedColor, CancelledColor, DefaultColor}
    ensures status.None? ==> r == DefaultColor
  {
    if status.None? then DefaultColor
    else
      var s := Lower(status.value);
      if s == "in progress" then InProgressColor
      else if s == "completed" then CompletedColor
      else if s == "cancelled" then CancelledColor
      else DefaultColor
  }

  /** The colour ignores case. */
  lemma StatusColorCase(status: string)
    ensures StatusColor(Some(Lower(status))) == StatusColor(Some(status))
  {
    LowerIdempotent(status);
  }

  /** Each colour but the default belongs to exactly one status, whatever its case; every other status is amber. */
  lemma StatusColorCases(status: string)
    ensures StatusColor(Some(status)) == InProgressColor <==> Lower(status) == "in progress"
    ensures StatusColor(Some(status)) == CompletedColor <==> Lower(status) == "completed"
    ensures StatusColor(Some(status)) == CancelledColor <==> Lower(status) == "cancelled"
    ensures StatusColor(Some(status)) == DefaultColor <==> Lower(status) !in ["in progress", "completed", "cancelled"]
  {
  }

}
