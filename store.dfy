/**
 * The relational tables the actions read and write, grouped into objects
 * by the actions that touch them together. A table keyed by its primary key is a `map`; the medicine
 * master and the batch inventory are lists of rows because the source reads
 * them with `findFirst` and with an ordered query. Auto-increment keys are
 * counters that stay above every key in use.
 */
module Store {
  import opened Wrappers
  import opened Lists

  /** `pharmacy_orders.status`: Pending -> Processed (agent replied) -> Completed (paid). */
  datatype OrderStatus = Pending | Processed | Completed

  /** `pharmacy_order_items.status`: 'Pending', 'Dispensed' or 'Out of Stock'. */
  datatype ItemStatus = ItemPending | Dispensed | OutOfStock

  /** A `pharmacy_orders` row. Money is in the smallest currency unit. */
  datatype Order = Order(
    id: int,
    patientId: string,
    doctorId: string,
    status: OrderStatus,
    totalItemsRequested: int,
    totalAmount: int,
    itemsDispensed: int,
    itemsMissing: int,
    createdAt: int)

  /** A `pharmacy_order_items` row; nullable columns are options. */
  datatype OrderItem = OrderItem(
    id: int,
    orderId: int,
    medicineName: string,
    quantityRequested: int,
    quantityDispensed: Option<int>,
    status: ItemStatus,
    unitPrice: Option<int>,
    totalPrice: Option<int>,
    batchId: Option<string>)

  /** A `pharmacy_medicine_master` row. */
  datatype Medicine = Medicine(id: int, brandName: string, genericName: string, pricePerUnit: int)

  /** A `pharmacy_batch_inventory` row; `batchNo` is unique. */
  datatype Batch = Batch(batchNo: string, medicineId: int, currentStock: int, expiryDate: int, rackLocation: string)

  /** An `OPD_REG` row, keyed by `patient_id`. */
  datatype Patient = Patient(
    patientId: string,
    fullName: string,
    phone: string,
    age: string,
    department: string,
    email: string,
    address: string,
    aadharCard: string)

  /** An `appointments` row, keyed by `appointment_id`; `internalId` is the integer `id` column. */
  datatype Appointment = Appointment(
    appointmentId: string,
    internalId: int,
    patientId: string,
    status: string,
    department: string,
    reasonForVisit: string,
    appointmentDate: int)

  /** An `admissions` row. */
  datatype Admission = Admission(admissionId: string, patientId: string, status: string, admissionDate: int)

  /** A `medical_notes` row. */
  datatype MedicalNote = MedicalNote(admissionId: string, noteType: string, details: string)

  /** A `lab_orders` row, keyed by `barcode`. */
  datatype LabOrder = LabOrder(
    barcode: string,
    patientId: string,
    testType: string,
    doctorId: string,
    status: string,
    resultValue: Option<string>,
    createdAt: int)

  /** The first medicine with the given id (the `medicine` relation of a batch). */
  function MedicineById(medicines: seq<Medicine>, id: int): (r: Option<Medicine>)
    ensures r.Some? ==> r.value in medicines && r.value.id == id
    ensures r.None? ==> forall m :: m in medicines ==> m.id != id
  {
    match FirstIndex(medicines, (m: Medicine) => m.id == id)
    case Some(k) => Some(medicines[k])
    case None => None
  }

  /** No two batches share a batch number (`batch_no` is a unique key). */
  ghost predicate BatchNosUnique(batches: seq<Batch>) {
    forall i, j :: 0 <= i < j < |batches| ==> batches[i].batchNo != batches[j].batchNo
  }

  /** No two medicines share a brand name (`brand_name` is a unique key of the master). */
  ghost predicate BrandNamesUnique(medicines: seq<Medicine>) {
    forall i, j :: 0 <= i < j < |medicines| ==> medicines[i].brandName != medicines[j].brandName
  }

  /** Each order row sits under its own id, below the id counter. */
  ghost predicate OrdersValid(orders: map<int, Order>, nextOrderId: int) {
    forall id :: id in orders ==> 1 <= id < nextOrderId && orders[id].id == id
  }

  /** Each item row sits under its own id, below the id counter, and belongs to an existing order. */
  ghost predicate ItemsValid(items: map<int, OrderItem>, orders: map<int, Order>, nextItemId: int) {
    forall id :: id in items ==> 1 <= id < nextItemId && items[id].id == id && items[id].orderId in orders
  }

  /** Writing an order row under its own id, below the counter, keeps the order table valid. */
  lemma OrdersValidWrite(orders: map<int, Order>, nextOrderId: int, o: Order)
    requires OrdersValid(orders, nextOrderId) && 1 <= o.id < nextOrderId
    ensures OrdersValid(orders[o.id := o], nextOrderId)
  {
  }

  /** `pharmacy_orders` and `pharmacy_order_items`, with their auto-increment counters. */
  class OrderBook {
    var orders: map<int, Order>
    var items: map<int, OrderItem>
    var nextOrderId: int
    var nextItemId: int

    /**
     * Keys agree with the rows' id columns, the counters are positive and
     * above every id in use, and every item belongs to an existing order
     * (the foreign key the cleanup script protects).
     */
    ghost predicate Valid()
      reads this
    {
      && 1 <= nextOrderId && 1 <= nextItemId
      && OrdersValid(orders, nextOrderId)
      && ItemsValid(items, orders, nextItemId)
    }

    constructor ()
      ensures Valid() && orders == map[] && items == map[]
    {
      orders, items, nextOrderId, nextItemId := map[], map[], 1, 1;
    }
  }

  /** `pharmacy_medicine_master` and `pharmacy_batch_inventory`. */
  class Inventory {
    var medicines: seq<Medicine>
    var nextMedicineId: int
    var batches: seq<Batch>

    /** Every medicine id is positive and below the counter; ids, brand names and batch numbers are unique. */
    ghost predicate Valid()
      reads this
    {
      && 1 <= nextMedicineId
      && (forall m :: m in medicines ==> 1 <= m.id < nextMedicineId)
      && (forall i, j :: 0 <= i < j < |medicines| ==> medicines[i].id != medicines[j].id)
      && BrandNamesUnique(medicines)
      && BatchNosUnique(batches)
    }

    constructor ()
      ensures Valid() && medicines == [] && batches == []
    {
      medicines, nextMedicineId, batches := [], 1, [];
    }
  }

  /** Keys agree with the rows' key columns; the appointment counter is above every internal id. */
  ghost predicate RegistryValid(patients: map<string, Patient>, appointments: map<string, Appointment>, nextAppointmentId: int) {
    && (forall k :: k in patients ==> patients[k].patientId == k)
    && (forall k :: k in appointments ==> appointments[k].appointmentId == k && appointments[k].internalId < nextAppointmentId)
  }

  /** `OPD_REG` and `appointments`. */
  class Registry {
    var patients: map<string, Patient>
    var appointments: map<string, Appointment>
    var nextAppointmentId: int

    ghost predicate Valid()
      reads this
    {
      RegistryValid(patients, appointments, nextAppointmentId)
    }

    constructor ()
      ensures Valid() && patients == map[] && appointments == map[]
    {
      patients, appointments, nextAppointmentId := map[], map[], 1;
    }
  }

  /** `admissions` and `medical_notes`. */
  class Wards {
    var admissions: seq<Admission>
    var notes: seq<MedicalNote>

    constructor ()
      ensures admissions == [] && notes == []
    {
      admissions, notes := [], [];
    }
  }

  /** `lab_orders`, keyed by barcode. */
  class Lab {
    var labOrders: map<string, LabOrder>

    ghost predicate Valid()
      reads this
    {
      forall k :: k in labOrders ==> labOrders[k].barcode == k
    }

    constructor ()
      ensures Valid() && labOrders == map[]
    {
      labOrders := map[];
    }
  }
}
