/**
 * The laboratory's server actions (app/actions/lab-actions.ts): the order
 * list with its status filter and patient names, the pending count, and the
 * upload of a result.
 */
module LabActions {
  import opened Wrappers
  import opened Lists
  import opened Store

  // ---------------------------------------------------------------------
  // getLabOrders
  // ---------------------------------------------------------------------

  /** The `statusFilter` argument; `Pending` when omitted. */
  datatype StatusFilter = PendingOnly | CompletedOnly | All

  const DefaultFilter := PendingOnly

  /** Still to be processed: 'Pending' or 'Processing'. */
  predicate IsOpen(status: string) {
    status == "Pending" || status == "Processing"
  }

  /** The where-clause of the filter. */
  predicate Selects(filter: StatusFilter, o: LabOrder) {
    match filter
    case PendingOnly => IsOpen(o.status)
    case CompletedOnly => o.status == "Completed"
    case All => true
  }

  function SelectedBy(filter: StatusFilter): LabOrder -> bool {
    (o: LabOrder) => Selects(filter, o)
  }

  /** Newest first: `orderBy: { created_at: 'desc' }` as an ascending key. */
  function NewestFirst(o: LabOrder): int {
    -o.createdAt
  }

  /** A row of the enriched list. */
  datatype LabEntry = LabEntry(
    orderId: string,
    patientName: string,
    testType: string,
    doctorName: string,
    status: string,
    resultValue: Option<string>,
    createdAt: int)

  const UnknownPatient := "Unknown"

  /** `patientMap.get(order.patient_id) || 'Unknown'`: a missing patient or an empty name reads 'Unknown'. */
  function PatientName(patients: map<string, Patient>, patientId: string): (r: string)
    ensures r != ""
    ensures r == UnknownPatient <==> patientId !in patients || patients[patientId].fullName in {"", UnknownPatient}
    ensures r != UnknownPatient ==> r == patients[patientId].fullName
  {
    if patientId in patients && patients[patientId].fullName != "" then patients[patientId].fullName else UnknownPatient
  }

  function Enrich(o: LabOrder, patients: map<string, Patient>): (e: LabEntry)
    ensures e.orderId == o.barcode && e.status == o.status && e.resultValue == o.resultValue
    ensures e.testType == o.testType && e.doctorName == o.doctorId && e.createdAt == o.createdAt
    ensures e.patientName == PatientName(patients, o.patientId)
  {
    LabEntry(o.barcode, PatientName(patients, o.patientId), o.testType, o.doctorId, o.status, o.resultValue, o.createdAt)
  }

  /** The query's rows, newest first. */
  function SelectedOrders(rows: seq<LabOrder>, filter: StatusFilter): seq<LabOrder> {
    SortBy(Filter(rows, SelectedBy(filter)), NewestFirst)
  }

  /** `getLabOrders(statusFilter)` over the table's rows. */
  function LabOrders(rows: seq<LabOrder>, patients: map<string, Patient>, filter: StatusFilter): (r: seq<LabEntry>)
    ensures |r| == |SelectedOrders(rows, filter)|
  {
    var selected := SelectedOrders(rows, filter);
    seq(|selected|, k requires 0 <= k < |selected| => Enrich(selected[k], patients))
  }

  /**
   * The list holds one entry per selected order, newest first, each with
   * the order's barcode as its id and the patient's name or 'Unknown'.
   */
  lemma LabOrdersContents(rows: seq<LabOrder>, patients: map<string, Patient>, filter: StatusFilter)
    ensures var sel := SelectedOrders(rows, filter);
            var r := LabOrders(rows, patients, filter);
            && (forall o :: o in sel <==> o in rows && Selects(filter, o))
            && (forall i, j :: 0 <= i < j < |r| ==> r[i].createdAt >= r[j].createdAt)
            && (forall k :: 0 <= k < |r| ==> r[k] == Enrich(sel[k], patients) && r[k].orderId == sel[k].barcode)
  {
    var sel := SelectedOrders(rows, filter);
    forall o
      ensures o in sel <==> o in rows && Selects(filter, o)
    {
      SortByMember(Filter(rows, SelectedBy(filter)), NewestFirst, o);
      FilterMember(rows, SelectedBy(filter), o);
    }
  }

  /** The default filter lists exactly the open orders; `All` lists every order. */
  lemma FilterChoices(rows: seq<LabOrder>, o: LabOrder)
    ensures o in SelectedOrders(rows, DefaultFilter) <==> o in rows && o.status in {"Pending", "Processing"}
    ensures o in SelectedOrders(rows, CompletedOnly) <==> o in rows && o.status == "Completed"
    ensures o in SelectedOrders(rows, All) <==> o in rows
  {
    LabOrdersContents(rows, map[], DefaultFilter);
    LabOrdersContents(rows, map[], CompletedOnly);
    LabOrdersContents(rows, map[], All);
  }

  // ---------------------------------------------------------------------
  // getLabStats
  // ---------------------------------------------------------------------

  predicate OpenOrder(o: LabOrder) {
    IsOpen(o.status)
  }

  /** `pendingCount` */
  function PendingCount(rows: seq<LabOrder>): (n: nat)
    ensures n <= |rows|
  {
    Count(rows, OpenOrder)
  }

  /** The pending count is the length of the list under the default filter: both test the same statuses. */
  lemma PendingCountIsDefaultList(rows: seq<LabOrder>, patients: map<string, Patient>)
    ensures PendingCount(rows) == |LabOrders(rows, patients, DefaultFilter)|
  {
    CountIsFilterLength(rows, OpenOrder);
    FilterAgree(rows, OpenOrder, SelectedBy(DefaultFilter));
  }

  // ---------------------------------------------------------------------
  // uploadResult
  // ---------------------------------------------------------------------

  datatype UploadOutcome = Uploaded | UploadFailed(error: string)

  const UploadFailedMessage := "Failed to upload result"

  /** The order row with its result: status 'Completed' and the value; the remarks are not stored. */
  function WithResult(o: LabOrder, resultValue: string): (r: LabOrder)
    ensures r.status == "Completed" && r.resultValue == Some(resultValue)
    ensures r.(status := o.status, resultValue := o.resultValue) == o
  {
    o.(status := "Completed", resultValue := Some(resultValue))
  }

  /** An order with a result has left the pending list and is in the completed one. */
  lemma ResultCompletes(rows: seq<LabOrder>, o: LabOrder, resultValue: string)
    requires WithResult(o, resultValue) in rows
    ensures WithResult(o, resultValue) !in SelectedOrders(rows, DefaultFilter)
    ensures WithResult(o, resultValue) in SelectedOrders(rows, CompletedOnly)
  {
    FilterChoices(rows, WithResult(o, resultValue));
  }

  /** Uploading the same value twice is uploading it once. */
  lemma WithResultIdempotent(o: LabOrder, resultValue: string)
    ensures WithResult(WithResult(o, resultValue), resultValue) == WithResult(o, resultValue)
  {
  }

  /**
   * `uploadResult(barcode, resultValue, remarks)`: the order of the barcode
   * is completed with the value; a missing barcode fails the update and
   * nothing changes. The notification of the agent is not awaited and its
   * failure is ignored, so it is left out.
   */
  method UploadResult(lab: Lab, barcode: string, resultValue: string, remarks: string) returns (r: UploadOutcome)
    requires lab.Valid()
    modifies lab
    ensures lab.Valid()
    ensures barcode in old(lab.labOrders) ==>
              r == Uploaded && lab.labOrders == old(lab.labOrders)[barcode := WithResult(old(lab.labOrders)[barcode], resultValue)]
    ensures barcode !in old(lab.labOrders) ==>
              r == UploadFailed(UploadFailedMessage) && lab.labOrders == old(lab.labOrders)
  {
    if barcode !in lab.labOrders {
      return UploadFailed(UploadFailedMessage);
    }
    lab.labOrders := lab.labOrders[barcode := WithResult(lab.labOrders[barcode], resultValue)];
    r := Uploaded;
  }
}
