/**
 * The rest of the doctor's server actions (app/actions/doctor-actions.ts):
 * the consultation queue, the medical note whose admission may be looked up
 * by patient, and the appointment status update.
 */
module DoctorVisits {
  import opened Wrappers
  import opened Text
  import opened Lists
  import opened Store

  // ---------------------------------------------------------------------
  // getPatientQueue
  // ---------------------------------------------------------------------

  /** The appointment statuses the queue shows. */
  const QueueStatuses: seq<string> := ["Pending", "Scheduled", "Checked In", "In Progress", "Admitted"]

  predicate InQueue(a: Appointment) {
    a.status in QueueStatuses
  }

  function AppointmentDate(a: Appointment): int {
    a.appointmentDate
  }

  /** A queue row: the patient's columns, the appointment's status and ids, and the patient id again as `digital_id`. */
  datatype QueueEntry = QueueEntry(patient: Patient, status: string, appointmentId: string, internalId: int, digitalId: string)

  datatype QueueResult = Queue(entries: seq<QueueEntry>) | QueueFailed

  function ToEntry(a: Appointment, p: Patient): (e: QueueEntry)
    ensures e.patient == p && e.digitalId == p.patientId
    ensures e.status == a.status && e.appointmentId == a.appointmentId && e.internalId == a.internalId
  {
    QueueEntry(p, a.status, a.appointmentId, a.internalId, p.patientId)
  }

  /** The entries of the appointments, in order; `None` when one has no patient row (the spread of `null` is fine, its `patient_id` is not). */
  function JoinPatients(appts: seq<Appointment>, patients: map<string, Patient>): (r: Option<seq<QueueEntry>>)
    ensures r.Some? <==> forall k :: 0 <= k < |appts| ==> appts[k].patientId in patients
    ensures r.Some? ==> |r.value| == |appts|
    ensures r.Some? ==> forall k :: 0 <= k < |appts| ==> r.value[k] == ToEntry(appts[k], patients[appts[k].patientId])
  {
    if appts == [] then Some([])
    else if appts[0].patientId !in patients then None
    else
      match JoinPatients(appts[1..], patients)
      case None => None
      case Some(rest) => Some([ToEntry(appts[0], patients[appts[0].patientId])] + rest)
  }

  /**
   * `getPatientQueue()`: the day's appointments (the date window is applied
   * by the caller, who passes the day's rows) in a queue status, by
   * ascending appointment date, each joined with its patient.
   */
  function PatientQueue(todays: seq<Appointment>, patients: map<string, Patient>): QueueResult {
    match JoinPatients(SortBy(Filter(todays, InQueue), AppointmentDate), patients)
    case None => QueueFailed
    case Some(es) => Queue(es)
  }

  /**
   * The queue holds one entry per shown appointment, each in a queue status,
   * ordered by date; an appointment is shown exactly when its status is a
   * queue status; `digital_id` is the patient id.
   */
  lemma QueueContents(todays: seq<Appointment>, patients: map<string, Patient>)
    requires PatientQueue(todays, patients).Queue?
    ensures var shown := SortBy(Filter(todays, InQueue), AppointmentDate);
            var q := PatientQueue(todays, patients).entries;
            && |q| == |shown|
            && (forall k :: 0 <= k < |q| ==> q[k] == ToEntry(shown[k], patients[shown[k].patientId]))
            && (forall i, j :: 0 <= i < j < |q| ==> shown[i].appointmentDate <= shown[j].appointmentDate)
            && (forall a :: a in todays ==> (a in shown <==> a.status in QueueStatuses))
            && (forall k :: 0 <= k < |q| ==> q[k].status in QueueStatuses && q[k].digitalId == q[k].patient.patientId)
  {
    var kept := Filter(todays, InQueue);
    var shown := SortBy(kept, AppointmentDate);
    forall a | a in todays
      ensures a in shown <==> a.status in QueueStatuses
    {
      SortByMember(kept, AppointmentDate, a);
      FilterMember(todays, InQueue, a);
    }
    forall k | 0 <= k < |shown|
      ensures shown[k].status in QueueStatuses
    {
      SortByMember(kept, AppointmentDate, shown[k]);
    }
  }

  // ---------------------------------------------------------------------
  // saveMedicalNote
  // ---------------------------------------------------------------------

  const LookupTag := "LOOKUP_BY_PATIENT"

  /** An admission id starting with this asks for the patient's active admission. */
  const LookupPrefix := LookupTag + ":"

  const NoAdmissionMessage := "No active admission found for this patient"

  datatype NoteResult = NoteSaved | NoteFailed(error: string)

  predicate ActiveFor(a: Admission, patientId: string) {
    a.patientId == patientId && a.status == "Admitted"
  }

  /**
   * `findFirst` over the patient's Admitted admissions ordered by admission
   * date, latest first; of equally late ones the first listed.
   */
  function LatestAdmission(admissions: seq<Admission>, patientId: string): (r: Option<Admission>)
    ensures r.Some? ==> r.value in admissions && ActiveFor(r.value, patientId)
    ensures r.Some? ==> forall a :: a in admissions && ActiveFor(a, patientId) ==> a.admissionDate <= r.value.admissionDate
    ensures r.None? <==> forall a :: a in admissions ==> !ActiveFor(a, patientId)
  {
    if admissions == [] then None
    else
      var rest := LatestAdmission(admissions[1..], patientId);
      var head := admissions[0];
      if !ActiveFor(head, patientId) then rest
      else if rest.Some? && rest.value.admissionDate > head.admissionDate then rest
      else Some(head)
  }

  lemma {:induction false} LookupPieces(rest: string)
    ensures |Split(LookupPrefix + rest, ':')| >= 2
    ensures Split(LookupPrefix + rest, ':')[1] == UpTo(rest, ':')
  {
    assert ':' !in LookupTag;
    SplitNoSeparator(LookupTag, ':');
    SplitConcat(LookupTag, ':', rest);
    SplitFirstPiece(rest, ':');
  }

  /** The patient id of a lookup: the text between the first and the second colon. */
  function LookupPatient(admissionId: string): (p: string)
    requires StartsWith(admissionId, LookupPrefix)
    ensures p == UpTo(admissionId[|LookupPrefix|..], ':')
  {
    assert admissionId == LookupPrefix + admissionId[|LookupPrefix|..];
    LookupPieces(admissionId[|LookupPrefix|..]);
    Split(admissionId, ':')[1]
  }

  /** The admission id the note is stored under, or `None` when a lookup finds no active admission. */
  function ResolveAdmission(admissionId: string, admissions: seq<Admission>): Option<string> {
    if StartsWith(admissionId, LookupPrefix) then
      match LatestAdmission(admissions, LookupPatient(admissionId))
      case None => None
      case Some(a) => Some(a.admissionId)
    else
      Some(admissionId)
  }

  /**
   * A lookup for patient `p` (followed by anything from a second colon on)
   * resolves to the latest active admission of `p`, and fails exactly when
   * `p` has none; any other id is kept as it is.
   */
  lemma ResolveLookup(p: string, tail: string, admissions: seq<Admission>)
    requires ':' !in p
    requires tail == [] || tail[0] == ':'
    ensures var r := ResolveAdmission(LookupPrefix + p + tail, admissions);
            && (r.None? <==> forall a :: a in admissions ==> !ActiveFor(a, p))
            && (r.Some? ==> exists a :: a in admissions && ActiveFor(a, p) && a.admissionId == r.value
                              && forall b :: b in admissions && ActiveFor(b, p) ==> b.admissionDate <= a.admissionDate)
  {
    var id := LookupPrefix + p + tail;
    assert id[..|LookupPrefix|] == LookupPrefix;
    assert id[|LookupPrefix|..] == p + tail;
    UpToPrefix(p, tail);
  }

  /** Reading up to the first colon stops at the end of a colon-free prefix followed by a colon or nothing. */
  lemma {:induction false} UpToPrefix(p: string, tail: string)
    requires ':' !in p && (tail == [] || tail[0] == ':')
    ensures UpTo(p + tail, ':') == p
  {
    if p == [] {
      assert p + tail == tail;
    } else {
      assert (p + tail)[1..] == p[1..] + tail;
      UpToPrefix(p[1..], tail);
    }
  }

  lemma PlainIdKept(admissionId: string, admissions: seq<Admission>)
    requires !StartsWith(admissionId, LookupPrefix)
    ensures ResolveAdmission(admissionId, admissions) == Some(admissionId)
  {
  }

  /**
   * `saveMedicalNote({admission_id, note_type, details})`: resolves the
   * admission id and appends the note, or fails without writing.
   */
  method SaveMedicalNote(wards: Wards, admissionId: string, noteType: string, details: string) returns (r: NoteResult)
    modifies wards`notes
    ensures match ResolveAdmission(admissionId, wards.admissions)
            case None => r == NoteFailed(NoAdmissionMessage) && wards.notes == old(wards.notes)
            case Some(id) => r == NoteSaved && wards.notes == old(wards.notes) + [MedicalNote(id, noteType, details)]
  {
    var finalAdmissionId := admissionId;
    if StartsWith(admissionId, LookupPrefix) {
      var patientId := LookupPatient(admissionId);
      var admission := LatestAdmission(wards.admissions, patientId);
      if admission.None? {
        return NoteFailed(NoAdmissionMessage);
      }
      finalAdmissionId := admission.value.admissionId;
    }
    wards.notes := wards.notes + [MedicalNote(finalAdmissionId, noteType, details)];
    r := NoteSaved;
  }

  // ---------------------------------------------------------------------
  // updateAppointmentStatus
  // ---------------------------------------------------------------------

  const StatusFailedMessage := "Failed to update status"

  datatype StatusResult = StatusUpdated | StatusFailed(error: string)

  /** The appointments with one row's status replaced. */
  function WithStatus(appointments: map<string, Appointment>, appointmentId: string, status: string): (r: map<string, Appointment>)
    requires appointmentId in appointments
    ensures r.Keys == appointments.Keys
    ensures r[appointmentId].status == status
    ensures forall k :: k in r && k != appointmentId ==> r[k] == appointments[k]
  {
    appointments[appointmentId := appointments[appointmentId].(status := status)]
  }

  /** Setting the same status twice is setting it once; the row's other columns are kept. */
  lemma WithStatusIdempotent(appointments: map<string, Appointment>, appointmentId: string, status: string)
    requires appointmentId in appointments
    ensures WithStatus(WithStatus(appointments, appointmentId, status), appointmentId, status) == WithStatus(appointments, appointmentId, status)
    ensures WithStatus(appointments, appointmentId, status)[appointmentId] == appointments[appointmentId].(status := status)
  {
  }

  /** `updateAppointmentStatus(appointmentId, status)`: updating a missing row throws, and nothing changes. */
  method UpdateAppointmentStatus(reg: Registry, appointmentId: string, status: string) returns (r: StatusResult)
    requires reg.Valid()
    modifies reg`appointments
    ensures reg.Valid()
    ensures appointmentId in old(reg.appointments) ==>
              r == StatusUpdated && reg.appointments == WithStatus(old(reg.appointments), appointmentId, status)
    ensures appointmentId !in old(reg.appointments) ==>
              r == StatusFailed(StatusFailedMessage) && reg.appointments == old(reg.appointments)
  {
    if appointmentId !in reg.appointments {
      return StatusFailed(StatusFailedMessage);
    }
    reg.appointments := reg.appointments[appointmentId := reg.appointments[appointmentId].(status := status)];
    r := StatusUpdated;
  }
}
