/**
 * The reception's registration (app/actions/register-patient.ts): the
 * registration agent assigns the patient id and the appointment id, then
 * the patient row and the appointment row are each created only if absent.
 */
module RegisterPatient {
  import opened Wrappers
  import opened Store

  /** The form's fields; a missing field is the empty string. The gender is sent to the agent but never stored. */
  datatype Form = Form(
    fullName: string,
    phone: string,
    age: string,
    gender: string,
    department: string,
    email: string,
    address: string,
    aadhar: string)

  const NotGiven := "not given"

  /** `(formData.get(f) as string) || "not given"` */
  function OrNotGiven(s: string): (r: string)
    ensures r != ""
    ensures s != "" ==> r == s
    ensures s == "" ==> r == NotGiven
  {
    if s == "" then NotGiven else s
  }

  /** The data sent to the agent and stored: email and address default to "not given". */
  function RawData(f: Form): (r: Form)
    ensures r.email != "" && r.address != ""
    ensures r.(email := f.email, address := f.address) == f
    ensures f.email != "" ==> r.email == f.email
    ensures f.address != "" ==> r.address == f.address
  {
    f.(email := OrNotGiven(f.email), address := OrNotGiven(f.address))
  }

  /**
   * The agent's JSON reply: its id fields (absent or falsy ones are the
   * empty string; a number or string body reads every id as absent), or a
   * body whose reading throws (`null`, or text that is not JSON) with the
   * error's message.
   */
  datatype ReplyBody = Ids(patientId: string, id: string, digitalId: string, appointmentId: string) | Unreadable(message: string)

  /** The webhook call: it threw, answered with a non-ok status, or answered. */
  datatype AgentCall = CallThrew(message: string) | HttpError(status: nat) | Answered(body: ReplyBody)

  datatype Registration = Registered(patientId: string, appointmentId: string, userType: string) | RegistrationFailed(error: string)

  const ConnectionFailedPrefix := "Agent Connection Failed: "
  const StatusFailedText := "Agent Webhook failed with status: "
  const MissingIdsMessage := "Agent did not return valid Patient ID or Appointment ID"
  const UserType := "OPD"

  /** The number a string of decimal digits denotes, most significant digit first. */
  function DigitsValue(s: string): int {
    if s == [] then 0 else 10 * DigitsValue(s[..|s| - 1]) + (s[|s| - 1] as int - '0' as int)
  }

  /**
   * The decimal digits of a status code, as a template string shows it:
   * digits only, no leading zero, and denoting the code.
   */
  function Decimal(n: nat): (r: string)
    ensures r != []
    ensures forall i :: 0 <= i < |r| ==> '0' <= r[i] <= '9'
    ensures r[0] == '0' ==> r == "0"
    ensures DigitsValue(r) == n
  {
    if n < 10 then [('0' as int + n) as char]
    else
      var prefix := Decimal(n / 10);
      var r := prefix + [('0' as int + n % 10) as char];
      assert r[..|r| - 1] == prefix;
      r
  }

  /** `result.patient_id || result.id || result.digital_id` */
  function ChosenId(b: ReplyBody): (r: string)
    requires b.Ids?
    ensures b.patientId != "" ==> r == b.patientId
    ensures b.patientId == "" && b.id != "" ==> r == b.id
    ensures b.patientId == "" && b.id == "" ==> r == b.digitalId
    ensures r == "" <==> b.patientId == "" && b.id == "" && b.digitalId == ""
  {
    if b.patientId != "" then b.patientId else if b.id != "" then b.id else b.digitalId
  }

  /** The two ids the registration goes on with, or the message it fails with before any write. */
  datatype Assigned = Assigned(patientId: string, appointmentId: string) | Refused(error: string)

  function Assign(call: AgentCall): (r: Assigned)
    ensures r.Assigned? ==> r.patientId != "" && r.appointmentId != ""
    ensures r.Assigned? <==> call.Answered? && call.body.Ids? && ChosenId(call.body) != "" && call.body.appointmentId != ""
    ensures r.Assigned? ==> r == Assigned(ChosenId(call.body), call.body.appointmentId)
  {
    match call
    case CallThrew(message) => Refused(ConnectionFailedPrefix + message)
    case HttpError(status) => Refused(ConnectionFailedPrefix + StatusFailedText + Decimal(status))
    case Answered(Unreadable(message)) => Refused(ConnectionFailedPrefix + message)
    case Answered(b) =>
      if ChosenId(b) == "" || b.appointmentId == "" then Refused(MissingIdsMessage)
      else Assigned(ChosenId(b), b.appointmentId)
  }

  /** A failure of the call itself is reported with the connection prefix. */
  lemma ConnectionFailures(call: AgentCall)
    requires !call.Answered? || call.body.Unreadable?
    ensures Assign(call).Refused?
    ensures |Assign(call).error| >= |ConnectionFailedPrefix| && Assign(call).error[..|ConnectionFailedPrefix|] == ConnectionFailedPrefix
  {
  }

  /** An answer without both ids is refused with its own message. */
  lemma MissingIds(b: ReplyBody)
    requires b.Ids? && (ChosenId(b) == "" || b.appointmentId == "")
    ensures Assign(Answered(b)) == Refused(MissingIdsMessage)
  {
  }

  /** The tables the registration writes. */
  datatype Tables = Tables(patients: map<string, Patient>, appointments: map<string, Appointment>, nextAppointmentId: int)

  function NewPatient(patientId: string, raw: Form): (p: Patient)
    ensures p.patientId == patientId && p.fullName == raw.fullName && p.phone == raw.phone && p.age == raw.age
    ensures p.department == raw.department && p.email == raw.email && p.address == raw.address && p.aadharCard == raw.aadhar
  {
    Patient(patientId, raw.fullName, raw.phone, raw.age, raw.department, raw.email, raw.address, raw.aadhar)
  }

  const InitialStatus := "Pending"
  const InitialReason := "Initial Consultation"

  function NewAppointment(appointmentId: string, internalId: int, patientId: string, department: string, now: int): (a: Appointment)
    ensures a.appointmentId == appointmentId && a.internalId == internalId && a.patientId == patientId
    ensures a.status == InitialStatus && a.reasonForVisit == InitialReason && a.department == department && a.appointmentDate == now
  {
    Appointment(appointmentId, internalId, patientId, InitialStatus, department, InitialReason, now)
  }

  /** The tables after the two check-then-create steps. */
  function Enrol(t: Tables, raw: Form, patientId: string, appointmentId: string, now: int): Tables {
    var patients := if patientId in t.patients then t.patients else t.patients[patientId := NewPatient(patientId, raw)];
    if appointmentId in t.appointments then Tables(patients, t.appointments, t.nextAppointmentId)
    else Tables(patients, t.appointments[appointmentId := NewAppointment(appointmentId, t.nextAppointmentId, patientId, raw.department, now)], t.nextAppointmentId + 1)
  }

  ghost predicate TablesValid(t: Tables) {
    RegistryValid(t.patients, t.appointments, t.nextAppointmentId)
  }

  /**
   * An existing row is never overwritten: afterwards both ids have rows,
   * every earlier row is as it was, and nothing else is added.
   */
  lemma EnrolKeepsRows(t: Tables, raw: Form, patientId: string, appointmentId: string, now: int)
    ensures var r := Enrol(t, raw, patientId, appointmentId, now);
            && r.patients.Keys == t.patients.Keys + {patientId}
            && r.appointments.Keys == t.appointments.Keys + {appointmentId}
            && (forall k :: k in t.patients ==> r.patients[k] == t.patients[k])
            && (forall k :: k in t.appointments ==> r.appointments[k] == t.appointments[k])
  {
  }

  /** A new patient row holds the form's data; a new appointment is Pending, for an initial consultation, with a fresh internal id. */
  lemma EnrolNewRows(t: Tables, raw: Form, patientId: string, appointmentId: string, now: int)
    requires TablesValid(t)
    ensures var r := Enrol(t, raw, patientId, appointmentId, now);
            && (patientId !in t.patients ==> r.patients[patientId] == NewPatient(patientId, raw))
            && (appointmentId !in t.appointments ==>
                  && r.appointments[appointmentId] == NewAppointment(appointmentId, t.nextAppointmentId, patientId, raw.department, now)
                  && forall k :: k in t.appointments ==> t.appointments[k].internalId != t.nextAppointmentId)
  {
  }

  lemma EnrolValid(t: Tables, raw: Form, patientId: string, appointmentId: string, now: int)
    requires TablesValid(t)
    ensures TablesValid(Enrol(t, raw, patientId, appointmentId, now))
  {
  }

  /** Registering again with the same ids, whatever the form says, changes nothing. */
  lemma EnrolIdempotent(t: Tables, raw: Form, raw': Form, patientId: string, appointmentId: string, now: int, now': int)
    ensures var once := Enrol(t, raw, patientId, appointmentId, now);
            Enrol(once, raw', patientId, appointmentId, now') == once
  {
  }

  /**
   * `registerPatient(formData)`: the ids come from the agent's reply; a
   * failed call or a reply without both ids fails before any write;
   * otherwise the patient and the appointment are created when absent and
   * the ids are returned with the user type 'OPD'.
   */
  method RegisterPatient(reg: Registry, form: Form, call: AgentCall, now: int) returns (r: Registration)
    requires reg.Valid()
    modifies reg
    ensures reg.Valid()
    ensures Assign(call).Refused? ==>
              && r == RegistrationFailed(Assign(call).error)
              && reg.patients == old(reg.patients) && reg.appointments == old(reg.appointments) && reg.nextAppointmentId == old(reg.nextAppointmentId)
    ensures Assign(call).Assigned? ==>
              var a := Assign(call);
              && r == Registered(a.patientId, a.appointmentId, UserType)
              && Tables(reg.patients, reg.appointments, reg.nextAppointmentId)
                 == Enrol(Tables(old(reg.patients), old(reg.appointments), old(reg.nextAppointmentId)), RawData(form), a.patientId, a.appointmentId, now)
  {
    var raw := RawData(form);
    var agentPatientId := "";
    var appointmentId := "";

    // 1. The agent assigns the ids.
    match call {
      case CallThrew(message) =>
        return RegistrationFailed(ConnectionFailedPrefix + message);
      case HttpError(status) =>
        return RegistrationFailed(ConnectionFailedPrefix + StatusFailedText + Decimal(status));
      case Answered(body) =>
        if body.Unreadable? {
          return RegistrationFailed(ConnectionFailedPrefix + body.message);
        }
        if body.patientId != "" || body.id != "" || body.digitalId != "" {
          agentPatientId := ChosenId(body);
          appointmentId := body.appointmentId;
        }
    }
    if agentPatientId == "" || appointmentId == "" {
      return RegistrationFailed(MissingIdsMessage);
    }

    // 2. The patient, if absent.
    if agentPatientId !in reg.patients {
      reg.patients := reg.patients[agentPatientId := NewPatient(agentPatientId, raw)];
    }

    // 3. The appointment, if absent.
    if appointmentId !in reg.appointments {
      reg.appointments := reg.appointments[appointmentId := NewAppointment(appointmentId, reg.nextAppointmentId, agentPatientId, raw.department, now)];
      reg.nextAppointmentId := reg.nextAppointmentId + 1;
    }
    r := Registered(agentPatientId, appointmentId, UserType);
  }
}
