/**
 * The appointments router (routes/appointments.js): the response shaping, the admin-or-owner
 * rule, and the list, create, update and delete handlers. Every route sits behind the
 * authentication middleware, so each handler is given the caller it attached.
 */
module Appointments {
  import opened Options
  import opened Js
  import opened Records
  import opened Queries
  import opened Store

  // ---------------------------------------------------------------------------------------
  // Response shaping

  /** An appointment as loaded with its `medico` (and the doctor's `specialty`) and `paciente`. */
  datatype Loaded = Loaded(
    id: int, date: string, time: string, notes: Option<string>,
    medico: Option<DoctorView>, paciente: Option<Ref>)

  function Load(users: map<int, User>, doctors: map<int, Doctor>, specialties: map<int, Specialty>,
                t: map<int, Appointment>, id: int): (r: Loaded)
    requires id in t
  {
    var a := t[id];
    Loaded(id, a.date, a.time, a.notes, DoctorOf(doctors, specialties, a.doctorId), UserRef(users, a.userId))
  }

  /** The suffix that turns 'YYYY-MM-DDTHH:MM:SS' into a UTC timestamp with milliseconds. */
  const UTC_MILLIS: string := ".000Z"

  /** The `data` field: both columns recombined, or null when either is empty. */
  function Timestamp(date: string, time: string): (r: Option<string>) {
    if date != "" && time != "" then Some(date + "T" + time + UTC_MILLIS) else None
  }

  /** `formatAppointmentResponse`: null for a missing appointment, else the reply shape. */
  function FormatAppointmentResponse(appointment: Option<Loaded>): (r: Option<AppointmentResponse>)
    ensures r.None? <==> appointment.None?
    ensures r.Some? ==> r.value.id == appointment.value.id && r.value.descricao == appointment.value.notes
  {
    match appointment
    case None => None
    case Some(a) =>
      var doctor := a.medico;
      Some(AppointmentResponse(
        a.id,
        Timestamp(a.date, a.time),
        a.notes,
        if doctor.Some? then doctor.value.specialty else None,
        if doctor.Some? then Some(Ref(doctor.value.id, doctor.value.name)) else None,
        a.paciente))
  }

  /** The reply for the stored appointment `id`, joined against the current tables. */
  function ResponseFor(users: map<int, User>, doctors: map<int, Doctor>, specialties: map<int, Specialty>,
                       t: map<int, Appointment>, id: int): (r: AppointmentResponse)
    requires id in t
  {
    FormatAppointmentResponse(Some(Load(users, doctors, specialties, t, id))).value
  }

  function ResponsesFor(users: map<int, User>, doctors: map<int, Doctor>, specialties: map<int, Specialty>,
                        t: map<int, Appointment>, order: seq<int>): (r: seq<AppointmentResponse>)
    requires InTable(t, order)
    ensures |r| == |order|
    ensures forall i :: 0 <= i < |r| ==> r[i] == ResponseFor(users, doctors, specialties, t, order[i])
  {
    seq(|order|, i requires 0 <= i < |order| => ResponseFor(users, doctors, specialties, t, order[i]))
  }

  /**
   * What a formatted appointment says about the tables: the related doctor, specialty and
   * patient are each null exactly when the row is absent, the specialty is null whenever the
   * doctor is, and `data` is the two stored columns joined by 'T' with a UTC suffix.
   */
  lemma ResponseReflectsTables(users: map<int, User>, doctors: map<int, Doctor>, specialties: map<int, Specialty>,
                               t: map<int, Appointment>, id: int)
    requires id in t
    ensures var r := ResponseFor(users, doctors, specialties, t, id);
            var a := t[id];
            && r.id == id
            && r.descricao == a.notes
            && (r.medico.Some? <==> a.doctorId in doctors)
            && (r.medico.Some? ==> r.medico.value == Ref(a.doctorId, doctors[a.doctorId].name))
            && (r.specialty.Some? <==> a.doctorId in doctors && doctors[a.doctorId].specialtyId in specialties)
            && (r.specialty.Some? ==> r.specialty.value.id == doctors[a.doctorId].specialtyId)
            && (r.paciente.Some? <==> a.userId in users)
            && (r.data.Some? <==> a.date != "" && a.time != "")
            && (r.data.Some? ==> r.data.value == a.date + "T" + a.time + ".000Z")
  {
  }

  /** The position of the first `c` in `s`, or -1 (`String.prototype.indexOf`). */
  function IndexOf(s: string, c: char): (i: int)
    ensures -1 <= i < |s|
    ensures i >= 0 ==> s[i] == c && c !in s[..i]
    ensures i < 0 ==> c !in s
  {
    if s == [] then -1
    else if s[0] == c then 0
    else
      var j := IndexOf(s[1..], c);
      if j < 0 then -1 else j + 1
  }

  /** Read a `data` timestamp back into its `date` and `time` columns. */
  function SplitTimestamp(s: string): (r: Option<(string, string)>) {
    var i := IndexOf(s, 'T');
    if i < 0 then None
    else
      var rest := s[i + 1..];
      if |rest| >= |UTC_MILLIS| && rest[|rest| - |UTC_MILLIS|..] == UTC_MILLIS
      then Some((s[..i], rest[..|rest| - |UTC_MILLIS|]))
      else None
  }

  /** `data` loses nothing: a date without a 'T' and a time are read back as they were stored. */
  lemma TimestampRoundTrip(date: string, time: string)
    requires date != "" && time != "" && 'T' !in date
    ensures Timestamp(date, time).Some?
    ensures SplitTimestamp(Timestamp(date, time).value) == Some((date, time))
  {
    var s := date + "T" + time + UTC_MILLIS;
    var i := IndexOf(s, 'T');
    assert s[|date|] == 'T';
    assert forall j :: 0 <= j < |date| ==> s[j] == date[j];
    assert forall j :: |date| < j <= |s| ==> s[..j][|date|] == 'T';
    assert i == |date|;
    assert s[..i] == date;
    var rest := s[i + 1..];
    assert rest == time + UTC_MILLIS;
    assert rest[|rest| - |UTC_MILLIS|..] == UTC_MILLIS;
    assert rest[..|rest| - |UTC_MILLIS|] == time;
  }

  // The layout of an RFC 3339 (section 5.6) `date-time`.

  predicate DigitsAt(s: string, lo: int, hi: int)
    requires 0 <= lo <= hi <= |s|
  {
    forall i :: lo <= i < hi ==> IsDigit(s[i])
  }

  /** `full-date = date-fullyear "-" date-month "-" date-mday`. */
  predicate FullDate(d: string) {
    |d| == 10 && DigitsAt(d, 0, 4) && d[4] == '-' && DigitsAt(d, 5, 7) && d[7] == '-' && DigitsAt(d, 8, 10)
  }

  /** `partial-time` without its optional fraction: `time-hour ":" time-minute ":" time-second`. */
  predicate HourMinuteSecond(t: string) {
    |t| == 8 && DigitsAt(t, 0, 2) && t[2] == ':' && DigitsAt(t, 3, 5) && t[5] == ':' && DigitsAt(t, 6, 8)
  }

  /** `partial-time = time-hour ":" time-minute ":" time-second [time-secfrac]`. */
  predicate PartialTime(p: string) {
    |p| >= 8 && HourMinuteSecond(p[..8]) && (|p| == 8 || (|p| >= 10 && p[8] == '.' && DigitsAt(p, 9, |p|)))
  }

  /** `time-offset = "Z" / time-numoffset`. */
  predicate TimeOffset(x: string) {
    x == "Z" || x == "z"
    || (|x| == 6 && (x[0] == '+' || x[0] == '-') && DigitsAt(x, 1, 3) && x[3] == ':' && DigitsAt(x, 4, 6))
  }

  /** `date-time = full-date "T" partial-time time-offset`. */
  predicate DateTime(s: string) {
    |s| >= 11 && FullDate(s[..10]) && (s[10] == 'T' || s[10] == 't')
    && exists k :: 19 <= k <= |s| && PartialTime(s[11..k]) && TimeOffset(s[k..])
  }

  /** With canonical columns, `data` is an RFC 3339 date-time. */
  lemma TimestampIsDateTime(date: string, time: string)
    requires FullDate(date) && HourMinuteSecond(time)
    ensures Timestamp(date, time).Some? && DateTime(Timestamp(date, time).value)
  {
    var s := date + "T" + time + UTC_MILLIS;
    assert s[..10] == date;
    var k := |s| - 1;
    assert s[11..k] == time + ".000";
    assert s[11..k][..8] == time;
    assert s[k..] == "Z";
  }

  // ---------------------------------------------------------------------------------------
  // Access rule

  /** `authorizeAppointmentAccess`: admins may touch every appointment, others only their own. */
  function AuthorizeAppointmentAccess(caller: Option<Caller>, appointment: Option<Appointment>): (ok: bool)
    ensures appointment.None? ==> !ok
    ensures caller.None? || caller.value.role == "" ==> !ok
    ensures appointment.Some? && caller.Some? && IsAdmin(caller.value) ==> ok
    ensures appointment.Some? && caller.Some? && caller.value.role != "" && !IsAdmin(caller.value)
            ==> (ok <==> caller.value.id == appointment.value.userId)
  {
    if appointment.None? then false
    else if caller.None? || caller.value.role == "" then false
    else if caller.value.role == ADMIN then true
    else caller.value.id == appointment.value.userId
  }

  // ---------------------------------------------------------------------------------------
  // GET /appointments

  /** One equality of the `where` clause: absent, a number, or NaN (which no row matches). */
  datatype Criterion = Any | Equals(value: int) | NotANumber

  datatype Where = Where(userId: Criterion, doctorId: Criterion)

  function ParsedCriterion(q: string): (r: Criterion) {
    match ParseInt(q)
    case Some(n) => Equals(n)
    case None => NotANumber
  }

  predicate Fits(v: int, c: Criterion) {
    c.Any? || (c.Equals? && c.value == v)
  }

  /**
   * The `whereClause` the list handler builds from `patientId` and `doctorId`, or None when
   * a non-admin asks for another patient's appointments (403).
   */
  function BuildWhere(caller: Caller, patientId: Option<string>, doctorId: Option<string>): (r: Option<Where>)
    ensures !IsAdmin(caller) && caller.id != 0 ==>
              (r.None? <==> Given(patientId) && ParseInt(patientId.value) != Some(caller.id))
    ensures !IsAdmin(caller) && caller.id != 0 && r.Some? ==> r.value.userId == Equals(caller.id)
    ensures IsAdmin(caller) ==> r.Some? && r.value.userId == (if Given(patientId) then ParsedCriterion(patientId.value) else Any)
    ensures r.Some? ==> r.value.doctorId == (if Given(doctorId) then ParsedCriterion(doctorId.value) else Any)
  {
    var pinned := if caller.role != ADMIN then Equals(caller.id) else Any;
    var doctor := if Given(doctorId) then ParsedCriterion(doctorId.value) else Any;
    if Given(patientId) then
      var requested := ParsedCriterion(patientId.value);
      if pinned.Equals? && pinned.value != 0 && requested != pinned then None
      else Some(Where(requested, doctor))
    else Some(Where(pinned, doctor))
  }

  /** The ids of the rows that satisfy both equalities of the filter. */
  function Selected(t: map<int, Appointment>, w: Where): (r: set<int>) {
    set k | k in t && Fits(t[k].userId, w.userId) && Fits(t[k].doctorId, w.doctorId)
  }

  /** GET /appointments?patientId=&doctorId= */
  method List(db: Db, caller: Caller, patientId: Option<string>, doctorId: Option<string>) returns (reply: Reply)
    requires db.Valid()
    ensures BuildWhere(caller, patientId, doctorId).None? ==> reply == Refuse(403, Forbidden)
    ensures BuildWhere(caller, patientId, doctorId).Some? ==>
              var order := ByDateTime(db.appointments, Selected(db.appointments, BuildWhere(caller, patientId, doctorId).value), db.nextAppointmentId);
              reply == Reply(200, Appointments(ResponsesFor(db.users, db.doctors, db.specialties, db.appointments, order)))
    ensures reply.status == 200 ==>
              InTable(db.appointments, ResponseIds(reply.body.appointments))
              && Chronological(db.appointments, ResponseIds(reply.body.appointments))
    ensures reply.status == 200 ==> forall r :: r in reply.body.appointments ==>
              r.id in db.appointments
              && (!IsAdmin(caller) && caller.id != 0 ==> db.appointments[r.id].userId == caller.id)
              && (Given(doctorId) ==> ParseInt(doctorId.value) == Some(db.appointments[r.id].doctorId))
  {
    var where := BuildWhere(caller, patientId, doctorId);
    if where.None? {
      return Refuse(403, Forbidden);
    }
    var order := ByDateTime(db.appointments, Selected(db.appointments, where.value), db.nextAppointmentId);
    var responses := ResponsesFor(db.users, db.doctors, db.specialties, db.appointments, order);
    reply := Reply(200, Appointments(responses));
    assert ResponseIds(responses) == order;
    forall r | r in responses
      ensures r.id in db.appointments
      ensures !IsAdmin(caller) && caller.id != 0 ==> db.appointments[r.id].userId == caller.id
      ensures Given(doctorId) ==> ParseInt(doctorId.value) == Some(db.appointments[r.id].doctorId)
    {
      var i :| 0 <= i < |responses| && responses[i] == r;
      assert order[i] in order;
    }
  }

  // ---------------------------------------------------------------------------------------
  // POST /appointments

  /** What `new Date(data)` followed by the date/time extraction yields: nothing, or two columns. */
  datatype Stamp = Invalid | At(date: string, time: string)

  /** A `data` string of the body: the empty string, or a non-empty one and what it parses to. */
  datatype DateInput = Blank | Text(parsed: Stamp)

  function StampOf(d: DateInput): (r: Stamp) {
    if d.Blank? then Invalid else d.parsed
  }

  predicate DateGiven(d: Option<DateInput>) {
    d.Some? && d.value.Text?
  }

  /** The JSON body of POST /appointments. `pacienteId` is read by nobody. */
  datatype NewAppointment = NewAppointment(
    data: Option<DateInput>, medicoId: Option<int>, especialidadeId: Option<int>,
    descricao: Option<string>, pacienteId: Option<int>)

  /** `doctor.specialty && doctor.specialty.id === specialtyId` for an existing doctor. */
  predicate InSpecialty(doctors: map<int, Doctor>, specialties: map<int, Specialty>, doctorId: int, specialtyId: int)
    requires doctorId in doctors
  {
    doctors[doctorId].specialtyId in specialties && doctors[doctorId].specialtyId == specialtyId
  }

  /** Every check of the create handler passes. */
  predicate CreateAccepted(doctors: map<int, Doctor>, specialties: map<int, Specialty>, body: NewAppointment) {
    && DateGiven(body.data) && GivenId(body.medicoId) && GivenId(body.especialidadeId)
    && body.medicoId.value in doctors
    && InSpecialty(doctors, specialties, body.medicoId.value, body.especialidadeId.value)
    && body.data.value.parsed.At?
  }

  /** POST /appointments */
  method Create(db: Db, caller: Caller, body: NewAppointment) returns (reply: Reply)
    requires db.Valid()
    modifies db`appointments, db`nextAppointmentId
    ensures db.Valid()
    ensures !DateGiven(body.data) || !GivenId(body.medicoId) || !GivenId(body.especialidadeId)
            ==> reply == Refuse(400, MissingFields)
    ensures DateGiven(body.data) && GivenId(body.medicoId) && GivenId(body.especialidadeId) ==>
              && (body.medicoId.value !in db.doctors ==> reply == Refuse(400, DoctorNotFound))
              && (body.medicoId.value in db.doctors
                  && !InSpecialty(db.doctors, db.specialties, body.medicoId.value, body.especialidadeId.value)
                  ==> reply == Refuse(400, DoctorNotInSpecialty))
              && (body.medicoId.value in db.doctors
                  && InSpecialty(db.doctors, db.specialties, body.medicoId.value, body.especialidadeId.value)
                  && !body.data.value.parsed.At?
                  ==> reply == Refuse(400, InvalidDate))
    ensures reply.status == 201 <==> CreateAccepted(db.doctors, db.specialties, body)
    ensures reply.status != 201 ==>
              reply.status == 400 && db.appointments == old(db.appointments)
              && db.nextAppointmentId == old(db.nextAppointmentId)
    ensures reply.status == 201 ==>
              var id := old(db.nextAppointmentId);
              var at := body.data.value.parsed;
              && id !in old(db.appointments)
              && db.appointments == old(db.appointments)[id := Appointment(at.date, at.time, body.descricao, caller.id, body.medicoId.value)]
              && db.nextAppointmentId == id + 1
              && reply.body == OneAppointment(ResponseFor(db.users, db.doctors, db.specialties, db.appointments, id))
  {
    if !DateGiven(body.data) || !GivenId(body.medicoId) || !GivenId(body.especialidadeId) {
      return Refuse(400, MissingFields);
    }
    var medicoId := body.medicoId.value;
    if medicoId !in db.doctors {
      return Refuse(400, DoctorNotFound);
    }
    if !InSpecialty(db.doctors, db.specialties, medicoId, body.especialidadeId.value) {
      return Refuse(400, DoctorNotInSpecialty);
    }
    var at := body.data.value.parsed;
    if at.Invalid? {
      return Refuse(400, InvalidDate);
    }
    var id := db.nextAppointmentId;
    db.appointments := db.appointments[id := Appointment(at.date, at.time, body.descricao, caller.id, medicoId)];
    db.nextAppointmentId := id + 1;
    reply := Reply(201, OneAppointment(ResponseFor(db.users, db.doctors, db.specialties, db.appointments, id)));
  }

  // ---------------------------------------------------------------------------------------
  // PUT /appointments/:id

  /** The JSON body of PUT /appointments/:id; absent fields are left alone. */
  datatype AppointmentChanges = AppointmentChanges(
    data: Option<DateInput>, descricao: Option<string>, medicoId: Option<int>, especialidadeId: Option<int>)

  predicate SomethingToChange(c: AppointmentChanges) {
    c.data.Some? || c.descricao.Some? || c.medicoId.Some?
  }

  /** A `data` that is absent, or that parses to a date and a time. */
  predicate DateAccepted(c: AppointmentChanges) {
    c.data.Some? ==> StampOf(c.data.value).At?
  }

  /** Every check of the update handler after the lookup and the access rule passes. */
  predicate ChangesAccepted(doctors: map<int, Doctor>, specialties: map<int, Specialty>, c: AppointmentChanges) {
    && DateAccepted(c)
    && (c.medicoId.Some? ==> c.medicoId.value in doctors)
    && (c.medicoId.Some? && c.especialidadeId.Some? ==>
          c.medicoId.value in doctors && InSpecialty(doctors, specialties, c.medicoId.value, c.especialidadeId.value))
    && SomethingToChange(c)
  }

  /** The row after an accepted update: each given field replaced, the patient kept. */
  function Changed(a: Appointment, c: AppointmentChanges): (b: Appointment)
    requires c.data.Some? ==> StampOf(c.data.value).At?
    ensures b.userId == a.userId
    ensures c.data.None? ==> b.date == a.date && b.time == a.time
    ensures c.descricao.None? ==> b.notes == a.notes
    ensures c.medicoId.None? ==> b.doctorId == a.doctorId
    ensures c.data.Some? ==> b.date == StampOf(c.data.value).date && b.time == StampOf(c.data.value).time
    ensures c.descricao.Some? ==> b.notes == c.descricao
    ensures c.medicoId.Some? ==> b.doctorId == c.medicoId.value
  {
    var stamp := if c.data.Some? then StampOf(c.data.value) else At(a.date, a.time);
    Appointment(
      stamp.date, stamp.time,
      if c.descricao.Some? then c.descricao else a.notes,
      a.userId,
      if c.medicoId.Some? then c.medicoId.value else a.doctorId)
  }

  /** The `updateFields` object the handler assembles one field at a time. */
  datatype Patch = Patch(stamp: Option<(string, string)>, notes: Option<string>, doctorId: Option<int>)

  /** PUT /appointments/:id */
  method Update(db: Db, caller: Option<Caller>, id: int, body: AppointmentChanges) returns (reply: Reply)
    requires db.Valid()
    modifies db`appointments
    ensures db.Valid()
    ensures id !in old(db.appointments) ==> reply == Refuse(404, NotFound)
    ensures id in old(db.appointments) && !AuthorizeAppointmentAccess(caller, Some(old(db.appointments[id])))
            ==> reply == Refuse(403, Forbidden)
    ensures reply.status == 200 <==>
              id in old(db.appointments) && AuthorizeAppointmentAccess(caller, Some(old(db.appointments[id])))
              && ChangesAccepted(db.doctors, db.specialties, body)
    ensures reply.status != 200 ==> reply.status in {400, 403, 404} && db.appointments == old(db.appointments)
    ensures id in old(db.appointments) && AuthorizeAppointmentAccess(caller, Some(old(db.appointments[id]))) ==>
              && (!DateAccepted(body) ==> reply == Refuse(400, InvalidDate))
              && (DateAccepted(body) && body.medicoId.Some? && body.medicoId.value !in db.doctors
                  ==> reply == Refuse(400, InvalidDoctor))
              && (DateAccepted(body) && body.medicoId.Some? && body.medicoId.value in db.doctors && body.especialidadeId.Some?
                  && !InSpecialty(db.doctors, db.specialties, body.medicoId.value, body.especialidadeId.value)
                  ==> reply == Refuse(400, DoctorNotInSpecialty))
              && (!SomethingToChange(body) ==> reply == Refuse(400, NoFieldsToUpdate))
              && (!ChangesAccepted(db.doctors, db.specialties, body) ==> reply.status == 400)
    ensures reply.status == 200 ==>
              && db.appointments == old(db.appointments)[id := Changed(old(db.appointments[id]), body)]
              && reply.body == OneAppointment(ResponseFor(db.users, db.doctors, db.specialties, db.appointments, id))
  {
    if id !in db.appointments {
      return Refuse(404, NotFound);
    }
    var row := db.appointments[id];
    if !AuthorizeAppointmentAccess(caller, Some(row)) {
      return Refuse(403, Forbidden);
    }
    var fields := Patch(None, None, None);
    if body.data.Some? {
      var stamp := StampOf(body.data.value);
      if stamp.Invalid? {
        return Refuse(400, InvalidDate);
      }
      fields := fields.(stamp := Some((stamp.date, stamp.time)));
    }
    if body.descricao.Some? {
      fields := fields.(notes := body.descricao);
    }
    if body.medicoId.Some? {
      var medicoId := body.medicoId.value;
      if medicoId !in db.doctors {
        return Refuse(400, InvalidDoctor);
      }
      if body.especialidadeId.Some? {
        if !InSpecialty(db.doctors, db.specialties, medicoId, body.especialidadeId.value) {
          return Refuse(400, DoctorNotInSpecialty);
        }
      }
      fields := fields.(doctorId := Some(medicoId));
    }
    if fields == Patch(None, None, None) {
      return Refuse(400, NoFieldsToUpdate);
    }
    var updated := Appointment(
      if fields.stamp.Some? then fields.stamp.value.0 else row.date,
      if fields.stamp.Some? then fields.stamp.value.1 else row.time,
      if fields.notes.Some? then fields.notes else row.notes,
      row.userId,
      if fields.doctorId.Some? then fields.doctorId.value else row.doctorId);
    assert updated == Changed(row, body);
    db.appointments := db.appointments[id := updated];
    reply := Reply(200, OneAppointment(ResponseFor(db.users, db.doctors, db.specialties, db.appointments, id)));
  }

  // ---------------------------------------------------------------------------------------
  // DELETE /appointments/:id

  /** DELETE /appointments/:id */
  method Delete(db: Db, caller: Option<Caller>, id: int) returns (reply: Reply)
    requires db.Valid()
    modifies db`appointments
    ensures db.Valid()
    ensures id !in old(db.appointments) ==> reply == Refuse(404, NotFound) && db.appointments == old(db.appointments)
    ensures id in old(db.appointments) && !AuthorizeAppointmentAccess(caller, Some(old(db.appointments[id])))
            ==> reply == Refuse(403, Forbidden) && db.appointments == old(db.appointments)
    ensures id in old(db.appointments) && AuthorizeAppointmentAccess(caller, Some(old(db.appointments[id])))
            ==> reply == Reply(204, NoContent) && db.appointments == old(db.appointments) - {id}
  {
    if id !in db.appointments {
      return Refuse(404, NotFound);
    }
    if !AuthorizeAppointmentAccess(caller, Some(db.appointments[id])) {
      return Refuse(403, Forbidden);
    }
    db.appointments := db.appointments - {id};
    reply := Reply(204, NoContent);
  }
}
