/**
 * The doctors router (routes/doctors.js). The listing is declared before the router-level
 * middleware and is open to everyone; every route after it is for administrators only.
 */
module Doctors {
  import opened Options
  import opened Js
  import opened Records
  import opened Queries
  import opened Store

  /** `!req.user || req.user.role !== 'admin'` is answered with 403. */
  predicate PassesGate(caller: Option<Caller>) {
    caller.Some? && IsAdmin(caller.value)
  }

  function ViewsOf(doctors: map<int, Doctor>, specialties: map<int, Specialty>, ids: seq<int>): (r: seq<DoctorView>)
    requires forall i :: 0 <= i < |ids| ==> ids[i] in doctors
    ensures |r| == |ids|
    ensures forall i :: 0 <= i < |r| ==> Some(r[i]) == DoctorOf(doctors, specialties, ids[i])
  {
    seq(|ids|, i requires 0 <= i < |ids| => DoctorOf(doctors, specialties, ids[i]).value)
  }

  /** GET /doctors: every doctor with its specialty, by ascending id. */
  method ListDoctors(db: Db) returns (reply: Reply)
    requires db.Valid()
    ensures reply.status == 200 && reply.body.Doctors?
    ensures Increasing(ViewIds(reply.body.doctors))
    ensures forall v :: v in reply.body.doctors <==> v.id in db.doctors && DoctorOf(db.doctors, db.specialties, v.id) == Some(v)
  {
    var ids := IdsIn(db.doctors.Keys, 1, db.nextDoctorId);
    var views := ViewsOf(db.doctors, db.specialties, ids);
    reply := Reply(200, Doctors(views));
    forall v ensures v in views <==> v.id in db.doctors && DoctorOf(db.doctors, db.specialties, v.id) == Some(v) {
      if v.id in db.doctors && DoctorOf(db.doctors, db.specialties, v.id) == Some(v) {
        var i :| 0 <= i < |ids| && ids[i] == v.id;
        assert views[i] == v;
      }
    }
  }

  /** The JSON body of POST /doctors. */
  datatype NewDoctor = NewDoctor(name: Option<string>, specialtyId: Option<int>)

  /** POST /doctors */
  method CreateDoctor(db: Db, body: NewDoctor) returns (reply: Reply)
    requires db.Valid()
    modifies db`doctors, db`nextDoctorId
    ensures db.Valid()
    ensures !Given(body.name) || !GivenId(body.specialtyId) ==> reply == Refuse(400, MissingFields)
    ensures Given(body.name) && GivenId(body.specialtyId) && body.specialtyId.value !in db.specialties
            ==> reply == Refuse(400, InvalidSpecialty)
    ensures reply.status == 201 <==> Given(body.name) && GivenId(body.specialtyId) && body.specialtyId.value in db.specialties
    ensures reply.status == 201 || reply.status == 400
    ensures reply.status == 400 ==> db.doctors == old(db.doctors) && db.nextDoctorId == old(db.nextDoctorId)
    ensures reply.status == 201 ==>
              var id := old(db.nextDoctorId);
              var sid := body.specialtyId.value;
              && id !in old(db.doctors)
              && db.doctors == old(db.doctors)[id := Doctor(body.name.value, sid)]
              && db.nextDoctorId == id + 1
              && reply.body == OneDoctor(DoctorView(id, body.name.value, Some(Ref(sid, db.specialties[sid].name))))
  {
    if !Given(body.name) || !GivenId(body.specialtyId) {
      return Refuse(400, MissingFields);
    }
    var sid := body.specialtyId.value;
    if sid !in db.specialties {
      return Refuse(400, InvalidSpecialty);
    }
    var id := db.nextDoctorId;
    db.doctors := db.doctors[id := Doctor(body.name.value, sid)];
    db.nextDoctorId := id + 1;
    reply := Reply(201, OneDoctor(DoctorOf(db.doctors, db.specialties, id).value));
  }

  /** GET /doctors/:id */
  method GetDoctor(db: Db, id: int) returns (reply: Reply)
    requires db.Valid()
    ensures id !in db.doctors <==> reply == Refuse(404, NotFound)
    ensures id in db.doctors ==> reply == Reply(200, OneDoctor(DoctorOf(db.doctors, db.specialties, id).value))
  {
    if id !in db.doctors {
      return Refuse(404, NotFound);
    }
    reply := Reply(200, OneDoctor(DoctorOf(db.doctors, db.specialties, id).value));
  }

  /** The JSON body of PUT /doctors/:id; absent fields are left alone. */
  datatype DoctorChanges = DoctorChanges(name: Option<string>, specialtyId: Option<int>)

  /** The `updateFields` object the handler assembles one field at a time. */
  datatype Patch = Patch(name: Option<string>, specialtyId: Option<int>)

  /** PUT /doctors/:id */
  method UpdateDoctor(db: Db, id: int, body: DoctorChanges) returns (reply: Reply)
    requires db.Valid()
    modifies db`doctors
    ensures db.Valid()
    ensures id !in old(db.doctors) ==> reply == Refuse(404, NotFound)
    ensures id in old(db.doctors) && body.name.None? && body.specialtyId.None? ==> reply == Refuse(400, NoFieldsToUpdate)
    ensures reply.status != 200 ==> db.doctors == old(db.doctors)
    ensures reply.status == 200 <==> id in old(db.doctors) && (body.name.Some? || body.specialtyId.Some?)
    ensures reply.status == 200 ==>
              var d := old(db.doctors[id]);
              var e := Doctor(if body.name.Some? then body.name.value else d.name,
                              if body.specialtyId.Some? then body.specialtyId.value else d.specialtyId);
              && db.doctors == old(db.doctors)[id := e]
              && reply.body == OneDoctor(DoctorView(id, e.name, SpecialtyRef(db.specialties, e.specialtyId)))
  {
    if id !in db.doctors {
      return Refuse(404, NotFound);
    }
    var fields := Patch(None, None);
    if body.name.Some? {
      fields := fields.(name := body.name);
    }
    if body.specialtyId.Some? {
      fields := fields.(specialtyId := body.specialtyId);
    }
    if fields == Patch(None, None) {
      return Refuse(400, NoFieldsToUpdate);
    }
    var doctor := db.doctors[id];
    if fields.name.Some? {
      doctor := doctor.(name := fields.name.value);
    }
    if fields.specialtyId.Some? {
      doctor := doctor.(specialtyId := fields.specialtyId.value);
    }
    db.doctors := db.doctors[id := doctor];
    reply := Reply(200, OneDoctor(DoctorOf(db.doctors, db.specialties, id).value));
  }

  function SeenBy(t: map<int, Appointment>, doctorId: int): (ids: set<int>)
    ensures forall k :: k in ids <==> k in t && t[k].doctorId == doctorId
  {
    set k | k in t && t[k].doctorId == doctorId
  }

  /** GET /doctors/:id/appointments: the doctor's appointments with patient and doctor, by date and time. */
  method DoctorAppointments(db: Db, id: int) returns (reply: Reply)
    requires db.Valid()
    ensures id !in db.doctors <==> reply == Refuse(404, NotFound)
    ensures id in db.doctors ==>
              var order := ByDateTime(db.appointments, SeenBy(db.appointments, id), db.nextAppointmentId);
              reply == Reply(200, Details(DetailRows(db.users, db.doctors, db.specialties, db.appointments, order)))
    ensures reply.status == 200 ==>
              InTable(db.appointments, DetailIds(reply.body.details)) && Chronological(db.appointments, DetailIds(reply.body.details))
    ensures reply.status == 200 ==>
              (forall d :: d in reply.body.details ==> d.id in db.appointments && db.appointments[d.id].doctorId == id)
              && (forall k :: k in db.appointments && db.appointments[k].doctorId == id
                    ==> exists d :: d in reply.body.details && d.id == k)
  {
    if id !in db.doctors {
      return Refuse(404, NotFound);
    }
    var order := ByDateTime(db.appointments, SeenBy(db.appointments, id), db.nextAppointmentId);
    var details := DetailRows(db.users, db.doctors, db.specialties, db.appointments, order);
    reply := Reply(200, Details(details));
    assert DetailIds(details) == order;
    forall d | d in details
      ensures d.id in db.appointments && db.appointments[d.id].doctorId == id
    {
      var i :| 0 <= i < |details| && details[i] == d;
      assert order[i] in order;
    }
    forall k | k in db.appointments && db.appointments[k].doctorId == id
      ensures exists d :: d in details && d.id == k
    {
      var i :| 0 <= i < |order| && order[i] == k;
      assert details[i] in details;
    }
  }

  /** DELETE /doctors/:id */
  method DeleteDoctor(db: Db, id: int) returns (reply: Reply)
    requires db.Valid()
    modifies db`doctors
    ensures db.Valid()
    ensures id !in old(db.doctors) ==> reply == Refuse(404, NotFound) && db.doctors == old(db.doctors)
    ensures id in old(db.doctors) ==> reply == Reply(204, NoContent) && db.doctors == old(db.doctors) - {id}
  {
    if id !in db.doctors {
      return Refuse(404, NotFound);
    }
    db.doctors := db.doctors - {id};
    reply := Reply(204, NoContent);
  }

  datatype Request =
    | ListDoctorsRequest
    | CreateDoctorRequest(newDoctor: NewDoctor)
    | GetDoctorRequest(id: int)
    | UpdateDoctorRequest(id: int, changes: DoctorChanges)
    | DoctorAppointmentsRequest(id: int)
    | DeleteDoctorRequest(id: int)

  /**
   * A request to the doctors router. The listing is registered before `auth` and runs for
   * anyone. Every other route runs after `auth` and then the admin gate: a request the
   * middleware answers gets that answer, and one it passes on gets 403 exactly when the gate
   * stops its user.
   */
  method Route(db: Db, auth: Authentication, request: Request) returns (reply: Reply)
    requires db.Valid()
    modifies db`doctors, db`nextDoctorId
    ensures db.Valid()
    ensures request.ListDoctorsRequest? ==>
              reply.status == 200 && db.doctors == old(db.doctors) && db.nextDoctorId == old(db.nextDoctorId)
    ensures !request.ListDoctorsRequest? && auth.Answered? ==>
              reply == auth.reply && db.doctors == old(db.doctors) && db.nextDoctorId == old(db.nextDoctorId)
    ensures !request.ListDoctorsRequest? && auth.PassedOn? && !PassesGate(auth.user) ==>
              reply == Refuse(403, AdminOnly) && db.doctors == old(db.doctors) && db.nextDoctorId == old(db.nextDoctorId)
    ensures auth.PassedOn? ==> (reply.status == 403 <==> !request.ListDoctorsRequest? && !PassesGate(auth.user))
  {
    if request.ListDoctorsRequest? {
      reply := ListDoctors(db);
      return;
    }
    if auth.Answered? {
      return auth.reply;
    }
    if !PassesGate(auth.user) {
      return Refuse(403, AdminOnly);
    }
    match request
    case CreateDoctorRequest(body) => reply := CreateDoctor(db, body);
    case GetDoctorRequest(id) => reply := GetDoctor(db, id);
    case UpdateDoctorRequest(id, body) => reply := UpdateDoctor(db, id, body);
    case DoctorAppointmentsRequest(id) => reply := DoctorAppointments(db, id);
    case DeleteDoctorRequest(id) => reply := DeleteDoctor(db, id);
  }
}
