/**
 * The specialties router (routes/specialties.js). The listing is declared before the
 * authentication middleware and is open to everyone; every other route goes through that
 * middleware, and creating, renaming and removing a specialty go through `adminOnly` as well.
 */
module Specialties {
  import opened Options
  import opened Js
  import opened Records
  import opened Queries
  import opened Store

  /** `adminOnly`: `!req.user || req.user.role !== 'admin'` is answered with 403. */
  predicate PassesAdminOnly(caller: Option<Caller>) {
    caller.Some? && IsAdmin(caller.value)
  }

  /** GET /specialties: every specialty, by ascending id. */
  method ListSpecialties(db: Db) returns (reply: Reply)
    requires db.Valid()
    ensures reply.status == 200 && reply.body.Refs?
    ensures Increasing(RefIds(reply.body.refs))
    ensures forall r :: r in reply.body.refs <==> r.id in db.specialties && r.name == db.specialties[r.id].name
  {
    var ids := IdsIn(db.specialties.Keys, 1, db.nextSpecialtyId);
    var table := db.specialties;
    var refs := seq(|ids|, i requires 0 <= i < |ids| => Ref(ids[i], table[ids[i]].name));
    reply := Reply(200, Refs(refs));
    forall r ensures r in refs <==> r.id in db.specialties && r.name == db.specialties[r.id].name {
      if r.id in db.specialties && r.name == db.specialties[r.id].name {
        var i :| 0 <= i < |ids| && ids[i] == r.id;
        assert refs[i] == r;
      }
    }
  }

  /** POST /specialties */
  method CreateSpecialty(db: Db, caller: Option<Caller>, name: Option<string>) returns (reply: Reply)
    requires db.Valid()
    modifies db`specialties, db`nextSpecialtyId
    ensures db.Valid()
    ensures !PassesAdminOnly(caller) ==> reply == Refuse(403, AdminOnly)
    ensures PassesAdminOnly(caller) && !Given(name) ==> reply == Refuse(400, MissingFields)
    ensures PassesAdminOnly(caller) && Given(name) && NameTaken(old(db.specialties), name.value)
            ==> reply == Refuse(400, DuplicateSpecialty)
    ensures reply.status == 201 <==> PassesAdminOnly(caller) && Given(name) && !NameTaken(old(db.specialties), name.value)
    ensures reply.status != 201 ==> db.specialties == old(db.specialties) && db.nextSpecialtyId == old(db.nextSpecialtyId)
    ensures reply.status == 201 ==>
              var id := old(db.nextSpecialtyId);
              && id !in old(db.specialties)
              && db.specialties == old(db.specialties)[id := Specialty(name.value)]
              && db.nextSpecialtyId == id + 1
              && reply.body == OneRef(Ref(id, name.value))
  {
    if !PassesAdminOnly(caller) {
      return Refuse(403, AdminOnly);
    }
    if !Given(name) {
      return Refuse(400, MissingFields);
    }
    if NameTaken(db.specialties, name.value) {
      return Refuse(400, DuplicateSpecialty);
    }
    var id := db.nextSpecialtyId;
    db.specialties := db.specialties[id := Specialty(name.value)];
    db.nextSpecialtyId := id + 1;
    reply := Reply(201, OneRef(Ref(id, name.value)));
  }

  function DoctorIdsIn(doctors: map<int, Doctor>, id: int): (ids: set<int>)
    ensures forall k :: k in ids <==> k in doctors && doctors[k].specialtyId == id
  {
    set k | k in doctors && doctors[k].specialtyId == id
  }

  /** The doctors of a specialty (`Specialty.hasMany(Doctor, { foreignKey: 'specialty_id' })`), by ascending id. */
  function MembersOf(doctors: map<int, Doctor>, id: int, hi: int): (r: seq<Ref>)
    ensures Increasing(RefIds(r))
    ensures forall m :: m in r <==> m.id in doctors && doctors[m.id].specialtyId == id && m.name == doctors[m.id].name
                                    && 1 <= m.id < hi
  {
    var ids := IdsIn(DoctorIdsIn(doctors, id), 1, hi);
    var r := seq(|ids|, i requires 0 <= i < |ids| => Ref(ids[i], doctors[ids[i]].name));
    assert RefIds(r) == ids;
    assert forall m: Ref :: m in r <== m.id in doctors && doctors[m.id].specialtyId == id && m.name == doctors[m.id].name
                                  && 1 <= m.id < hi
      by {
      forall m: Ref | m.id in doctors && doctors[m.id].specialtyId == id && m.name == doctors[m.id].name && 1 <= m.id < hi
        ensures m in r
      {
        var i :| 0 <= i < |ids| && ids[i] == m.id;
        assert r[i] == m;
      }
    }
    r
  }

  /** GET /specialties/:id: the specialty with exactly the doctors that belong to it. */
  method GetSpecialty(db: Db, id: int) returns (reply: Reply)
    requires db.Valid()
    ensures id !in db.specialties <==> reply == Refuse(404, NotFound)
    ensures id in db.specialties ==>
              reply.status == 200 && reply.body.SpecialtyWithDoctors?
              && reply.body.specialty == Ref(id, db.specialties[id].name)
              && Increasing(RefIds(reply.body.members))
              && (forall m :: m in reply.body.members <==>
                    m.id in db.doctors && db.doctors[m.id].specialtyId == id && m.name == db.doctors[m.id].name)
  {
    if id !in db.specialties {
      return Refuse(404, NotFound);
    }
    var members := MembersOf(db.doctors, id, db.nextDoctorId);
    reply := Reply(200, SpecialtyWithDoctors(Ref(id, db.specialties[id].name), members));
  }

  /** PUT /specialties/:id: the name is checked before the lookup; only the name changes. */
  method UpdateSpecialty(db: Db, caller: Option<Caller>, id: int, name: Option<string>) returns (reply: Reply)
    requires db.Valid()
    modifies db`specialties
    ensures db.Valid()
    ensures !PassesAdminOnly(caller) ==> reply == Refuse(403, AdminOnly)
    ensures PassesAdminOnly(caller) && !Given(name) ==> reply == Refuse(400, MissingFields)
    ensures PassesAdminOnly(caller) && Given(name) && id !in old(db.specialties) ==> reply == Refuse(404, NotFound)
    ensures PassesAdminOnly(caller) && Given(name) && id in old(db.specialties)
            && NameTakenByOther(old(db.specialties), name.value, id)
            ==> reply == Refuse(400, DuplicateSpecialty)
    ensures reply.status == 200 <==>
              PassesAdminOnly(caller) && Given(name) && id in old(db.specialties)
              && !NameTakenByOther(old(db.specialties), name.value, id)
    ensures reply.status != 200 ==> db.specialties == old(db.specialties)
    ensures reply.status == 200 ==>
              db.specialties == old(db.specialties)[id := Specialty(name.value)] && reply.body == OneRef(Ref(id, name.value))
  {
    if !PassesAdminOnly(caller) {
      return Refuse(403, AdminOnly);
    }
    if !Given(name) {
      return Refuse(400, MissingFields);
    }
    if id !in db.specialties {
      return Refuse(404, NotFound);
    }
    if NameTakenByOther(db.specialties, name.value, id) {
      return Refuse(400, DuplicateSpecialty);
    }
    db.specialties := db.specialties[id := Specialty(name.value)];
    reply := Reply(200, OneRef(Ref(id, name.value)));
  }

  /** DELETE /specialties/:id */
  method DeleteSpecialty(db: Db, caller: Option<Caller>, id: int) returns (reply: Reply)
    requires db.Valid()
    modifies db`specialties
    ensures db.Valid()
    ensures !PassesAdminOnly(caller) ==> reply == Refuse(403, AdminOnly) && db.specialties == old(db.specialties)
    ensures PassesAdminOnly(caller) && id !in old(db.specialties)
            ==> reply == Refuse(404, NotFound) && db.specialties == old(db.specialties)
    ensures PassesAdminOnly(caller) && id in old(db.specialties)
            ==> reply == Reply(204, NoContent) && db.specialties == old(db.specialties) - {id}
  {
    if !PassesAdminOnly(caller) {
      return Refuse(403, AdminOnly);
    }
    if id !in db.specialties {
      return Refuse(404, NotFound);
    }
    db.specialties := db.specialties - {id};
    reply := Reply(204, NoContent);
  }

  datatype Request =
    | ListSpecialtiesRequest
    | CreateSpecialtyRequest(name: Option<string>)
    | GetSpecialtyRequest(id: int)
    | UpdateSpecialtyRequest(id: int, newName: Option<string>)
    | DeleteSpecialtyRequest(id: int)

  /** The three routes that go through `adminOnly`: creating, renaming and removing a specialty. */
  predicate AdminRoute(request: Request) {
    request.CreateSpecialtyRequest? || request.UpdateSpecialtyRequest? || request.DeleteSpecialtyRequest?
  }

  /**
   * A request to the specialties router. The listing is registered before `auth` and runs for
   * anyone. Every other route runs after `auth`: a request the middleware answers gets that
   * answer; one it passes on gets 403 exactly when it is a write and `adminOnly` stops its user.
   * Reads and refused writes leave the table alone.
   */
  method Route(db: Db, auth: Authentication, request: Request) returns (reply: Reply)
    requires db.Valid()
    modifies db`specialties, db`nextSpecialtyId
    ensures db.Valid()
    ensures request.ListSpecialtiesRequest? ==> reply.status == 200
    ensures !request.ListSpecialtiesRequest? && auth.Answered? ==> reply == auth.reply
    ensures auth.PassedOn? ==> (reply.status == 403 <==> AdminRoute(request) && !PassesAdminOnly(auth.user))
    ensures !AdminRoute(request) || auth.Answered? || !PassesAdminOnly(auth.user) ==>
              db.specialties == old(db.specialties) && db.nextSpecialtyId == old(db.nextSpecialtyId)
  {
    if request.ListSpecialtiesRequest? {
      reply := ListSpecialties(db);
      return;
    }
    if auth.Answered? {
      return auth.reply;
    }
    var caller := auth.user;
    match request
    case CreateSpecialtyRequest(name) => reply := CreateSpecialty(db, caller, name);
    case GetSpecialtyRequest(id) => reply := GetSpecialty(db, id);
    case UpdateSpecialtyRequest(id, name) => reply := UpdateSpecialty(db, caller, id, name);
    case DeleteSpecialtyRequest(id) => reply := DeleteSpecialty(db, caller, id);
  }
}
