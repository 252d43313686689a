/**
 * The users router (routes/users.js). A router-level middleware lets only administrators
 * through, to every route including `/me`; behind it sit the user CRUD handlers and three
 * per-user listings, each of which repeats an owner-or-admin check of its own.
 */
module Users {
  import opened Options
  import opened Js
  import opened Records
  import opened Queries
  import opened Store

  // ---------------------------------------------------------------------------------------
  // Access rules

  /** The router-level middleware: `req.user.role !== 'admin'` is answered with 403. */
  predicate PassesGate(caller: Caller) {
    IsAdmin(caller)
  }

  /** The per-user check: the caller's id equals `parseInt(userId, 10)`, or the caller is an admin. */
  predicate MayReadUser(caller: Caller, userId: string) {
    ParseInt(userId) == Some(caller.id) || IsAdmin(caller)
  }

  /**
   * The per-user check never refuses anyone who reaches it: the gate has already let only
   * administrators through.
   */
  lemma PerUserCheckNeverRefuses(caller: Caller, userId: string)
    requires PassesGate(caller)
    ensures MayReadUser(caller, userId)
  {
  }

  /** The URL a user's own page builds, `/users/${id}/...`, passes the per-user check. */
  lemma OwnUrlPassesCheck(caller: Caller)
    ensures MayReadUser(caller, DecimalString(caller.id))
  {
    ParseIntOfDecimalString(caller.id);
  }

  // ---------------------------------------------------------------------------------------
  // Listing and reading users

  /** GET /users: every user as `{ id, name }`, by ascending id. */
  method ListUsers(db: Db) returns (reply: Reply)
    requires db.Valid()
    ensures reply.status == 200 && reply.body.Refs?
    ensures Increasing(RefIds(reply.body.refs))
    ensures forall r :: r in reply.body.refs <==> r.id in db.users && r.name == db.users[r.id].name
  {
    var ids := IdsIn(db.users.Keys, 1, db.nextUserId);
    var table := db.users;
    var refs := seq(|ids|, i requires 0 <= i < |ids| => Ref(ids[i], table[ids[i]].name));
    reply := Reply(200, Refs(refs));
    forall r ensures r in refs <==> r.id in db.users && r.name == db.users[r.id].name {
      if r.id in db.users && r.name == db.users[r.id].name {
        var i :| 0 <= i < |ids| && ids[i] == r.id;
        assert refs[i] == r;
      }
    }
  }

  /** GET /users/me: the caller's own identity, as the authentication middleware decoded it. */
  method Me(caller: Caller) returns (reply: Reply)
    ensures reply.status == 200 && reply.body.OneIdentity?
    ensures reply.body.identity.id == caller.id && reply.body.identity.name == caller.name
    ensures reply.body.identity.email == caller.email && reply.body.identity.role == caller.role
  {
    reply := Reply(200, OneIdentity(Identity(caller.id, caller.name, caller.email, caller.role)));
  }

  /** GET /users/:id */
  method GetUser(db: Db, id: int) returns (reply: Reply)
    requires db.Valid()
    ensures id !in db.users <==> reply == Refuse(404, NotFound)
    ensures id in db.users ==> reply == Reply(200, OneUser(ViewOfUser(id, db.users[id])))
  {
    if id !in db.users {
      return Refuse(404, NotFound);
    }
    reply := Reply(200, OneUser(ViewOfUser(id, db.users[id])));
  }

  // ---------------------------------------------------------------------------------------
  // Creating, changing and removing users

  /** The JSON body of POST /users. */
  datatype NewUser = NewUser(name: Option<string>, email: Option<string>, googleId: Option<string>, role: Option<string>)

  /** POST /users */
  method CreateUser(db: Db, body: NewUser) returns (reply: Reply)
    requires db.Valid()
    modifies db`users, db`nextUserId
    ensures db.Valid()
    ensures !Given(body.name) || !Given(body.email) || !Given(body.googleId) ==> reply == Refuse(400, MissingFields)
    ensures Given(body.name) && Given(body.email) && Given(body.googleId)
            && (EmailTaken(old(db.users), body.email.value) || GoogleIdTaken(old(db.users), body.googleId.value))
            ==> reply == Refuse(400, DuplicateUser)
    ensures reply.status == 201 || reply.status == 400
    ensures reply.status != 201 ==> db.users == old(db.users) && db.nextUserId == old(db.nextUserId)
    ensures reply.status == 201 ==>
              var id := old(db.nextUserId);
              var user := User(body.name.value, body.email.value, body.googleId.value,
                               if Given(body.role) then body.role.value else DEFAULT_ROLE);
              && id !in old(db.users)
              && db.users == old(db.users)[id := user]
              && db.nextUserId == id + 1
              && reply.body == OneUser(ViewOfUser(id, user))
    ensures reply.status == 201 <==>
              Given(body.name) && Given(body.email) && Given(body.googleId)
              && !EmailTaken(old(db.users), body.email.value) && !GoogleIdTaken(old(db.users), body.googleId.value)
  {
    if !Given(body.name) || !Given(body.email) || !Given(body.googleId) {
      return Refuse(400, MissingFields);
    }
    if EmailTaken(db.users, body.email.value) || GoogleIdTaken(db.users, body.googleId.value) {
      return Refuse(400, DuplicateUser);
    }
    var id := db.nextUserId;
    var user := User(body.name.value, body.email.value, body.googleId.value,
                     if Given(body.role) then body.role.value else DEFAULT_ROLE);
    db.users := db.users[id := user];
    db.nextUserId := id + 1;
    reply := Reply(201, OneUser(ViewOfUser(id, user)));
  }

  /** The JSON body of PUT /users/:id; `email` and `googleId` are read by nobody. */
  datatype UserChanges = UserChanges(name: Option<string>, email: Option<string>, googleId: Option<string>, role: Option<string>)

  /** PUT /users/:id: only `name` and `role` change; the unique columns are never touched. */
  method UpdateUser(db: Db, id: int, body: UserChanges) returns (reply: Reply)
    requires db.Valid()
    modifies db`users
    ensures db.Valid()
    ensures reply.status == 200 || reply.status == 404
    ensures id !in old(db.users) ==> reply == Refuse(404, NotFound) && db.users == old(db.users)
    ensures id in old(db.users) ==>
              var u := old(db.users[id]);
              var v := User(if body.name.Some? then body.name.value else u.name, u.email, u.googleId,
                            if body.role.Some? then body.role.value else u.role);
              && db.users == old(db.users)[id := v]
              && reply == Reply(200, OneUser(ViewOfUser(id, v)))
  {
    if id !in db.users {
      return Refuse(404, NotFound);
    }
    var user := db.users[id];
    if body.name.Some? {
      user := user.(name := body.name.value);
    }
    if body.role.Some? {
      user := user.(role := body.role.value);
    }
    db.users := db.users[id := user];
    reply := Reply(200, OneUser(ViewOfUser(id, user)));
  }

  /** DELETE /users/:id */
  method DeleteUser(db: Db, id: int) returns (reply: Reply)
    requires db.Valid()
    modifies db`users
    ensures db.Valid()
    ensures id !in old(db.users) ==> reply == Refuse(404, NotFound) && db.users == old(db.users)
    ensures id in old(db.users) ==> reply == Reply(200, Removed) && db.users == old(db.users) - {id}
  {
    if id !in db.users {
      return Refuse(404, NotFound);
    }
    db.users := db.users - {id};
    reply := Reply(200, Removed);
  }

  // ---------------------------------------------------------------------------------------
  // Per-user listings

  /** `where: { user_id: userId }` with the path segment read as a number. */
  predicate OwnedBy(a: Appointment, userId: string) {
    ParseInt(userId) == Some(a.userId)
  }

  /** The user's appointments whose doctor row exists (the `required: true` inner join). */
  function OwnedWithDoctor(t: map<int, Appointment>, doctors: map<int, Doctor>, userId: string): (ids: set<int>)
    ensures forall k :: k in ids <==> k in t && OwnedBy(t[k], userId) && t[k].doctorId in doctors
  {
    set k | k in t && OwnedBy(t[k], userId) && t[k].doctorId in doctors
  }

  function Owned(t: map<int, Appointment>, userId: string): (ids: set<int>)
    ensures forall k :: k in ids <==> k in t && OwnedBy(t[k], userId)
  {
    set k | k in t && OwnedBy(t[k], userId)
  }

  function WithDoctorRows(doctors: map<int, Doctor>, specialties: map<int, Specialty>,
                          t: map<int, Appointment>, order: seq<int>): (r: seq<AppointmentWithDoctor>)
    requires InTable(t, order)
    requires forall i :: 0 <= i < |order| ==> t[order[i]].doctorId in doctors
    ensures |r| == |order|
    ensures forall i :: 0 <= i < |r| ==> r[i].id == order[i] && Some(r[i].medico) == DoctorOf(doctors, specialties, t[order[i]].doctorId)
  {
    seq(|order|, i requires 0 <= i < |order| =>
      var a := t[order[i]];
      AppointmentWithDoctor(order[i], a.date, a.time, a.notes, DoctorOf(doctors, specialties, a.doctorId).value))
  }

  /** The rows built from a listing of the user's appointments with a doctor are exactly those appointments. */
  lemma WithDoctorRowsCover(doctors: map<int, Doctor>, specialties: map<int, Specialty>,
                            t: map<int, Appointment>, userId: string, order: seq<int>)
    requires InTable(t, order)
    requires forall i :: 0 <= i < |order| ==> t[order[i]].doctorId in doctors
    requires forall k :: k in order <==> k in OwnedWithDoctor(t, doctors, userId)
    ensures var rows := WithDoctorRows(doctors, specialties, t, order);
            && (forall row :: row in rows ==>
                  && row.id in t && OwnedBy(t[row.id], userId)
                  && row.medico.id == t[row.id].doctorId && row.medico.id in doctors)
            && (forall k :: k in t && OwnedBy(t[k], userId) && t[k].doctorId in doctors
                  ==> exists row :: row in rows && row.id == k)
  {
    var rows := WithDoctorRows(doctors, specialties, t, order);
    forall row | row in rows
      ensures row.id in t && OwnedBy(t[row.id], userId)
      ensures row.medico.id == t[row.id].doctorId && row.medico.id in doctors
    {
      var i :| 0 <= i < |rows| && rows[i] == row;
      assert order[i] in order;
    }
    forall k | k in t && OwnedBy(t[k], userId) && t[k].doctorId in doctors
      ensures exists row :: row in rows && row.id == k
    {
      assert k in OwnedWithDoctor(t, doctors, userId);
      var i :| 0 <= i < |order| && order[i] == k;
      assert rows[i] in rows;
    }
  }

  /**
   * GET /users/:userId/specialties/:specialtyId/appointments. The filter on the specialty is
   * commented out in the handler, so `specialtyId` selects nothing: the reply lists all of the
   * user's appointments that have a doctor, by date and time.
   */
  method SpecialtyAppointments(db: Db, caller: Caller, userId: string, specialtyId: string) returns (reply: Reply)
    requires db.Valid()
    ensures !MayReadUser(caller, userId) ==> reply == Refuse(403, Forbidden)
    ensures MayReadUser(caller, userId) ==>
              var order := ByDateTime(db.appointments, OwnedWithDoctor(db.appointments, db.doctors, userId), db.nextAppointmentId);
              reply == Reply(200, WithDoctors(WithDoctorRows(db.doctors, db.specialties, db.appointments, order)))
    ensures reply.status == 200 ==>
              InTable(db.appointments, RowIds(reply.body.rows)) && Chronological(db.appointments, RowIds(reply.body.rows))
    ensures reply.status == 200 ==>
              (forall row :: row in reply.body.rows ==>
                 && row.id in db.appointments && OwnedBy(db.appointments[row.id], userId)
                 && row.medico.id == db.appointments[row.id].doctorId && row.medico.id in db.doctors)
              && (forall k :: k in db.appointments && OwnedBy(db.appointments[k], userId)
                    && db.appointments[k].doctorId in db.doctors
                    ==> exists row :: row in reply.body.rows && row.id == k)
  {
    if !MayReadUser(caller, userId) {
      return Refuse(403, Forbidden);
    }
    var order := ByDateTime(db.appointments, OwnedWithDoctor(db.appointments, db.doctors, userId), db.nextAppointmentId);
    var rows := WithDoctorRows(db.doctors, db.specialties, db.appointments, order);
    reply := Reply(200, WithDoctors(rows));
    assert RowIds(rows) == order;
    WithDoctorRowsCover(db.doctors, db.specialties, db.appointments, userId, order);
  }

  /** GET /users/:userId/appointments: the user's appointments with patient and doctor, by date and time. */
  method UserAppointments(db: Db, caller: Caller, userId: string) returns (reply: Reply)
    requires db.Valid()
    ensures !MayReadUser(caller, userId) ==> reply == Refuse(403, Forbidden)
    ensures MayReadUser(caller, userId) ==>
              var order := ByDateTime(db.appointments, Owned(db.appointments, userId), db.nextAppointmentId);
              reply == Reply(200, Details(DetailRows(db.users, db.doctors, db.specialties, db.appointments, order)))
    ensures reply.status == 200 ==>
              InTable(db.appointments, DetailIds(reply.body.details)) && Chronological(db.appointments, DetailIds(reply.body.details))
    ensures reply.status == 200 ==>
              (forall d :: d in reply.body.details ==> d.id in db.appointments && OwnedBy(db.appointments[d.id], userId))
              && (forall k :: k in db.appointments && OwnedBy(db.appointments[k], userId)
                    ==> exists d :: d in reply.body.details && d.id == k)
  {
    if !MayReadUser(caller, userId) {
      return Refuse(403, Forbidden);
    }
    var order := ByDateTime(db.appointments, Owned(db.appointments, userId), db.nextAppointmentId);
    var details := DetailRows(db.users, db.doctors, db.specialties, db.appointments, order);
    reply := Reply(200, Details(details));
    assert DetailIds(details) == order;
    forall d | d in details
      ensures d.id in db.appointments && OwnedBy(db.appointments[d.id], userId)
    {
      var i :| 0 <= i < |details| && details[i] == d;
      assert order[i] in order;
    }
    forall k | k in db.appointments && OwnedBy(db.appointments[k], userId)
      ensures exists d :: d in details && d.id == k
    {
      var i :| 0 <= i < |order| && order[i] == k;
      assert details[i] in details;
    }
  }

  // ---------------------------------------------------------------------------------------
  // GET /users/:userId/doctors

  /** `self.findIndex(m => m.id === id)`: the first position holding that id, or -1. */
  function FindIndex(s: seq<Ref>, id: int): (j: int)
    ensures -1 <= j < |s|
    ensures j >= 0 ==> s[j].id == id && forall k :: 0 <= k < j ==> s[k].id != id
    ensures j < 0 ==> forall k :: 0 <= k < |s| ==> s[k].id != id
  {
    if s == [] then -1
    else if s[0].id == id then 0
    else
      var j := FindIndex(s[1..], id);
      if j < 0 then -1 else j + 1
  }

  /** `.filter((m, index, self) => index === self.findIndex(...))`, from position `i` on. */
  function KeepFirstFrom(s: seq<Ref>, i: nat): (r: seq<Ref>)
    requires i <= |s|
    ensures forall x :: x in r ==> i <= FindIndex(s, x.id) && s[FindIndex(s, x.id)] == x
    ensures forall k :: i <= k < |s| && FindIndex(s, s[k].id) == k ==> s[k] in r
    decreases |s| - i
  {
    if i == |s| then []
    else
      var rest := KeepFirstFrom(s, i + 1);
      if FindIndex(s, s[i].id) == i then
        assert forall x :: x in [s[i]] + rest <==> x == s[i] || x in rest;
        [s[i]] + rest
      else rest
  }

  /** For each entry of `r`, the position in `s` where its id first appears. */
  function FirstPositions(s: seq<Ref>, r: seq<Ref>): (p: seq<int>)
    ensures |p| == |r| && forall a :: 0 <= a < |p| ==> p[a] == FindIndex(s, r[a].id)
  {
    seq(|r|, a requires 0 <= a < |r| => FindIndex(s, r[a].id))
  }

  /** The entries of `r` come in the order in which their ids first appear in `s`. */
  predicate InFirstAppearanceOrder(s: seq<Ref>, r: seq<Ref>) {
    Increasing(FirstPositions(s, r))
  }

  lemma FirstPositionsCons(s: seq<Ref>, x: Ref, rest: seq<Ref>)
    ensures FirstPositions(s, [x] + rest) == [FindIndex(s, x.id)] + FirstPositions(s, rest)
  {
    var q := FirstPositions(s, [x] + rest);
    var p := FirstPositions(s, rest);
    assert |q| == 1 + |p|;
    forall k | 1 <= k < |q| ensures q[k] == p[k - 1] {
      assert ([x] + rest)[k] == rest[k - 1];
    }
  }

  lemma IncreasingCons(i: int, p: seq<int>)
    requires forall k :: 0 <= k < |p| ==> i < p[k]
    requires Increasing(p)
    ensures Increasing([i] + p)
  {
    var q := [i] + p;
    forall a, b | 0 <= a < b < |q| ensures q[a] < q[b] {
      assert q[b] == p[b - 1];
      if a > 0 {
        assert q[a] == p[a - 1];
      }
    }
  }

  lemma PrependFirst(s: seq<Ref>, i: nat, rest: seq<Ref>)
    requires i < |s| && FindIndex(s, s[i].id) == i
    requires forall x :: x in rest ==> i + 1 <= FindIndex(s, x.id)
    requires InFirstAppearanceOrder(s, rest)
    ensures InFirstAppearanceOrder(s, [s[i]] + rest)
  {
    var p := FirstPositions(s, rest);
    forall k | 0 <= k < |p| ensures i < p[k] {
      assert rest[k] in rest;
    }
    FirstPositionsCons(s, s[i], rest);
    IncreasingCons(i, p);
  }

  /** The kept entries come in the order in which their ids first appear. */
  lemma {:induction false} KeepFirstFromOrdered(s: seq<Ref>, i: nat)
    requires i <= |s|
    ensures InFirstAppearanceOrder(s, KeepFirstFrom(s, i))
    decreases |s| - i
  {
    if i < |s| {
      KeepFirstFromOrdered(s, i + 1);
      var rest := KeepFirstFrom(s, i + 1);
      if FindIndex(s, s[i].id) == i {
        PrependFirst(s, i, rest);
        assert KeepFirstFrom(s, i) == [s[i]] + rest;
      }
    }
  }

  function KeepFirst(s: seq<Ref>): (r: seq<Ref>) {
    KeepFirstFrom(s, 0)
  }

  /**
   * The de-duplication keeps one entry per doctor id, the first, in order of first
   * appearance, and drops no doctor.
   */
  lemma KeepFirstDeduplicates(s: seq<Ref>)
    ensures forall a, b :: 0 <= a < b < |KeepFirst(s)| ==> FindIndex(s, KeepFirst(s)[a].id) < FindIndex(s, KeepFirst(s)[b].id)
    ensures forall a, b :: 0 <= a < b < |KeepFirst(s)| ==> KeepFirst(s)[a].id != KeepFirst(s)[b].id
    ensures forall x :: x in KeepFirst(s) ==> x in s
    ensures forall x :: x in s ==> exists y :: y in KeepFirst(s) && y.id == x.id
  {
    var r := KeepFirst(s);
    KeepFirstFromOrdered(s, 0);
    assert r == KeepFirstFrom(s, 0);
    forall x | x in r ensures x in s {
      var a :| 0 <= a < |r| && r[a] == x;
      assert s[FindIndex(s, x.id)] == x;
    }
    forall x | x in s ensures exists y :: y in r && y.id == x.id {
      var f := FindIndex(s, x.id);
      assert s[f] in r;
    }
  }

  /** The doctor ids appearing in `s`. */
  function IdSet(s: seq<Ref>): (r: set<int>) {
    set k | 0 <= k < |s| :: s[k].id
  }

  /**
   * A reference de-duplication: walk the list once, keeping an entry when its id has not been
   * seen yet.
   */
  function Distinct(s: seq<Ref>, seen: set<int>): (r: seq<Ref>) {
    if s == [] then []
    else if s[0].id in seen then Distinct(s[1..], seen)
    else [s[0]] + Distinct(s[1..], seen + {s[0].id})
  }

  lemma IdSetExtend(s: seq<Ref>, i: nat)
    requires i < |s|
    ensures IdSet(s[..i + 1]) == IdSet(s[..i]) + {s[i].id}
  {
    forall x ensures x in IdSet(s[..i + 1]) <==> x in IdSet(s[..i]) + {s[i].id} {
      if x in IdSet(s[..i + 1]) {
        var k :| 0 <= k < i + 1 && s[..i + 1][k].id == x;
        if k < i {
          assert s[..i][k].id == x;
        }
      }
      if x in IdSet(s[..i]) {
        var k :| 0 <= k < i && s[..i][k].id == x;
        assert s[..i + 1][k].id == x;
      }
      if x == s[i].id {
        assert s[..i + 1][i].id == x;
      }
    }
  }

  /** Position `i` is where its id first appears exactly when no earlier entry has that id. */
  lemma FirstAppearance(s: seq<Ref>, i: nat)
    requires i < |s|
    ensures FindIndex(s, s[i].id) == i <==> s[i].id !in IdSet(s[..i])
  {
    if s[i].id in IdSet(s[..i]) {
      var k :| 0 <= k < i && s[..i][k].id == s[i].id;
      assert s[k].id == s[i].id;
    } else {
      forall k | 0 <= k < i ensures s[k].id != s[i].id {
        assert s[..i][k].id == s[k].id;
      }
    }
  }

  lemma KeepFirstStep(s: seq<Ref>, i: nat)
    requires i < |s|
    ensures KeepFirstFrom(s, i) ==
            if FindIndex(s, s[i].id) == i then [s[i]] + KeepFirstFrom(s, i + 1) else KeepFirstFrom(s, i + 1)
  {
  }

  lemma DistinctStep(s: seq<Ref>, i: nat, seen: set<int>)
    requires i < |s|
    ensures Distinct(s[i..], seen) ==
            if s[i].id in seen then Distinct(s[i + 1..], seen) else [s[i]] + Distinct(s[i + 1..], seen + {s[i].id})
  {
    assert s[i..][0] == s[i] && s[i..][1..] == s[i + 1..];
  }

  /** One step of the reference walk, with the seen set taken as the ids before position `i`. */
  lemma DistinctStepAt(s: seq<Ref>, i: nat)
    requires i < |s|
    ensures Distinct(s[i..], IdSet(s[..i])) ==
            if FindIndex(s, s[i].id) == i then [s[i]] + Distinct(s[i + 1..], IdSet(s[..i + 1]))
            else Distinct(s[i + 1..], IdSet(s[..i + 1]))
  {
    var seen := IdSet(s[..i]);
    IdSetExtend(s, i);
    FirstAppearance(s, i);
    DistinctStep(s, i, seen);
    if s[i].id in seen {
      assert seen + {s[i].id} == seen;
    }
  }

  lemma {:induction false} KeepFirstFromIsDistinct(s: seq<Ref>, i: nat)
    requires i <= |s|
    ensures KeepFirstFrom(s, i) == Distinct(s[i..], IdSet(s[..i]))
    decreases |s| - i
  {
    if i < |s| {
      KeepFirstFromIsDistinct(s, i + 1);
      KeepFirstStep(s, i);
      DistinctStepAt(s, i);
    } else {
      assert s[i..] == [];
    }
  }

  /** The handler's filter agrees with the reference de-duplication. */
  lemma KeepFirstIsDistinct(s: seq<Ref>)
    ensures KeepFirst(s) == Distinct(s, {})
  {
    KeepFirstFromIsDistinct(s, 0);
    assert s[0..] == s;
    assert IdSet(s[..0]) == {};
  }

  /** The user's appointments joined with an existing doctor, by ascending appointment id. */
  function DoctorRefs(doctors: map<int, Doctor>, t: map<int, Appointment>, order: seq<int>): (r: seq<Ref>)
    requires InTable(t, order)
    requires forall i :: 0 <= i < |order| ==> t[order[i]].doctorId in doctors
    ensures |r| == |order|
    ensures forall i :: 0 <= i < |r| ==> r[i] == Ref(t[order[i]].doctorId, doctors[t[order[i]].doctorId].name)
  {
    seq(|order|, i requires 0 <= i < |order| => Ref(t[order[i]].doctorId, doctors[t[order[i]].doctorId].name))
  }

  /** The reply body of GET /users/:userId/doctors, with `hi` bounding the appointment ids. */
  function UserDoctorRefs(doctors: map<int, Doctor>, t: map<int, Appointment>, userId: string, hi: int): (r: seq<Ref>) {
    var order := IdsIn(OwnedWithDoctor(t, doctors, userId), 1, hi);
    assert InTable(t, order);
    KeepFirst(DoctorRefs(doctors, t, order))
  }

  /** Every entry of the joined list names an existing doctor by its name. */
  lemma DoctorRefsAreNamed(doctors: map<int, Doctor>, t: map<int, Appointment>, order: seq<int>)
    requires InTable(t, order)
    requires forall i :: 0 <= i < |order| ==> t[order[i]].doctorId in doctors
    ensures forall r :: r in DoctorRefs(doctors, t, order) ==> r.id in doctors && r.name == doctors[r.id].name
  {
    var all := DoctorRefs(doctors, t, order);
    forall r | r in all ensures r.id in doctors && r.name == doctors[r.id].name {
      var i :| 0 <= i < |all| && all[i] == r;
    }
  }

  /** An appointment listed in `order` puts its doctor's entry into the de-duplicated list. */
  lemma KeptDoctor(doctors: map<int, Doctor>, t: map<int, Appointment>, order: seq<int>, i: int)
    requires InTable(t, order)
    requires forall j :: 0 <= j < |order| ==> t[order[j]].doctorId in doctors
    requires 0 <= i < |order|
    ensures Ref(t[order[i]].doctorId, doctors[t[order[i]].doctorId].name) in KeepFirst(DoctorRefs(doctors, t, order))
  {
    var all := DoctorRefs(doctors, t, order);
    KeepFirstDeduplicates(all);
    DoctorRefsAreNamed(doctors, t, order);
    var x := all[i];
    assert x in all;
    var y :| y in KeepFirst(all) && y.id == x.id;
    assert y in all;
  }

  /**
   * The doctor listing names each doctor once, with the name in the doctors table, names
   * every doctor the user has an appointment with, and names no other doctor.
   */
  lemma UserDoctorRefsAreTheUsersDoctors(doctors: map<int, Doctor>, t: map<int, Appointment>, userId: string, hi: int)
    requires KeysBelow(t, hi)
    ensures var refs := UserDoctorRefs(doctors, t, userId, hi);
            && (forall a, b :: 0 <= a < b < |refs| ==> refs[a].id != refs[b].id)
            && (forall r :: r in refs ==> r.id in doctors && r.name == doctors[r.id].name)
            && (forall k :: k in t && OwnedBy(t[k], userId) && t[k].doctorId in doctors
                  ==> Ref(t[k].doctorId, doctors[t[k].doctorId].name) in refs)
            && (forall r :: r in refs ==> exists k :: k in t && OwnedBy(t[k], userId) && t[k].doctorId == r.id)
  {
    var order := IdsIn(OwnedWithDoctor(t, doctors, userId), 1, hi);
    assert InTable(t, order);
    var all := DoctorRefs(doctors, t, order);
    KeepFirstDeduplicates(all);
    DoctorRefsAreNamed(doctors, t, order);
    forall k | k in t && OwnedBy(t[k], userId) && t[k].doctorId in doctors
      ensures Ref(t[k].doctorId, doctors[t[k].doctorId].name) in KeepFirst(all)
    {
      var i :| 0 <= i < |order| && order[i] == k;
      KeptDoctor(doctors, t, order, i);
    }
  }

  /** GET /users/:userId/doctors: the distinct doctors the user has appointments with. */
  method UserDoctors(db: Db, caller: Caller, userId: string) returns (reply: Reply)
    requires db.Valid()
    ensures !MayReadUser(caller, userId) ==> reply == Refuse(403, Forbidden)
    ensures MayReadUser(caller, userId) ==>
              reply == Reply(200, Refs(UserDoctorRefs(db.doctors, db.appointments, userId, db.nextAppointmentId)))
  {
    if !MayReadUser(caller, userId) {
      return Refuse(403, Forbidden);
    }
    reply := Reply(200, Refs(UserDoctorRefs(db.doctors, db.appointments, userId, db.nextAppointmentId)));
  }

  // ---------------------------------------------------------------------------------------
  // The router

  datatype Request =
    | ListUsersRequest
    | MeRequest
    | CreateUserRequest(newUser: NewUser)
    | GetUserRequest(id: int)
    | UpdateUserRequest(id: int, changes: UserChanges)
    | DeleteUserRequest(id: int)
    | SpecialtyAppointmentsRequest(userId: string, specialtyId: string)
    | UserDoctorsRequest(userId: string)
    | UserAppointmentsRequest(userId: string)

  predicate ReadOnly(request: Request) {
    !(request.CreateUserRequest? || request.UpdateUserRequest? || request.DeleteUserRequest?)
  }

  /**
   * A request to the users router: the gate first, then the route. Only non-admins are ever
   * refused with 403, and they are refused before any route runs.
   */
  method Route(db: Db, caller: Caller, request: Request) returns (reply: Reply)
    requires db.Valid()
    modifies db`users, db`nextUserId
    ensures db.Valid()
    ensures !PassesGate(caller) ==> reply == Refuse(403, AdminOnly)
    ensures reply.status == 403 <==> !PassesGate(caller)
    ensures !PassesGate(caller) || ReadOnly(request) ==> db.users == old(db.users) && db.nextUserId == old(db.nextUserId)
  {
    if !PassesGate(caller) {
      return Refuse(403, AdminOnly);
    }
    match request
    case ListUsersRequest => reply := ListUsers(db);
    case MeRequest => reply := Me(caller);
    case CreateUserRequest(body) => reply := CreateUser(db, body);
    case GetUserRequest(id) => reply := GetUser(db, id);
    case UpdateUserRequest(id, body) => reply := UpdateUser(db, id, body);
    case DeleteUserRequest(id) => reply := DeleteUser(db, id);
    case SpecialtyAppointmentsRequest(userId, specialtyId) => reply := SpecialtyAppointments(db, caller, userId, specialtyId);
    case UserDoctorsRequest(userId) => reply := UserDoctors(db, caller, userId);
    case UserAppointmentsRequest(userId) => reply := UserAppointments(db, caller, userId);
  }

  /**
   * The router with `/me` exempt from the gate, so that every signed-in caller can read their
   * own identity; every other route keeps the gate.
   */
  method RouteWithOpenMe(db: Db, caller: Caller, request: Request) returns (reply: Reply)
    requires db.Valid()
    modifies db`users, db`nextUserId
    ensures db.Valid()
    ensures request.MeRequest? ==> reply == Reply(200, OneIdentity(Identity(caller.id, caller.name, caller.email, caller.role)))
    ensures !request.MeRequest? && !PassesGate(caller) ==> reply == Refuse(403, AdminOnly)
    ensures reply.status == 403 <==> !request.MeRequest? && !PassesGate(caller)
    ensures !PassesGate(caller) || ReadOnly(request) ==> db.users == old(db.users) && db.nextUserId == old(db.nextUserId)
  {
    if request.MeRequest? {
      reply := Me(caller);
      return;
    }
    reply := Route(db, caller, request);
  }
}
