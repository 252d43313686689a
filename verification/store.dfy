/**
 * The database behind the four routers: one map per table from primary key to row, and the
 * AUTO_INCREMENT counter of each table. Foreign keys are plain integers; a join whose target
 * row is absent yields null, as a LEFT OUTER JOIN does.
 */
module Store {
  import opened Options
  import opened Records
  import opened Queries

  /** Every key of a table lies in `[1, next)`: AUTO_INCREMENT starts at 1 and never reuses. */
  predicate KeysBelow<R>(table: map<int, R>, next: int) {
    1 <= next && forall k :: k in table ==> 1 <= k < next
  }

  /** The UNIQUE constraints on `users.email` and `users.google_id`. */
  predicate UniqueUsers(users: map<int, User>) {
    && (forall i, j :: i in users && j in users && users[i].email == users[j].email ==> i == j)
    && (forall i, j :: i in users && j in users && users[i].googleId == users[j].googleId ==> i == j)
  }

  /** The UNIQUE constraint on `specialties.name`. */
  predicate UniqueNames(specialties: map<int, Specialty>) {
    forall i, j :: i in specialties && j in specialties && specialties[i].name == specialties[j].name ==> i == j
  }

  predicate EmailTaken(users: map<int, User>, email: string) {
    exists k :: k in users && users[k].email == email
  }

  predicate GoogleIdTaken(users: map<int, User>, googleId: string) {
    exists k :: k in users && users[k].googleId == googleId
  }

  predicate NameTaken(specialties: map<int, Specialty>, name: string) {
    exists k :: k in specialties && specialties[k].name == name
  }

  /** Some specialty other than `id` already has this name. */
  predicate NameTakenByOther(specialties: map<int, Specialty>, name: string, id: int) {
    exists k :: k in specialties && k != id && specialties[k].name == name
  }

  class Db {
    var users: map<int, User>
    var specialties: map<int, Specialty>
    var doctors: map<int, Doctor>
    var appointments: map<int, Appointment>
    var nextUserId: int
    var nextSpecialtyId: int
    var nextDoctorId: int
    var nextAppointmentId: int

    ghost predicate Valid()
      reads this
    {
      && KeysBelow(users, nextUserId)
      && KeysBelow(specialties, nextSpecialtyId)
      && KeysBelow(doctors, nextDoctorId)
      && KeysBelow(appointments, nextAppointmentId)
      && UniqueUsers(users)
      && UniqueNames(specialties)
    }

    constructor ()
      ensures Valid()
      ensures users == map[] && specialties == map[] && doctors == map[] && appointments == map[]
      ensures nextUserId == 1 && nextSpecialtyId == 1 && nextDoctorId == 1 && nextAppointmentId == 1
    {
      users, specialties, doctors, appointments := map[], map[], map[], map[];
      nextUserId, nextSpecialtyId, nextDoctorId, nextAppointmentId := 1, 1, 1, 1;
    }
  }

  /** `include: [{ model: Specialty, as: 'specialty', attributes: ['id', 'name'] }]`. */
  function SpecialtyRef(specialties: map<int, Specialty>, id: int): (r: Option<Ref>) {
    if id in specialties then Some(Ref(id, specialties[id].name)) else None
  }

  /** A doctor with its specialty joined in, or null when the doctor row is absent. */
  function DoctorOf(doctors: map<int, Doctor>, specialties: map<int, Specialty>, id: int): (r: Option<DoctorView>) {
    if id in doctors then Some(DoctorView(id, doctors[id].name, SpecialtyRef(specialties, doctors[id].specialtyId)))
    else None
  }

  function PatientOf(users: map<int, User>, id: int): (r: Option<PatientView>) {
    if id in users then Some(PatientView(id, users[id].name, users[id].email)) else None
  }

  function UserRef(users: map<int, User>, id: int): (r: Option<Ref>) {
    if id in users then Some(Ref(id, users[id].name)) else None
  }

  function ViewOfUser(id: int, u: User): (r: UserView) {
    UserView(id, u.name, u.email, u.role)
  }

  /** Appointments in the given order, each with its patient and its doctor (and specialty) joined in. */
  function DetailRows(users: map<int, User>, doctors: map<int, Doctor>, specialties: map<int, Specialty>,
                      t: map<int, Appointment>, order: seq<int>): (r: seq<AppointmentDetail>)
    requires InTable(t, order)
    ensures |r| == |order|
    ensures forall i :: 0 <= i < |r| ==> r[i].id == order[i]
  {
    seq(|order|, i requires 0 <= i < |order| =>
      var a := t[order[i]];
      AppointmentDetail(order[i], a.date, a.time, a.notes, PatientOf(users, a.userId), DoctorOf(doctors, specialties, a.doctorId)))
  }
}
