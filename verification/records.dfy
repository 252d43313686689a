/**
 * The rows of the four tables, the caller that the authentication middleware attaches to a
 * request, the shapes of the JSON the handlers send back, and the replies themselves.
 */
module Records {
  import opened Options

  /** A row of `users`. */
  datatype User = User(name: string, email: string, googleId: string, role: string)

  /** A row of `specialties`. */
  datatype Specialty = Specialty(name: string)

  /** A row of `doctors`; `specialtyId` points into `specialties`. */
  datatype Doctor = Doctor(name: string, specialtyId: int)

  /**
   * A row of `appointments`: a DATEONLY `date` ('YYYY-MM-DD'), a TIME `time` ('HH:MM:SS'),
   * nullable `notes`, and the patient (`userId`) and doctor (`doctorId`) it links.
   */
  datatype Appointment = Appointment(date: string, time: string, notes: Option<string>, userId: int, doctorId: int)

  /**
   * `req.user`, as the authentication middleware attaches it. The tokens signed at login carry
   * `id`, `email` and `role` only, so `name` is absent unless the middleware looks it up.
   * An empty role is a missing one.
   */
  datatype Caller = Caller(id: int, name: Option<string>, email: string, role: string)

  const ADMIN: string := "admin"
  const DEFAULT_ROLE: string := "user"

  predicate IsAdmin(c: Caller) {
    c.role == ADMIN
  }

  /** The `{ id, name }` projection used for users, specialties, doctors and patients. */
  datatype Ref = Ref(id: int, name: string)

  /** A doctor with its specialty joined in (`null` when that specialty row is absent). */
  datatype DoctorView = DoctorView(id: int, name: string, specialty: Option<Ref>)

  /** The `{ id, name, email }` projection of a patient. */
  datatype PatientView = PatientView(id: int, name: string, email: string)

  /** The `{ id, name, email, role }` object of GET /users/me; an absent `name` is left out of the JSON. */
  datatype Identity = Identity(id: int, name: Option<string>, email: string, role: string)

  /** A user as the handlers return it: never with its `google_id`. */
  datatype UserView = UserView(id: int, name: string, email: string, role: string)

  /** The JSON shape the appointments router sends for one appointment. */
  datatype AppointmentResponse = AppointmentResponse(
    id: int,
    data: Option<string>,
    descricao: Option<string>,
    specialty: Option<Ref>,
    medico: Option<Ref>,
    paciente: Option<Ref>)

  /** An appointment with its patient and doctor (and the doctor's specialty) joined in. */
  datatype AppointmentDetail = AppointmentDetail(
    id: int, date: string, time: string, notes: Option<string>,
    paciente: Option<PatientView>, medico: Option<DoctorView>)

  /** An appointment joined with a doctor that must exist (an inner join). */
  datatype AppointmentWithDoctor = AppointmentWithDoctor(
    id: int, date: string, time: string, notes: Option<string>, medico: DoctorView)

  /** Why a request was refused; each handler branch that answers an error has its own reason. */
  datatype Reason =
    | AdminOnly
    | Forbidden
    | NotFound
    | MissingFields
    | DoctorNotFound
    | DoctorNotInSpecialty
    | InvalidDate
    | InvalidDoctor
    | NoFieldsToUpdate
    | InvalidSpecialty
    | DuplicateUser
    | DuplicateSpecialty

  datatype Body =
    | NoContent
    | Failure(reason: Reason)
    | Removed
    | OneAppointment(appointment: AppointmentResponse)
    | Appointments(appointments: seq<AppointmentResponse>)
    | Details(details: seq<AppointmentDetail>)
    | WithDoctors(rows: seq<AppointmentWithDoctor>)
    | Refs(refs: seq<Ref>)
    | OneRef(ref: Ref)
    | OneUser(user: UserView)
    | OneIdentity(identity: Identity)
    | Doctors(doctors: seq<DoctorView>)
    | OneDoctor(doctor: DoctorView)
    | SpecialtyWithDoctors(specialty: Ref, members: seq<Ref>)

  /** An HTTP status code and the JSON (or empty) body sent with it. */
  datatype Reply = Reply(status: int, body: Body)

  function Refuse(status: int, reason: Reason): (r: Reply) {
    Reply(status, Failure(reason))
  }

  /**
   * What the `auth` middleware does with a request before the routes registered after it: it
   * either answers the request itself, or passes it on with the user it found, if any. The
   * middleware's own rules are not part of this model.
   */
  datatype Authentication = Answered(reply: Reply) | PassedOn(user: Option<Caller>)
}
