# Clinic booking service: route handlers

This project models the backend route handlers of a small clinic booking service: the four
Express routers for appointments, users, doctors and specialties. It covers who may see or
change which rows, which fields a request may change, which request is refused with which
status, and how joined rows are shaped into replies.

The database is a `Store.Db` object holding four tables. Each table is a map from an integer id
to a row (`User`, `Specialty`, `Doctor`, `Appointment`), and each has its own AUTO_INCREMENT
counter. `Db.Valid()` says that every key lies below its counter. It also says that the unique
columns are unique: the users' `email` and `google_id`, and the specialties' `name`. Every
handler is a method that takes the database and the request fields and returns a `Reply`: a
status code and a body. Handlers that write change only the table they name in `modifies`, and
they keep `Valid()`.

The caller that the authentication middleware attaches (`req.user`) is a parameter of type
`Caller`. The tokens signed at login carry only `id`, `email` and `role`, so the caller's `name`
is optional. The users router, the appointment listing and appointment creation use `req.user`
directly, so their caller is a present `Caller`. `PUT` and `DELETE /appointments/:id` go through
`authorizeAppointmentAccess`, which tests `!req.user` first, so they take an `Option<Caller>`.
The doctors and specialties routers register their listing before the `auth`
middleware and every other route after it. Their `Route` methods take what that middleware did
with the request as an `Authentication`: it either answered the request itself, or passed it on
with the user it found, if any. The doctors gate and `adminOnly` also test `!req.user` first, so the
handlers behind them take an `Option<Caller>` as well.

Modules:

- `Js`: the JavaScript semantics the handlers rely on. `if (field)` truthiness on strings and
  numbers, `parseInt(s, 10)`, and `String(n)` as used when a URL is built from an id.
- `Records`: the rows, the caller, the JSON reply shapes, and the error reasons.
- `Queries`: the order rows come back in. Listings without `order` are given in ascending id
  order; the program leaves that order to the database (see "Left out").
  `order: [['date','ASC'],['time','ASC']]` sorts by date, then time, then id (an insertion sort
  with proofs that the result is sorted and a permutation, and that the order is unique).
- `Store`: the `Db` class, the uniqueness predicates, and the joins. A join to a row that is
  absent yields null, as the handlers' LEFT OUTER JOINs do.
- `Appointments`, `Users`, `Doctors`, `Specialties`: one module per router.

The Appointments module models the list filter as `BuildWhere`. A non-admin's filter is pinned
to their own id. The code tests that pin with truthiness (`whereClause.user_id && ...`). For a
caller whose id is 0, a foreign `patientId` is therefore not refused with 403, and it replaces
the pin. Without a `patientId`, that caller's filter is still `user_id = 0`. The model keeps
this, and the contracts about refusing a foreign `patientId` assume a caller id other than 0. Ids come from AUTO_INCREMENT and start at 1.

## Model

| member | source | states |
|---|---|---|
| Appointments.FormatAppointmentResponse | agendamento/routes/appointments.js:8-44 | null exactly for a missing appointment; otherwise `id` is copied and `descricao` is the stored `notes` |
| Appointments.ResponseReflectsTables | agendamento/routes/appointments.js:11-42 | for a stored appointment: `medico` is null exactly when its doctor row is absent and otherwise names that doctor; `specialty` is null exactly when the doctor or the doctor's specialty is absent; `paciente` is null exactly when the user is absent; `data` is `date + "T" + time + ".000Z"` when both columns are non-empty, else null |
| Appointments.TimestampRoundTrip | agendamento/routes/appointments.js:25 | splitting `data` at its first 'T' and dropping ".000Z" gives back the stored date and time, for any date without a 'T' |
| Appointments.TimestampIsDateTime | agendamento/routes/appointments.js:25 | when the columns are 'YYYY-MM-DD' and 'HH:MM:SS', `data` matches the `date-time` grammar of section 5.6 of RFC 3339 |
| Appointments.IndexOf | agendamento/routes/appointments.js:151 | the position of the first occurrence of a character, or -1 when it does not occur (the split at 'T') |
| Appointments.AuthorizeAppointmentAccess | agendamento/routes/appointments.js:46-57 | false for a missing appointment or a caller without a role; true for an admin; otherwise true exactly when the caller's id is the appointment's `user_id` |
| Appointments.BuildWhere | agendamento/routes/appointments.js:67-80 | for a non-admin, the filter pins `user_id` to the caller, and a `patientId` that parses to any other value (or to NaN) gives 403; for an admin, `user_id` is filtered only when `patientId` is given; `doctorId`, when given, filters `doctor_id` by its parsed value |
| Appointments.List | agendamento/routes/appointments.js:60-120 | 403 when the filter is refused; otherwise 200 with the selected appointments formatted and sorted by date and time; a non-admin sees only their own rows, and `doctorId` narrows the rows to that doctor |
| Appointments.Create | agendamento/routes/appointments.js:123-193 | missing `data`, `medicoId` or `especialidadeId` gives 400; an unknown doctor gives 400; a doctor whose specialty is absent or not strictly equal to `especialidadeId` gives 400; an invalid date, checked last, gives 400 with the invalid-date reason; nothing is stored on any 400; on 201 exactly one row is added, under the next id, with `user_id` the caller's id whatever `pacienteId` says, and the id counter advances by one |
| Appointments.Changed | agendamento/routes/appointments.js:211-256 | an accepted update keeps `user_id`; each field absent from the body keeps its old value; a given `data`, `descricao` or `medicoId` becomes the new `date` and `time`, `notes` or `doctor_id` |
| Appointments.Update | agendamento/routes/appointments.js:196-275 | 404 is checked before 403; for a present row the caller may edit, the 400 refusals come in the handler's order: an invalid date, then an unknown new doctor, then a new doctor outside `especialidadeId` (checked only when both are given), then an empty update; every other rejected body also gives 400; every refusal leaves the table unchanged; on 200 only that row changes, to `Changed` of the old row |
| Appointments.Delete | agendamento/routes/appointments.js:279-301 | 404 for an absent row and 403 when access is refused (always so without a user), both leaving the table unchanged; otherwise 204 and exactly that row is removed |
| Users.Route | agendamento/routes/users.js:7-12 | every request from a non-admin, `/me` included, gets 403 before any handler runs and changes nothing; an admin never gets 403 |
| Users.PerUserCheckNeverRefuses | agendamento/routes/users.js:178 | every caller who passes the router's gate also passes the per-user check, so that check never refuses anyone |
| Users.OwnUrlPassesCheck | agendamento/routes/users.js:223 | the URL a user's own page builds from their id passes the per-user check |
| Users.ListUsers | agendamento/routes/users.js:15-25 | 200 with exactly the users as `{id, name}`, by ascending id |
| Users.Me | agendamento/routes/users.js:27-38 | 200 with the caller's id, email and role, and the caller's name exactly when `req.user` carries one |
| Users.CreateUser | agendamento/routes/users.js:41-76 | a missing name, email or google_id gives 400; an email or google_id already in use gives 400; on either 400 nothing changes; otherwise 201, the user is stored with role `'user'` unless a role is given, the id counter advances by one, and the reply omits `google_id` |
| Users.GetUser | agendamento/routes/users.js:79-101 | 404 exactly when the user is absent; otherwise the user without `google_id` |
| Users.UpdateUser | agendamento/routes/users.js:104-143 | 404 for an absent user; otherwise only `name` and `role` can change, each only when given; `email` and `google_id` stay as they were, so the unique-constraint branch never fires |
| Users.DeleteUser | agendamento/routes/users.js:147-170 | 404 when no row is removed; otherwise 200 and exactly that user is gone |
| Users.SpecialtyAppointments | agendamento/routes/users.js:172-216 | 403 when the per-user check fails; otherwise every appointment of the user whose doctor exists, whatever `specialtyId` says, sorted by date and time |
| Users.WithDoctorRowsCover | agendamento/routes/users.js:182-203 | each row is an appointment of the user, joined with its own existing doctor, and every such appointment has a row |
| Users.UserAppointments | agendamento/routes/users.js:258-303 | 403 when the per-user check fails; otherwise exactly the user's appointments with patient and doctor joined, sorted by date and time |
| Users.FindIndex | agendamento/routes/users.js:245-247 | the first position holding the id, or -1 when no entry has it |
| Users.KeepFirstFrom | agendamento/routes/users.js:244-248 | every kept entry is the first occurrence of its id, and every first occurrence is kept |
| Users.KeepFirstFromOrdered | agendamento/routes/users.js:244-248 | the kept entries appear in the order in which their ids first occur |
| Users.KeepFirstDeduplicates | agendamento/routes/users.js:242-248 | the de-duplicated list has no repeated id, keeps first-appearance order, holds only entries of the input, and has an entry for every id of the input |
| Users.KeepFirstIsDistinct | agendamento/routes/users.js:242-248 | the `filter`/`findIndex` de-duplication equals a one-pass de-duplication that tracks the ids seen so far |
| Users.KeepFirstFromIsDistinct | agendamento/routes/users.js:244-248 | the same equality from any position on, given the ids already seen before it |
| Users.UserDoctorRefsAreTheUsersDoctors | agendamento/routes/users.js:228-248 | the doctors-of-user list names each doctor once, with its name from the doctors table; it names every doctor that appears in the user's appointments and no other doctor |
| Users.UserDoctors | agendamento/routes/users.js:218-256 | 403 when the per-user check fails; otherwise the de-duplicated doctors of the user's appointments, in appointment-id order |
| Users.RouteWithOpenMe | agendamento/routes/users.js:27-38 | corrected router: `/me` answers 200 with the caller's identity to every caller; every other route keeps the admin gate |
| Doctors.ListDoctors | agendamento/routes/doctors.js:8-25 | 200 with exactly the doctors, each with its specialty joined in, by ascending id |
| Doctors.Route | agendamento/routes/doctors.js:8-35 | the listing runs without `auth`, is never refused and changes nothing; every other route gets the middleware's own answer when it answers, and otherwise 403, changing nothing, exactly for a missing or non-admin user |
| Doctors.CreateDoctor | agendamento/routes/doctors.js:41-74 | a missing name or `specialty_id` gives 400; a non-existent specialty gives 400; nothing is created on 400; on 201 exactly one doctor is added under the next id and returned with its specialty |
| Doctors.GetDoctor | agendamento/routes/doctors.js:77-103 | 404 exactly when the doctor is absent; otherwise the doctor with its specialty |
| Doctors.UpdateDoctor | agendamento/routes/doctors.js:106-148 | 404 for an absent doctor; no field given gives 400; on a refusal the table is unchanged; otherwise only `name` and `specialty_id` change, each only when given |
| Doctors.DoctorAppointments | agendamento/routes/doctors.js:151-198 | 404 exactly when the doctor is absent; otherwise exactly the appointments with that `doctor_id`, sorted by date and time |
| Doctors.DeleteDoctor | agendamento/routes/doctors.js:201-224 | 404 when no row is removed; otherwise 204 and exactly that doctor is gone |
| Specialties.ListSpecialties | agendamento/routes/specialties.js:16-27 | 200 with exactly the specialties, by ascending id |
| Specialties.Route | agendamento/routes/specialties.js:7-30 | the listing runs without `auth`; every other route gets the middleware's own answer when it answers; past it, 403 exactly for a create, update or delete whose user `adminOnly` stops, and reading one specialty needs no admin role; reads and refused writes change nothing |
| Specialties.CreateSpecialty | agendamento/routes/specialties.js:34-51 | 403 for a non-admin; an empty name gives 400; a name already in use gives 400; otherwise 201 and exactly one specialty is added under the next id; refusals change nothing |
| Specialties.MembersOf | agendamento/routes/specialties.js:59-66 | exactly the doctors whose `specialty_id` is the specialty's id, by ascending id |
| Specialties.GetSpecialty | agendamento/routes/specialties.js:55-78 | 404 exactly when absent; otherwise the specialty with exactly its doctors |
| Specialties.UpdateSpecialty | agendamento/routes/specialties.js:81-107 | 403 for a non-admin; a missing name gives 400 before the lookup; 404 when absent; a name held by another specialty gives 400; otherwise only the name changes |
| Specialties.DeleteSpecialty | agendamento/routes/specialties.js:110-132 | 403 for a non-admin; 404 when absent; otherwise 204 and exactly that specialty is gone |
| Queries.ByDateTime | agendamento/routes/appointments.js:103 | the listed ids are exactly the selected ones, strictly ordered by date, then time, then id |
| Queries.SortOrders | agendamento/routes/appointments.js:103 | sorting a strictly ascending list of ids yields the date-and-time order |
| Queries.InsertKeepsOrder | agendamento/routes/appointments.js:103 | inserting a new id into a sorted list keeps it sorted |
| Queries.ChronologicalUnique | agendamento/routes/appointments.js:103 | two sorted listings of the same rows are equal, so the order is fully determined |
| Queries.StrLessTransitive | agendamento/routes/appointments.js:103 | the string order used for `date` and `time` is transitive |
| Queries.StrLessTotal | agendamento/routes/appointments.js:103 | of two different strings, one comes before the other |
| Queries.IdsIn | agendamento/routes/users.js:17-19 | the keys in a range, strictly ascending, each key exactly once |
| Js.ParseIntReadsDecimal | agendamento/routes/appointments.js:72-76 | `parseInt` reads back the decimal form of any integer and stops at the first non-digit after it |
| Js.ParseIntOfDecimalString | agendamento/routes/users.js:263 | `parseInt(String(n), 10)` is `n` for every integer |
| Js.ParseIntSkipsSpace | agendamento/routes/appointments.js:72 | leading white space does not change what `parseInt` reads |
| Js.NatDigitsValue | agendamento/routes/users.js:178 | the decimal digits of a natural number are non-empty and have that value |

## Left out

- Authentication is not part of this model: the `auth` middleware (middleware/auth is not part of this model), Passport, JWTs and sessions. In the doctors and specialties routers, what the middleware does is a parameter (`Authentication`). In the users router, and for the appointment listing and creation, `req.user` is a present `Caller`. A request that reaches them without a user is left out, because the code would throw: the users gate reads `req.user.role` (users.js:8), the listing reads `req.user.role` (appointments.js:67), and creation reads `req.user.id` (appointments.js:124). The 401 branch of `/me` (users.js:29-31) is left out for the same reason. Appointments.Update and Appointments.Delete take an optional caller, because `authorizeAppointmentAccess` tests `!req.user` first (appointments.js:48). Without a user they answer 404 for an absent row and 403 otherwise.
- Users.Me: whether `req.user.name` is present depends on the middleware. The tokens signed at login (index.js:114, routes/auth.js:24-28) do not carry it, so `name` is an `Option`.
- Responses with status 500 are left out: database failures, connection errors and the `catch` branches that only log.
- Each handler is one atomic step on the database. In the program, other requests can run between its `await`s: between `Doctor.findByPk` and `Appointment.create` (appointments.js:132, 165), between `Appointment.findByPk` and `appointment.update` or `appointment.destroy` (appointments.js:201, 256, 283, 293), and between `Specialty.findByPk` and `Doctor.create` (doctors.js:50, 55). A row that such a request removes in between is not modelled.
- Users.UpdateUser: Sequelize validation of the new `name` or `role` (for instance a JSON null) is not modelled. The user model file (models/user.js) is not part of this model.
- Foreign keys are not modelled. `sequelize.sync({ alter: true })` (index.js:138) creates them from the `belongsTo` associations (models/index.js:18-33). Their ON DELETE action is Sequelize's default for a NOT NULL column, which the source does not state. Under a refusing action, the program answers 500 and keeps the row. The model instead removes exactly that row, and rows that point at it then join to null. This affects:
  - Users.DeleteUser: deleting a user who has appointments;
  - Doctors.DeleteDoctor: deleting a doctor who has appointments (the error doctors.js:221 anticipates);
  - Specialties.DeleteSpecialty: deleting a specialty that has doctors.
  The `SequelizeForeignKeyConstraintError` branches (appointments.js:185-186, 270-271) are left out for the same reason.
- Doctors.UpdateDoctor: a `specialty_id` that names no specialty is stored as given, and the reply's specialty is then null; with a foreign key the database would refuse it with a 500.
- The uniqueness of `specialties.name` and of the users' `email` and `google_id` is taken from the handlers' unique-constraint branches. models/specialty.js does not declare it, and models/user.js is not part of this model.
- `new Date(data)`, `toISOString` and `toLocaleTimeString('en-GB')` depend on the host's time zone and locale. A date input is an abstract value: blank, invalid, or a pair of date and time columns.
- Appointments.BuildWhere: a `patientId` or `doctorId` that is NaN is modelled as matching no row. What Sequelize sends to MySQL for NaN is not modelled. `parseInt` without a radix also accepts a '0x' prefix (appointments.js:72, 75, 79); the model reads decimal only.
- Users.SpecialtyAppointments, Users.UserAppointments, Users.UserDoctors: the path segment `userId` goes into the SQL `where` as a string. The model compares rows with `parseInt(userId, 10)`. MySQL's own string-to-number conversion differs for segments such as "1e1" or "abc".
- Numeric path parameters (`/:id`) are modelled as integers. A segment that is not a decimal number is not modelled.
- JSON bodies with null values, or with numbers where strings are expected, are not modelled. Text fields are absent or a string; id fields are absent or a number, as the frontend sends them.
- Column widths (`STRING(100)`) and MySQL strict-mode truncation are not modelled.
- AUTO_INCREMENT counters advance only on a successful insert. InnoDB may also use up a value on a failed insert, for instance a refused duplicate. The program's next id can then be higher than the model's, and the `id` in a later 201 body differs. No status code or decision depends on the value of an id.
- Ties between appointments with the same date and time are broken by ascending id. SQL leaves their order open.
- Users.ListUsers, Doctors.ListDoctors, Specialties.ListSpecialties, Specialties.MembersOf and Users.UserDoctorRefs: a `findAll` without `order` returns rows in whatever order the database produces. The model fixes that order to ascending id. For Users.UserDoctors the order is also the order in which the de-duplication keeps first occurrences.
- Store.EmailTaken, Store.GoogleIdTaken, Store.NameTaken and Store.NameTakenByOther compare strings exactly. A MySQL UNIQUE index compares under the column's collation, and the default one ignores case and accents. So for Specialties.CreateSpecialty, Specialties.UpdateSpecialty and Users.CreateUser, a name or email that differs from a stored one only in case or accents gets 400 in the program and is accepted in the model.
- Doctors.GetDoctor, Doctors.UpdateDoctor: the reply's own `specialty_id` attribute is not in `DoctorView`. It differs from the joined specialty's id only when that specialty row is absent.
- Ids are unbounded integers. MySQL's INTEGER range and JavaScript's safe-integer range are not modelled.
- Strings are sequences of Unicode scalar values and are ordered character by character. MySQL collation order is not modelled; on the canonical `date` and `time` forms, which hold only ASCII digits and separators, the two orders agree.
- Console logging and the Swagger, static-file and session wiring of the application are left out.

## Findings

| source | as written | input that shows it | evidently intended | confidence | as-written member | corrected member |
|---|---|---|---|---|---|---|
| agendamento/routes/users.js:7-12 | the router-level admin gate runs before every route of the users router, including `GET /users/me` (users.js:27-38) | any signed-in caller whose role is `'user'` requesting `/users/me`: the reply is 403. The frontend (App.js:40-48) calls `/users/me` after every login and drops the token when the call fails | `/me` answers every signed-in caller with their own identity; only the management routes are for admins | medium, not executed | Users.Route | Users.RouteWithOpenMe |
