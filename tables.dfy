/** The relational schema that `init_db` creates (app.py:32-172), restricted to the ten
    tables the dashboard counters, the query router and the status-changing forms use.

    Identity: every table is `INTEGER PRIMARY KEY AUTOINCREMENT` and no row is ever
    deleted, so the k-th row of a table (counting from 0) has identity k + 1.  The model
    therefore keeps no id column; `Row(t, id)` is the row an `... WHERE id = ?` selects. */
module Tables {

  type Id = nat

  /** A foreign key chosen in a form: `None` is SQL NULL (the form stores NULL when the
      referenced table is empty, because the selectbox then yields no choice). */
  type Ref = Option<Id>

  datatype Option<T> = None | Some(value: T)

  /** Dates and timestamps are supplied by the caller (`datetime.now()` is I/O). */
  type Date = string

  datatype Department = Department(name: string, location: string)

  datatype Doctor = Doctor(name: string, specialization: string, dept: Ref, phone: string,
                           email: string, experience: nat, fee: nat)

  datatype Patient = Patient(name: string, age: nat, gender: string, phone: string,
                             email: string, address: string, bloodGroup: string,
                             registered: Date)

  datatype AppointmentStatus = Scheduled | Completed | Cancelled

  datatype Appointment = Appointment(patient: Ref, doctor: Ref, date: Date, time: string,
                                     status: AppointmentStatus, reason: string)

  datatype PaymentStatus = Paid | Pending

  datatype Bill = Bill(patient: Ref, appointment: Ref, amount: nat,
                       status: PaymentStatus, paidOn: Option<Date>)

  datatype StaffMember = StaffMember(name: string, role: string, dept: Ref, phone: string,
                                     email: string, salary: nat, joined: Date)

  /** `quantity` is an `int`: removing stock has no lower bound. */
  datatype Item = Item(name: string, category: string, quantity: int, unitPrice: nat,
                       supplier: string, lastUpdated: Date)

  datatype BedStatus = BedAvailable | Occupied

  datatype Bed = Bed(number: string, ward: string, status: BedStatus, patient: Ref,
                     admitted: Option<Date>)

  datatype TestStatus = TestScheduled | InProgress | TestCompleted

  datatype LabTest = LabTest(patient: Ref, name: string, date: Date, result: Option<string>,
                             status: TestStatus, cost: nat)

  datatype AmbulanceStatus = AmbulanceAvailable | OnDuty

  datatype Ambulance = Ambulance(vehicle: string, driver: string, status: AmbulanceStatus,
                                 patient: Ref, pickup: Option<string>,
                                 destination: Option<string>, requested: Option<Date>)

  /** A snapshot of the store: what every read-only query sees. */
  datatype Db = Db(departments: seq<Department>, doctors: seq<Doctor>,
                   patients: seq<Patient>, appointments: seq<Appointment>,
                   bills: seq<Bill>, staff: seq<StaffMember>, inventory: seq<Item>,
                   beds: seq<Bed>, labTests: seq<LabTest>, ambulances: seq<Ambulance>)

  /** The store as `CREATE TABLE IF NOT EXISTS` leaves it on a fresh database. */
  const EmptyDb := Db([], [], [], [], [], [], [], [], [], [])

  /** `id` names an existing row of a table with `n` rows. */
  predicate Exists(id: Id, n: nat) {
    1 <= id <= n
  }

  /** A foreign key is NULL or names an existing row. */
  predicate Resolves(r: Ref, n: nat) {
    r.None? || Exists(r.value, n)
  }

  /** The row an equi-join on `r` finds, if any. */
  function Lookup<T>(t: seq<T>, r: Ref): (row: Option<T>)
    ensures row.Some? <==> r.Some? && Exists(r.value, |t|)
    ensures row.Some? ==> row.value == t[r.value - 1]
  {
    if r.Some? && Exists(r.value, |t|) then Some(t[r.value - 1]) else None
  }

  // Status invariants of the rows the forms change.

  /** A bill is Paid exactly when it carries a payment date. */
  predicate BillOk(b: Bill) {
    (b.status == Paid) <==> b.paidOn.Some?
  }

  /** A bed is Occupied exactly when it carries an admission date; an Available bed
      holds no patient. */
  predicate BedOk(b: Bed) {
    && ((b.status == Occupied) <==> b.admitted.Some?)
    && (b.status == BedAvailable ==> b.patient.None?)
  }

  /** An ambulance is Available exactly when pickup, destination and request time are
      all NULL; an Available ambulance holds no patient. */
  predicate AmbulanceOk(a: Ambulance) {
    && ((a.status == AmbulanceAvailable) <==>
        (a.pickup.None? && a.destination.None? && a.requested.None?))
    && (a.status == AmbulanceAvailable ==> a.patient.None?)
  }

  predicate BillsOk(s: seq<Bill>) { forall i :: 0 <= i < |s| ==> BillOk(s[i]) }
  predicate BedsOk(s: seq<Bed>) { forall i :: 0 <= i < |s| ==> BedOk(s[i]) }
  predicate AmbulancesOk(s: seq<Ambulance>) { forall i :: 0 <= i < |s| ==> AmbulanceOk(s[i]) }

  /** Every foreign key in the store is NULL or names an existing row. */
  predicate RefsResolve(db: Db) {
    && (forall i :: 0 <= i < |db.doctors| ==> Resolves(db.doctors[i].dept, |db.departments|))
    && (forall i :: 0 <= i < |db.appointments| ==>
          Resolves(db.appointments[i].patient, |db.patients|) &&
          Resolves(db.appointments[i].doctor, |db.doctors|))
    && (forall i :: 0 <= i < |db.bills| ==>
          Resolves(db.bills[i].patient, |db.patients|) &&
          Resolves(db.bills[i].appointment, |db.appointments|))
    && (forall i :: 0 <= i < |db.staff| ==> Resolves(db.staff[i].dept, |db.departments|))
    && (forall i :: 0 <= i < |db.beds| ==> Resolves(db.beds[i].patient, |db.patients|))
    && (forall i :: 0 <= i < |db.labTests| ==> Resolves(db.labTests[i].patient, |db.patients|))
    && (forall i :: 0 <= i < |db.ambulances| ==>
          Resolves(db.ambulances[i].patient, |db.patients|))
  }

  predicate WellFormed(db: Db) {
    && BillsOk(db.bills)
    && BedsOk(db.beds)
    && AmbulancesOk(db.ambulances)
    && RefsResolve(db)
  }
}
