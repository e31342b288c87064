/** The demonstration data `init_db` inserts (app.py:174-272), and the guard that
    inserts it only when `departments` is empty (app.py:174-175).  The guard looks at one
    table only, so on a store whose `departments` is empty but whose other tables are not,
    the seed rows are appended after the existing ones and their foreign keys (written as
    the literal ids 1..5) name the existing rows rather than the seeded ones. */
module Seed {
  import opened Tables
  import opened Tally
  import Billing
  import Beds
  import LabTests
  import Ambulances
  import Stats

  const DepartmentRows := [
    Department("Cardiology", "Building A"), Department("Neurology", "Building B"),
    Department("Orthopedics", "Building C"), Department("Pediatrics", "Building D"),
    Department("Emergency", "Building E")]

  const DoctorRows := [
    Doctor("Dr. Ahmed Khan", "Cardiologist", Some(1), "0300-1234567", "ahmed@hospital.com", 15, 2000),
    Doctor("Dr. Sara Ali", "Neurologist", Some(2), "0301-2345678", "sara@hospital.com", 10, 2500),
    Doctor("Dr. Hassan Raza", "Orthopedic Surgeon", Some(3), "0302-3456789", "hassan@hospital.com", 12, 1800),
    Doctor("Dr. Fatima Noor", "Pediatrician", Some(4), "0303-4567890", "fatima@hospital.com", 8, 1500),
    Doctor("Dr. Usman Malik", "Emergency Physician", Some(5), "0304-5678901", "usman@hospital.com", 7, 1200)]

  const PatientRows := [
    Patient("Ali Hassan", 35, "Male", "0311-1111111", "ali@email.com", "Karachi", "O+", "2024-01-15"),
    Patient("Ayesha Khan", 28, "Female", "0312-2222222", "ayesha@email.com", "Lahore", "A+", "2024-01-20"),
    Patient("Bilal Ahmed", 42, "Male", "0313-3333333", "bilal@email.com", "Islamabad", "B+", "2024-02-10"),
    Patient("Zainab Ali", 55, "Female", "0314-4444444", "zainab@email.com", "Karachi", "AB+", "2024-02-15"),
    Patient("Hamza Malik", 30, "Male", "0315-5555555", "hamza@email.com", "Lahore", "O-", "2024-03-01")]

  const AppointmentRows := [
    Appointment(Some(1), Some(1), "2024-03-15", "10:00 AM", Completed, "Chest pain"),
    Appointment(Some(2), Some(2), "2024-03-16", "11:00 AM", Completed, "Headache"),
    Appointment(Some(3), Some(3), "2024-03-17", "02:00 PM", Scheduled, "Knee pain"),
    Appointment(Some(4), Some(4), "2024-03-18", "09:00 AM", Scheduled, "Child checkup"),
    Appointment(Some(5), Some(5), "2024-03-19", "03:00 PM", Cancelled, "Emergency")]

  const BillRows := [
    Bill(Some(1), Some(1), 2000, Paid, Some("2024-03-15")),
    Bill(Some(2), Some(2), 2500, Paid, Some("2024-03-16")),
    Bill(Some(3), Some(3), 1800, Pending, None)]

  const StaffRows := [
    StaffMember("Nurse Sarah", "Nurse", Some(1), "0320-1111111", "sarah.nurse@hospital.com", 50000, "2023-01-10"),
    StaffMember("Receptionist Ali", "Receptionist", Some(5), "0321-2222222", "ali.reception@hospital.com", 35000, "2023-05-15"),
    StaffMember("Lab Tech Hassan", "Lab Technician", Some(2), "0322-3333333", "hassan.lab@hospital.com", 45000, "2023-03-20")]

  const InventoryRows := [
    Item("Paracetamol", "Medicine", 500, 5, "PharmaCorp", "2024-03-01"),
    Item("Surgical Gloves", "Equipment", 200, 50, "MedSupply", "2024-03-05"),
    Item("Syringes", "Equipment", 1000, 10, "MedSupply", "2024-03-10"),
    Item("Bandages", "Supplies", 300, 20, "HealthCare Ltd", "2024-03-12")]

  const BedRows := [
    Bed("B-101", "General", Occupied, Some(1), Some("2024-03-15")),
    Bed("B-102", "General", BedAvailable, None, None),
    Bed("B-201", "ICU", Occupied, Some(2), Some("2024-03-16")),
    Bed("B-202", "ICU", BedAvailable, None, None),
    Bed("B-301", "Private", BedAvailable, None, None)]

  const LabTestRows := [
    LabTest(Some(1), "Blood Test", "2024-03-15", Some("Normal"), TestCompleted, 1500),
    LabTest(Some(2), "MRI Scan", "2024-03-16", Some("Pending"), InProgress, 8000),
    LabTest(Some(3), "X-Ray", "2024-03-17", None, TestScheduled, 2000)]

  const AmbulanceRows := [
    Ambulance("AMB-001", "Rashid Khan", AmbulanceAvailable, None, None, None, None),
    Ambulance("AMB-002", "Imran Ali", OnDuty, Some(5), Some("Gulshan"), Some("Hospital"),
              Some("2024-03-19 15:30:00")),
    Ambulance("AMB-003", "Salman Ahmed", AmbulanceAvailable, None, None, None, None)]

  /** The seed rows of every table, as one store. */
  const SeedRows := Db(DepartmentRows, DoctorRows, PatientRows, AppointmentRows, BillRows,
                       StaffRows, InventoryRows, BedRows, LabTestRows, AmbulanceRows)

  /** `db` with every table followed by the matching table of `extra`. */
  function Append(db: Db, extra: Db): Db {
    Db(db.departments + extra.departments, db.doctors + extra.doctors,
       db.patients + extra.patients, db.appointments + extra.appointments,
       db.bills + extra.bills, db.staff + extra.staff, db.inventory + extra.inventory,
       db.beds + extra.beds, db.labTests + extra.labTests, db.ambulances + extra.ambulances)
  }

  /** `if c.fetchone()[0] == 0: ... executemany(...)` for each table. */
  function Seeded(db: Db): Db {
    if |db.departments| == 0 then Append(db, SeedRows) else db
  }

  /** Seeding happens exactly when `departments` is empty; then every existing row stays
      where it was and each table gains its seed rows after them. */
  lemma SeedGuard(db: Db)
    ensures |db.departments| > 0 ==> Seeded(db) == db
    ensures |db.departments| == 0 ==>
      var r := Seeded(db);
      && r.departments == DepartmentRows
      && r.doctors[..|db.doctors|] == db.doctors && r.doctors[|db.doctors|..] == DoctorRows
      && r.patients[..|db.patients|] == db.patients && r.patients[|db.patients|..] == PatientRows
      && r.appointments[..|db.appointments|] == db.appointments
      && r.appointments[|db.appointments|..] == AppointmentRows
      && r.bills[..|db.bills|] == db.bills && r.bills[|db.bills|..] == BillRows
      && r.staff[..|db.staff|] == db.staff && r.staff[|db.staff|..] == StaffRows
      && r.inventory[..|db.inventory|] == db.inventory && r.inventory[|db.inventory|..] == InventoryRows
      && r.beds[..|db.beds|] == db.beds && r.beds[|db.beds|..] == BedRows
      && r.labTests[..|db.labTests|] == db.labTests && r.labTests[|db.labTests|..] == LabTestRows
      && r.ambulances[..|db.ambulances|] == db.ambulances
      && r.ambulances[|db.ambulances|..] == AmbulanceRows
      && |r.patients| == |db.patients| + 5 && |r.doctors| == |db.doctors| + 5
      && |r.appointments| == |db.appointments| + 5 && |r.bills| == |db.bills| + 3
      && |r.staff| == |db.staff| + 3 && |r.inventory| == |db.inventory| + 4
      && |r.beds| == |db.beds| + 5 && |r.labTests| == |db.labTests| + 3
      && |r.ambulances| == |db.ambulances| + 3
  {
  }

  /** Starting the application again never seeds twice: after one seeding `departments`
      has five rows. */
  lemma SeedIdempotent(db: Db)
    ensures Seeded(Seeded(db)) == Seeded(db)
  {
    if |db.departments| == 0 {
      assert |Seeded(db).departments| == 5;
    }
  }

  /** The seed rows satisfy the status invariants, and their foreign keys name ids 1..5. */
  lemma SeedRowsOk()
    ensures BillsOk(BillRows) && BedsOk(BedRows) && AmbulancesOk(AmbulanceRows)
    ensures forall i :: 0 <= i < |DoctorRows| ==> Resolves(DoctorRows[i].dept, 5)
    ensures forall i :: 0 <= i < |StaffRows| ==> Resolves(StaffRows[i].dept, 5)
    ensures forall i :: 0 <= i < |AppointmentRows| ==>
      Resolves(AppointmentRows[i].patient, 5) && Resolves(AppointmentRows[i].doctor, 5)
    ensures forall i :: 0 <= i < |BillRows| ==>
      Resolves(BillRows[i].patient, 5) && Resolves(BillRows[i].appointment, 3)
    ensures forall i :: 0 <= i < |BedRows| ==> Resolves(BedRows[i].patient, 5)
    ensures forall i :: 0 <= i < |LabTestRows| ==> Resolves(LabTestRows[i].patient, 5)
    ensures forall i :: 0 <= i < |AmbulanceRows| ==> Resolves(AmbulanceRows[i].patient, 5)
  {
  }

  /** Seeding a well-formed store leaves it well formed: every table has at least as many
      rows as the literal ids in the seed rows need. */
  lemma SeedKeepsWellFormed(db: Db)
    requires WellFormed(db)
    ensures WellFormed(Seeded(db))
  {
    if |db.departments| == 0 {
      SeedRowsOk();
      var r := Seeded(db);
      AppendKeepsResolving(db.doctors, DoctorRows, (d: Doctor) => d.dept, |r.departments|);
      AppendKeepsResolving(db.staff, StaffRows, (m: StaffMember) => m.dept, |r.departments|);
      AppendKeepsResolving(db.appointments, AppointmentRows, (a: Appointment) => a.patient,
                           |r.patients|);
      AppendKeepsResolving(db.appointments, AppointmentRows, (a: Appointment) => a.doctor,
                           |r.doctors|);
      AppendKeepsResolving(db.bills, BillRows, (b: Bill) => b.patient, |r.patients|);
      AppendKeepsResolving(db.bills, BillRows, (b: Bill) => b.appointment, |r.appointments|);
      AppendKeepsResolving(db.beds, BedRows, (b: Bed) => b.patient, |r.patients|);
      AppendKeepsResolving(db.labTests, LabTestRows, (t: LabTest) => t.patient, |r.patients|);
      AppendKeepsResolving(db.ambulances, AmbulanceRows, (a: Ambulance) => a.patient,
                           |r.patients|);
      assert BillsOk(r.bills) by {
        forall i | 0 <= i < |r.bills| ensures BillOk(r.bills[i]) {
          if i >= |db.bills| { assert r.bills[i] == BillRows[i - |db.bills|]; }
        }
      }
      assert BedsOk(r.beds) by {
        forall i | 0 <= i < |r.beds| ensures BedOk(r.beds[i]) {
          if i >= |db.beds| { assert r.beds[i] == BedRows[i - |db.beds|]; }
        }
      }
      assert AmbulancesOk(r.ambulances) by {
        forall i | 0 <= i < |r.ambulances| ensures AmbulanceOk(r.ambulances[i]) {
          if i >= |db.ambulances| { assert r.ambulances[i] == AmbulanceRows[i - |db.ambulances|]; }
        }
      }
    }
  }

  /** Appending rows whose key resolves keeps every key of the table resolving. */
  lemma AppendKeepsResolving<T>(s: seq<T>, t: seq<T>, key: T -> Ref, n: nat)
    requires forall i :: 0 <= i < |s| ==> Resolves(key(s[i]), n)
    requires forall i :: 0 <= i < |t| ==> Resolves(key(t[i]), n)
    ensures forall i :: 0 <= i < |s + t| ==> Resolves(key((s + t)[i]), n)
  {
    forall i | 0 <= i < |s + t| ensures Resolves(key((s + t)[i]), n) {
      if i < |s| { assert (s + t)[i] == s[i]; } else { assert (s + t)[i] == t[i - |s|]; }
    }
  }

  /** The dashboard of the seed rows alone. */
  lemma SeedDashboard()
    ensures Stats.GetStats(SeedRows)
         == Stats.Dashboard(patients := 5, doctors := 5, appointments := 5, pending := 2,
                            staff := 3, revenue := 4500, pendingBills := 1, availableBeds := 3,
                            occupiedBeds := 2, pendingTests := 2, ambulancesAvailable := 2)
  {
  }

  /** The first start: seeding the empty store gives exactly the seed rows. */
  lemma FirstStartSeedsEverything()
    ensures Seeded(EmptyDb) == SeedRows
    ensures Stats.GetStats(Seeded(EmptyDb)).revenue == 4500
  {
    SeedDashboard();
  }

  /** Seeding a store whose `departments` is empty adds the seed rows' counters to the
      existing ones. */
  lemma SeededCounts(db: Db)
    requires |db.departments| == 0
    ensures var before := Stats.GetStats(db);
            var after := Stats.GetStats(Seeded(db));
      && after.patients == before.patients + 5 && after.doctors == before.doctors + 5
      && after.appointments == before.appointments + 5 && after.pending == before.pending + 2
      && after.staff == before.staff + 3
      && after.availableBeds == before.availableBeds + 3
      && after.occupiedBeds == before.occupiedBeds + 2
      && after.pendingTests == before.pendingTests + 2
      && after.ambulancesAvailable == before.ambulancesAvailable + 2
      && after.pendingBills == before.pendingBills + 1
      && after.revenue == before.revenue + 4500
  {
    SeedDashboard();
    SeededRevenue(db);
    CountConcat(db.appointments, AppointmentRows, Stats.IsScheduled);
    CountConcat(db.beds, BedRows, Beds.IsAvailable);
    CountConcat(db.beds, BedRows, Beds.IsOccupied);
    CountConcat(db.labTests, LabTestRows, LabTests.NotCompleted);
    CountConcat(db.ambulances, AmbulanceRows, Ambulances.IsAvailable);
  }

  /** Seeding adds 4500 (the two Paid seed bills) to the revenue counter and one bill to
      the pending-bills counter. */
  lemma SeededRevenue(db: Db)
    requires |db.departments| == 0
    ensures Stats.GetStats(Seeded(db)).revenue == Stats.GetStats(db).revenue + 4500
    ensures Stats.GetStats(Seeded(db)).pendingBills == Stats.GetStats(db).pendingBills + 1
  {
    SeedDashboard();
    var r := Seeded(db);
    CountConcat(db.bills, BillRows, Billing.IsPaid);
    CountConcat(db.bills, BillRows, Billing.IsPending);
    SumConcat(db.bills, BillRows, Billing.IsPaid, Billing.Amount);
    Stats.RevenueIsPaidTotal(db);
    Stats.RevenueIsPaidTotal(r);
    Stats.RevenueIsPaidTotal(SeedRows);
  }
}
