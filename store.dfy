/** The database as the form handlers of app.py change it: each table is a field, every
    `INSERT` appends a row whose identity is one past the old row count, and every
    `UPDATE ... WHERE id=?` rewrites that one row in place (or nothing, when no row has
    that id).  The required-field checks in front of the inserts are modelled with the
    message each form shows when it refuses.

    Foreign keys come from selectboxes that list the rows of the referenced table, so
    they are NULL or name an existing row; the methods require exactly that. */
module Hospital {
  import opened Tables
  import Billing
  import Beds
  import Ambulances
  import LabTests
  import Inventory
  import Seed
  import Stats

  /** What a form submission reports: the id of the row written, or the text of the
      `st.error` the form shows instead. */
  datatype Outcome = Saved(id: Id) | Rejected(message: string)

  class Store {
    var departments: seq<Department>
    var doctors: seq<Doctor>
    var patients: seq<Patient>
    var appointments: seq<Appointment>
    var bills: seq<Bill>
    var staff: seq<StaffMember>
    var inventory: seq<Item>
    var beds: seq<Bed>
    var labTests: seq<LabTest>
    var ambulances: seq<Ambulance>

    /** What every read-only query (the dashboard, the query router) sees. */
    function Snapshot(): Db
      reads this
    {
      Db(departments, doctors, patients, appointments, bills, staff, inventory, beds,
         labTests, ambulances)
    }

    ghost predicate Valid()
      reads this
    {
      WellFormed(Snapshot())
    }

    /** `CREATE TABLE IF NOT EXISTS ...` on a new database file (app.py:32-172). */
    constructor ()
      ensures Snapshot() == EmptyDb && Valid()
    {
      departments, doctors, patients, appointments, bills := [], [], [], [], [];
      staff, inventory, beds, labTests, ambulances := [], [], [], [], [];
    }

    /** The seed step of `init_db` (app.py:174-272): every table gets its demonstration
        rows, but only when `departments` is empty. */
    method InitDb()
      requires Valid()
      modifies this
      ensures Snapshot() == Seed.Seeded(old(Snapshot()))
      ensures Valid()
    {
      Seed.SeedKeepsWellFormed(Snapshot());
      if |departments| == 0 {
        var rows := Seed.SeedRows;
        departments := departments + rows.departments;
        doctors := doctors + rows.doctors;
        patients := patients + rows.patients;
        appointments := appointments + rows.appointments;
        bills := bills + rows.bills;
        staff := staff + rows.staff;
        inventory := inventory + rows.inventory;
        beds := beds + rows.beds;
        labTests := labTests + rows.labTests;
        ambulances := ambulances + rows.ambulances;
      }
    }

    /** The "Add Patient" form (app.py:523-535): refused without a name. */
    method AddPatient(name: string, age: nat, gender: string, phone: string, email: string,
                      address: string, bloodGroup: string, today: Date) returns (r: Outcome)
      requires Valid()
      modifies this
      ensures Valid()
      ensures |name| > 0 ==>
        && r == Saved(|old(patients)| + 1)
        && Snapshot() == old(Snapshot()).(patients := old(patients) +
             [Patient(name, age, gender, phone, email, address, bloodGroup, today)])
      ensures |name| == 0 ==> r == Rejected("Name is required!") && Snapshot() == old(Snapshot())
    {
      if |name| > 0 {
        patients := patients + [Patient(name, age, gender, phone, email, address, bloodGroup, today)];
        r := Saved(|patients|);
      } else {
        r := Rejected("Name is required!");
      }
    }

    /** The "Add Doctor" form (app.py:565-577): refused without a name or a
        specialization. */
    method AddDoctor(name: string, specialization: string, dept: Ref, phone: string,
                     email: string, experience: nat, fee: nat) returns (r: Outcome)
      requires Valid() && Resolves(dept, |departments|)
      modifies this
      ensures Valid()
      ensures |name| > 0 && |specialization| > 0 ==>
        && r == Saved(|old(doctors)| + 1)
        && Snapshot() == old(Snapshot()).(doctors := old(doctors) +
             [Doctor(name, specialization, dept, phone, email, experience, fee)])
      ensures |name| == 0 || |specialization| == 0 ==>
        r == Rejected("Name and Specialization required!") && Snapshot() == old(Snapshot())
    {
      if |name| > 0 && |specialization| > 0 {
        doctors := doctors + [Doctor(name, specialization, dept, phone, email, experience, fee)];
        r := Saved(|doctors|);
      } else {
        r := Rejected("Name and Specialization required!");
      }
    }

    /** The "Book Appointment" form (app.py:612-621): no field is checked and the new
        appointment is always Scheduled. */
    method BookAppointment(patient: Ref, doctor: Ref, date: Date, time: string,
                           reason: string) returns (id: Id)
      requires Valid() && Resolves(patient, |patients|) && Resolves(doctor, |doctors|)
      modifies this
      ensures Valid()
      ensures id == |old(appointments)| + 1
      ensures Snapshot() == old(Snapshot()).(appointments := old(appointments) +
                [Appointment(patient, doctor, date, time, Scheduled, reason)])
      ensures Stats.GetStats(Snapshot())
           == Stats.GetStats(old(Snapshot())).(
                appointments := Stats.GetStats(old(Snapshot())).appointments + 1,
                pending := Stats.GetStats(old(Snapshot())).pending + 1)
    {
      var a := Appointment(patient, doctor, date, time, Scheduled, reason);
      Stats.StatsAfterBooking(Snapshot(), a);
      appointments := appointments + [a];
      id := |appointments|;
    }

    /** The "Create Bill" form (app.py:755-764). */
    method CreateBill(patient: Ref, appointment: Ref, amount: nat) returns (id: Id)
      requires Valid() && Resolves(patient, |patients|) && Resolves(appointment, |appointments|)
      modifies this
      ensures Valid()
      ensures id == |old(bills)| + 1
      ensures Snapshot() == old(Snapshot()).(bills := Billing.Create(old(bills), patient,
                                                                      appointment, amount))
      ensures Stats.GetStats(Snapshot())
           == Stats.GetStats(old(Snapshot())).(
                pendingBills := Stats.GetStats(old(Snapshot())).pendingBills + 1)
    {
      Stats.StatsAfterNewBill(Snapshot(), patient, appointment, amount);
      Billing.CreateAppendsPending(bills, patient, appointment, amount);
      bills := Billing.Create(bills, patient, appointment, amount);
      id := |bills|;
    }

    /** "Mark as Paid" (app.py:782-789).  Paying a Pending bill takes it off the
        pending-bills counter and adds its amount to the revenue counter. */
    method PayBill(id: Id, today: Date)
      requires Valid()
      modifies this
      ensures Valid()
      ensures Snapshot() == old(Snapshot()).(bills := Billing.Pay(old(bills), id, today))
      ensures old(Exists(id, |bills|) && bills[id - 1].status == Pending) ==>
        && Stats.GetStats(Snapshot()).pendingBills + 1
             == Stats.GetStats(old(Snapshot())).pendingBills
        && Stats.GetStats(Snapshot()).revenue
             == Stats.GetStats(old(Snapshot())).revenue + old(bills[id - 1].amount)
    {
      if Exists(id, |bills|) && bills[id - 1].status == Pending {
        Stats.StatsAfterPayment(Snapshot(), id, today);
      }
      Billing.PayKeepsBillsOk(bills, id, today);
      Billing.PayTouchesOnlyThatBill(bills, id, today);
      bills := Billing.Pay(bills, id, today);
    }

    /** The "Add Staff" form (app.py:816-835): refused without a name. */
    method AddStaff(name: string, role: string, dept: Ref, phone: string, email: string,
                    salary: nat, today: Date) returns (r: Outcome)
      requires Valid() && Resolves(dept, |departments|)
      modifies this
      ensures Valid()
      ensures |name| > 0 ==>
        && r == Saved(|old(staff)| + 1)
        && Snapshot() == old(Snapshot()).(staff := old(staff) +
             [StaffMember(name, role, dept, phone, email, salary, today)])
      ensures |name| == 0 ==> r == Rejected("Name is required!") && Snapshot() == old(Snapshot())
    {
      if |name| > 0 {
        staff := staff + [StaffMember(name, role, dept, phone, email, salary, today)];
        r := Saved(|staff|);
      } else {
        r := Rejected("Name is required!");
      }
    }

    /** The "Add Item" form (app.py:863-873): refused without an item name. */
    method AddItem(name: string, category: string, quantity: nat, unitPrice: nat,
                   supplier: string, today: Date) returns (r: Outcome)
      requires Valid()
      modifies this
      ensures Valid()
      ensures |name| > 0 ==>
        && r == Saved(|old(inventory)| + 1)
        && Snapshot() == old(Snapshot()).(inventory := Inventory.AddItem(old(inventory), name,
             category, quantity, unitPrice, supplier, today))
      ensures |name| == 0 ==>
        r == Rejected("Item name is required!") && Snapshot() == old(Snapshot())
    {
      if |name| > 0 {
        inventory := Inventory.AddItem(inventory, name, category, quantity, unitPrice,
                                       supplier, today);
        r := Saved(|inventory|);
      } else {
        r := Rejected("Item name is required!");
      }
    }

    /** "Add Stock" (app.py:886-895). */
    method Restock(id: Id, amount: nat, today: Date)
      requires Valid()
      modifies this
      ensures Valid()
      ensures Snapshot() == old(Snapshot()).(inventory := Inventory.Restock(old(inventory), id,
                                                                           amount, today))
    {
      inventory := Inventory.Restock(inventory, id, amount, today);
    }

    /** "Remove Stock" (app.py:898-907); the quantity may drop below zero. */
    method Withdraw(id: Id, amount: nat, today: Date)
      requires Valid()
      modifies this
      ensures Valid()
      ensures Snapshot() == old(Snapshot()).(inventory := Inventory.Withdraw(old(inventory), id,
                                                                            amount, today))
    {
      inventory := Inventory.Withdraw(inventory, id, amount, today);
    }

    /** The "Add Bed" form (app.py:937-949): refused without a bed number. */
    method AddBed(number: string, ward: string) returns (r: Outcome)
      requires Valid()
      modifies this
      ensures Valid()
      ensures |number| > 0 ==>
        && r == Saved(|old(beds)| + 1)
        && Snapshot() == old(Snapshot()).(beds := Beds.Add(old(beds), number, ward))
      ensures |number| == 0 ==>
        r == Rejected("Bed number is required!") && Snapshot() == old(Snapshot())
    {
      if |number| > 0 {
        Beds.AddIsFresh(beds, number, ward);
        beds := Beds.Add(beds, number, ward);
        r := Saved(|beds|);
      } else {
        r := Rejected("Bed number is required!");
      }
    }

    /** "Admit" (app.py:966-974). */
    method Admit(id: Id, patient: Ref, today: Date)
      requires Valid() && Resolves(patient, |patients|)
      modifies this
      ensures Valid()
      ensures Snapshot() == old(Snapshot()).(beds := Beds.Admit(old(beds), id, patient, today))
    {
      Beds.AdmitTouchesOnlyThatBed(beds, id, patient, today);
      beds := Beds.Admit(beds, id, patient, today);
    }

    /** "Discharge" (app.py:976-983). */
    method Discharge(id: Id)
      requires Valid()
      modifies this
      ensures Valid()
      ensures Snapshot() == old(Snapshot()).(beds := Beds.Discharge(old(beds), id))
    {
      Beds.DischargeTouchesOnlyThatBed(beds, id);
      beds := Beds.Discharge(beds, id);
    }

    /** The "Order Test" form (app.py:1017-1024). */
    method OrderTest(patient: Ref, name: string, today: Date, cost: nat) returns (id: Id)
      requires Valid() && Resolves(patient, |patients|)
      modifies this
      ensures Valid()
      ensures id == |old(labTests)| + 1
      ensures Snapshot() == old(Snapshot()).(labTests := LabTests.Order(old(labTests), patient,
                                                                       name, today, cost))
    {
      labTests := LabTests.Order(labTests, patient, name, today, cost);
      id := |labTests|;
    }

    /** "Update" on the results tab (app.py:1044-1051). */
    method RecordResult(id: Id, result: string, status: TestStatus)
      requires Valid()
      modifies this
      ensures Valid()
      ensures Snapshot() == old(Snapshot()).(labTests := LabTests.Record(old(labTests), id,
                                                                        result, status))
    {
      LabTests.RecordTouchesOnlyThatTest(labTests, id, result, status);
      labTests := LabTests.Record(labTests, id, result, status);
    }

    /** The "Add Ambulance" form (app.py:1132-1144): refused unless both the vehicle
        number and the driver name are given. */
    method AddAmbulance(vehicle: string, driver: string) returns (r: Outcome)
      requires Valid()
      modifies this
      ensures Valid()
      ensures |vehicle| > 0 && |driver| > 0 ==>
        && r == Saved(|old(ambulances)| + 1)
        && Snapshot() == old(Snapshot()).(ambulances := Ambulances.Add(old(ambulances),
                                                                       vehicle, driver))
      ensures |vehicle| == 0 || |driver| == 0 ==>
        r == Rejected("All fields are required!") && Snapshot() == old(Snapshot())
    {
      if |vehicle| > 0 && |driver| > 0 {
        Ambulances.AddIsAvailable(ambulances, vehicle, driver);
        ambulances := Ambulances.Add(ambulances, vehicle, driver);
        r := Saved(|ambulances|);
      } else {
        r := Rejected("All fields are required!");
      }
    }

    /** The "Request" form (app.py:1161-1172): refused unless both the pickup location
        and the destination are given.  Dispatching an Available ambulance takes one off
        the available-ambulances counter. */
    method Dispatch(id: Id, patient: Ref, pickup: string, destination: string, now: Date)
      returns (r: Outcome)
      requires Valid() && Resolves(patient, |patients|)
      modifies this
      ensures Valid()
      ensures |pickup| > 0 && |destination| > 0 ==>
        && r == Saved(id)
        && Snapshot() == old(Snapshot()).(ambulances := Ambulances.Dispatch(old(ambulances),
             id, patient, pickup, destination, now))
      ensures |pickup| == 0 || |destination| == 0 ==>
        r == Rejected("All fields are required!") && Snapshot() == old(Snapshot())
      ensures |pickup| > 0 && |destination| > 0 && old(Ambulances.DispatchOffered(ambulances, id))
        ==> Stats.GetStats(Snapshot()).ambulancesAvailable + 1
              == Stats.GetStats(old(Snapshot())).ambulancesAvailable
    {
      if |pickup| > 0 && |destination| > 0 {
        if Ambulances.DispatchOffered(ambulances, id) {
          Ambulances.DispatchCounts(ambulances, id, patient, pickup, destination, now);
        }
        Ambulances.DispatchTouchesOnlyThatAmbulance(ambulances, id, patient, pickup,
                                                    destination, now);
        ambulances := Ambulances.Dispatch(ambulances, id, patient, pickup, destination, now);
        r := Saved(id);
      } else {
        r := Rejected("All fields are required!");
      }
    }
  }
}
