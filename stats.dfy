/** `get_stats` (app.py:277-293): the eleven dashboard counters, each a COUNT or SUM
    over one table of a snapshot. */
module Stats {
  import opened Tables
  import opened Tally
  import Billing
  import Beds
  import LabTests
  import Ambulances

  datatype Dashboard = Dashboard(
    patients: nat, doctors: nat, appointments: nat, pending: nat, staff: nat,
    revenue: nat, pendingBills: nat, availableBeds: nat, occupiedBeds: nat,
    pendingTests: nat, ambulancesAvailable: nat)

  predicate IsScheduled(a: Appointment) { a.status == Scheduled }

  /** `SUM(amount) ... WHERE payment_status='Paid'` is NULL when no bill is Paid, and the
      dashboard reads NULL through `or 0`. */
  function Revenue(bills: seq<Bill>): nat {
    if Billing.PaidCount(bills) == 0 then 0 else Billing.PaidTotal(bills)
  }

  function GetStats(db: Db): Dashboard {
    Dashboard(
      patients := |db.patients|,
      doctors := |db.doctors|,
      appointments := |db.appointments|,
      pending := CountIf(db.appointments, IsScheduled),
      staff := |db.staff|,
      revenue := Revenue(db.bills),
      pendingBills := Billing.PendingCount(db.bills),
      availableBeds := Beds.AvailableCount(db.beds),
      occupiedBeds := Beds.OccupiedCount(db.beds),
      pendingTests := LabTests.PendingCount(db.labTests),
      ambulancesAvailable := Ambulances.AvailableCount(db.ambulances))
  }

  /** The revenue counter is the sum of the Paid amounts, so with no Paid bill it is 0. */
  lemma RevenueIsPaidTotal(db: Db)
    ensures GetStats(db).revenue == Billing.PaidTotal(db.bills)
    ensures Billing.PaidCount(db.bills) == 0 ==> GetStats(db).revenue == 0
  {
    if Billing.PaidCount(db.bills) == 0 {
      Billing.NoPaidBillsNoRevenue(db.bills);
    }
  }

  /** The bed counters partition the beds. */
  lemma BedCountersPartition(db: Db)
    ensures GetStats(db).availableBeds + GetStats(db).occupiedBeds == |db.beds|
  {
    Beds.CountersCoverAllBeds(db.beds);
  }

  /** Marking a Pending bill paid lowers the pending-bills counter by one, raises the
      revenue counter by the bill's amount, and moves no other counter. */
  lemma StatsAfterPayment(db: Db, id: Id, today: Date)
    requires Exists(id, |db.bills|) && db.bills[id - 1].status == Pending
    ensures var before := GetStats(db);
            var after := GetStats(db.(bills := Billing.Pay(db.bills, id, today)));
      && after.pendingBills + 1 == before.pendingBills
      && after.revenue == before.revenue + db.bills[id - 1].amount
      && after == before.(pendingBills := after.pendingBills, revenue := after.revenue)
  {
    var paid := Billing.Pay(db.bills, id, today);
    Billing.PayPendingBill(db.bills, id, today);
    RevenueIsPaidTotal(db);
    RevenueIsPaidTotal(db.(bills := paid));
  }

  /** Creating a bill adds one pending bill and leaves the revenue as it was. */
  lemma StatsAfterNewBill(db: Db, patient: Ref, appointment: Ref, amount: nat)
    ensures var before := GetStats(db);
            var after := GetStats(db.(bills := Billing.Create(db.bills, patient, appointment, amount)));
      after == before.(pendingBills := before.pendingBills + 1)
  {
    Billing.CreateCounts(db.bills, patient, appointment, amount);
    RevenueIsPaidTotal(db);
    RevenueIsPaidTotal(db.(bills := Billing.Create(db.bills, patient, appointment, amount)));
  }

  /** Registering a patient raises the patient counter by exactly one. */
  lemma StatsAfterNewPatient(db: Db, p: Patient)
    ensures var before := GetStats(db);
      GetStats(db.(patients := db.patients + [p])) == before.(patients := before.patients + 1)
  {
  }

  /** Booking an appointment (always stored as Scheduled) raises both the appointment
      counter and the pending-appointment counter by exactly one. */
  lemma StatsAfterBooking(db: Db, a: Appointment)
    requires a.status == Scheduled
    ensures var before := GetStats(db);
      GetStats(db.(appointments := db.appointments + [a]))
        == before.(appointments := before.appointments + 1, pending := before.pending + 1)
  {
    CountAppend(db.appointments, a, IsScheduled);
  }
}
