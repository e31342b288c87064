/** The billing page: creating a bill (app.py:741-764), marking one paid
    (app.py:766-791), and the aggregates over `billing` that the dashboard and the
    query router read. */
module Billing {
  import opened Tables
  import opened Tally

  predicate IsPaid(b: Bill) { b.status == Paid }
  predicate IsPending(b: Bill) { b.status == Pending }
  function Amount(b: Bill): nat { b.amount }

  /** `COUNT(*) FROM billing WHERE payment_status='Paid'` */
  function PaidCount(bills: seq<Bill>): nat { CountIf(bills, IsPaid) }

  /** `SUM(amount) FROM billing WHERE payment_status='Paid'`, read as 0 when no row is
      Paid; whether the caller sees NULL instead is decided by `PaidCount`. */
  function PaidTotal(bills: seq<Bill>): nat { SumIf(bills, IsPaid, Amount) }

  /** `COUNT(*) FROM billing WHERE payment_status='Pending'` */
  function PendingCount(bills: seq<Bill>): nat { CountIf(bills, IsPending) }

  /** `SUM(amount) FROM billing WHERE payment_status='Pending'` (0 for no rows). */
  function PendingTotal(bills: seq<Bill>): nat { SumIf(bills, IsPending, Amount) }

  /** `INSERT INTO billing ... VALUES (patient, appointment, amount, 'Pending', None)` */
  function Create(bills: seq<Bill>, patient: Ref, appointment: Ref, amount: nat): seq<Bill> {
    bills + [Bill(patient, appointment, amount, Pending, None)]
  }

  /** `UPDATE billing SET payment_status='Paid', payment_date=? WHERE bill_id=?`;
      an id that names no row changes nothing. */
  function Pay(bills: seq<Bill>, id: Id, today: Date): seq<Bill> {
    if Exists(id, |bills|)
    then bills[id - 1 := bills[id - 1].(status := Paid, paidOn := Some(today))]
    else bills
  }

  /** The bills the payment tab offers: Pending ones whose patient joins
      (`JOIN patients p ON b.patient_id = p.patient_id WHERE b.payment_status='Pending'`). */
  predicate PaymentOffered(bills: seq<Bill>, patients: nat, id: Id) {
    Exists(id, |bills|) && bills[id - 1].status == Pending && bills[id - 1].patient.Some?
      && Exists(bills[id - 1].patient.value, patients)
  }

  /** A new bill is the last row, Pending with no payment date; it is found again under
      the identity one past the old row count, and nothing before it moves. */
  lemma CreateAppendsPending(bills: seq<Bill>, patient: Ref, appointment: Ref, amount: nat)
    ensures var r := Create(bills, patient, appointment, amount);
      && |r| == |bills| + 1
      && r[..|bills|] == bills
      && r[|bills|].patient == patient && r[|bills|].appointment == appointment
      && r[|bills|].amount == amount
      && r[|bills|].status == Pending && r[|bills|].paidOn.None?
      && (BillsOk(bills) ==> BillsOk(r))
  {
  }

  /** Paying a bill the payment tab offers takes it off the tab's list and moves its
      amount from the pending side to the Paid side. */
  lemma PayOfferedBill(bills: seq<Bill>, patients: nat, id: Id, today: Date)
    requires PaymentOffered(bills, patients, id)
    ensures var r := Pay(bills, id, today);
      && !PaymentOffered(r, patients, id)
      && r[id - 1].status == Paid && r[id - 1].paidOn == Some(today)
      && PendingCount(r) == PendingCount(bills) - 1
      && PaidTotal(r) == PaidTotal(bills) + bills[id - 1].amount
  {
    PayPendingBill(bills, id, today);
  }

  /** Creating a bill adds one Pending bill and its amount to the pending total, and
      leaves the Paid side as it was. */
  lemma CreateCounts(bills: seq<Bill>, patient: Ref, appointment: Ref, amount: nat)
    ensures var r := Create(bills, patient, appointment, amount);
      && PendingCount(r) == PendingCount(bills) + 1
      && PendingTotal(r) == PendingTotal(bills) + amount
      && PaidCount(r) == PaidCount(bills)
      && PaidTotal(r) == PaidTotal(bills)
  {
    var b := Bill(patient, appointment, amount, Pending, None);
    CountAppend(bills, b, IsPending);
    CountAppend(bills, b, IsPaid);
    SumAppend(bills, b, IsPending, Amount);
    SumAppend(bills, b, IsPaid, Amount);
  }

  /** Paying touches the chosen bill only: it becomes Paid with today's date, whatever
      it was before; every other row, and the chosen row's other fields, are unchanged. */
  lemma PayTouchesOnlyThatBill(bills: seq<Bill>, id: Id, today: Date)
    ensures var r := Pay(bills, id, today);
      && |r| == |bills|
      && (forall k :: 0 <= k < |bills| && k != id - 1 ==> r[k] == bills[k])
      && (Exists(id, |bills|) ==>
            && r[id - 1].status == Paid && r[id - 1].paidOn == Some(today)
            && r[id - 1].patient == bills[id - 1].patient
            && r[id - 1].appointment == bills[id - 1].appointment
            && r[id - 1].amount == bills[id - 1].amount)
      && (!Exists(id, |bills|) ==> r == bills)
  {
  }

  /** Paying keeps "Paid exactly when dated" for every bill. */
  lemma PayKeepsBillsOk(bills: seq<Bill>, id: Id, today: Date)
    requires BillsOk(bills)
    ensures BillsOk(Pay(bills, id, today))
  {
  }

  /** Paying a Pending bill moves it from one side of the ledger to the other: one
      fewer pending bill, one more paid bill, and revenue grows by its amount. */
  lemma PayPendingBill(bills: seq<Bill>, id: Id, today: Date)
    requires Exists(id, |bills|) && bills[id - 1].status == Pending
    ensures var r := Pay(bills, id, today);
      && PendingCount(r) == PendingCount(bills) - 1
      && PendingTotal(r) == PendingTotal(bills) - bills[id - 1].amount
      && PaidCount(r) == PaidCount(bills) + 1
      && PaidTotal(r) == PaidTotal(bills) + bills[id - 1].amount
  {
    var b := bills[id - 1].(status := Paid, paidOn := Some(today));
    CountUpdate(bills, id - 1, b, IsPending);
    CountUpdate(bills, id - 1, b, IsPaid);
    SumUpdate(bills, id - 1, b, IsPending, Amount);
    SumUpdate(bills, id - 1, b, IsPaid, Amount);
  }

  /** Paying an already Paid bill only rewrites its date: no aggregate moves. */
  lemma PayPaidBill(bills: seq<Bill>, id: Id, today: Date)
    requires Exists(id, |bills|) && bills[id - 1].status == Paid
    ensures var r := Pay(bills, id, today);
      && PendingCount(r) == PendingCount(bills) && PaidCount(r) == PaidCount(bills)
      && PendingTotal(r) == PendingTotal(bills) && PaidTotal(r) == PaidTotal(bills)
  {
    var b := bills[id - 1].(status := Paid, paidOn := Some(today));
    CountUpdate(bills, id - 1, b, IsPending);
    CountUpdate(bills, id - 1, b, IsPaid);
    SumUpdate(bills, id - 1, b, IsPending, Amount);
    SumUpdate(bills, id - 1, b, IsPaid, Amount);
  }

  /** With no Paid row the paid total is 0 (the `or 0` of the dashboard). */
  lemma NoPaidBillsNoRevenue(bills: seq<Bill>)
    requires PaidCount(bills) == 0
    ensures PaidTotal(bills) == 0
  {
    SumZeroWhenNoneMatch(bills, IsPaid, Amount);
  }

  /** Every bill is Paid or Pending, so the two counts cover the table. */
  lemma PaidAndPendingCoverAll(bills: seq<Bill>)
    ensures PaidCount(bills) + PendingCount(bills) == |bills|
  {
    CountSplit(bills, IsPaid, IsPending);
  }
}
