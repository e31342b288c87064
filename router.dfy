/** `ai_query` (app.py:295-356): a first-match keyword router over the lower-cased
    question, each branch running one fixed aggregate over a snapshot of the store.
    The answer is kept as a value; the number formatting of the replies is not modelled. */
module Router {
  import opened Text
  import opened Tables
  import opened Tally
  import Billing
  import Inventory
  import Stats

  /** The nine branches of the `if/elif` chain, in source order. */
  datatype Intent =
    | AskPatientCount | AskTopDoctor | AskCardiology | AskAverageFee | AskEmergency
    | AskRevenue | AskStaffCount | AskPendingBills | AskStock

  const Rules: seq<Intent> := [AskPatientCount, AskTopDoctor, AskCardiology, AskAverageFee,
                               AskEmergency, AskRevenue, AskStaffCount, AskPendingBills,
                               AskStock]

  /** Why a branch raised: `iloc[0]` on an empty result frame (IndexError), or a NULL
      aggregate handed to a numeric format spec (TypeError). */
  datatype Failure = NoRows | NullAggregate

  datatype PatientRow = PatientRow(name: string, age: nat, phone: string)
  datatype VisitRow = VisitRow(name: string, date: Date, reason: string)

  datatype Answer =
    | TotalPatients(patients: nat)
    | TopDoctor(name: string, appointments: nat)
    | CardiologyPatients(patientRows: seq<PatientRow>)
    | NoCardiologyPatients
    | AverageFee(totalFee: nat, doctors: nat)
    | EmergencyAppointments(visitRows: seq<VisitRow>)
    | NoEmergencyAppointments
    | TotalRevenue(revenue: nat)
    | TotalStaff(staff: nat)
    | PendingBills(bills: nat, amount: nat)
    | LowStockItems(items: nat)
    | Help
    | Failed(failure: Failure)

  /** The `else` reply: a fixed prefix followed by the list of topics. */
  const HelpText := "I can answer: " + HelpTopics
  const HelpTopics := "patient count, top doctor, cardiology patients, average fee, emergency appointments, revenue, staff count, pending bills, inventory status"

  function FailureMessage(f: Failure): string {
    match f
    case NoRows => "single positional indexer is out-of-bounds"
    case NullAggregate => "unsupported format string passed to NoneType.__format__"
  }

  /** The reply the `except` clause builds. */
  function ErrorReply(f: Failure): (s: string)
    ensures |s| > 7 && s[..7] == "Error: "
  {
    "Error: " + FailureMessage(f)
  }

  /** The replies whose text does not depend on number formatting or on `to_string`:
      the help text, the two "nothing found" messages and the error replies. */
  function FixedReply(a: Answer): (s: Option<string>)
    ensures a.Failed? ==> s == Some(ErrorReply(a.failure))
    ensures s.Some? <==> a.Help? || a.NoCardiologyPatients? || a.NoEmergencyAppointments? || a.Failed?
  {
    match a
    case Help => Some(HelpText)
    case NoCardiologyPatients => Some("No cardiology patients found")
    case NoEmergencyAppointments => Some("No emergency appointments")
    case Failed(f) => Some(ErrorReply(f))
    case _ => None
  }

  // ---------------------------------------------------------------- dispatch

  /** Whether the predicate of branch `i` holds of the lower-cased question `q`.
      The first one reads `('patient' and 'count') or 'how many patient'` under
      Python's precedence. */
  predicate Matches(i: Intent, q: string) {
    match i
    case AskPatientCount =>
      (Contains(q, "patient") && Contains(q, "count")) || Contains(q, "how many patient")
    case AskTopDoctor => Contains(q, "doctor") && (Contains(q, "most") || Contains(q, "top"))
    case AskCardiology => Contains(q, "cardiology")
    case AskAverageFee => Contains(q, "fee") && Contains(q, "average")
    case AskEmergency => Contains(q, "emergency")
    case AskRevenue => Contains(q, "revenue") || Contains(q, "income")
    case AskStaffCount => Contains(q, "staff") && Contains(q, "count")
    case AskPendingBills => Contains(q, "pending") && Contains(q, "bill")
    case AskStock => Contains(q, "inventory") || Contains(q, "stock")
  }

  /** The `if/elif` chain itself, over the lower-cased question. */
  function Classify(q: string): Option<Intent> {
    if (Contains(q, "patient") && Contains(q, "count")) || Contains(q, "how many patient") then
      Some(AskPatientCount)
    else if Contains(q, "doctor") && (Contains(q, "most") || Contains(q, "top")) then
      Some(AskTopDoctor)
    else if Contains(q, "cardiology") then Some(AskCardiology)
    else if Contains(q, "fee") && Contains(q, "average") then Some(AskAverageFee)
    else if Contains(q, "emergency") then Some(AskEmergency)
    else if Contains(q, "revenue") || Contains(q, "income") then Some(AskRevenue)
    else if Contains(q, "staff") && Contains(q, "count") then Some(AskStaffCount)
    else if Contains(q, "pending") && Contains(q, "bill") then Some(AskPendingBills)
    else if Contains(q, "inventory") || Contains(q, "stock") then Some(AskStock)
    else None
  }

  /** Reference semantics of an ordered dispatch table: the first rule, in list order,
      whose predicate holds. */
  function FirstMatch(rules: seq<Intent>, q: string): (r: Option<Intent>)
    ensures r.Some? ==> r.value in rules && Matches(r.value, q)
  {
    if rules == [] then None
    else if Matches(rules[0], q) then Some(rules[0])
    else FirstMatch(rules[1..], q)
  }

  // ---------------------------------------------------------------- the queries

  function FeeOf(d: Doctor): nat { d.fee }
  predicate Any<T>(x: T) { true }

  /** `COUNT(a.appointment_id)` for one doctor row of the LEFT JOIN. */
  function AppointmentsOf(appointments: seq<Appointment>, doctor: Id): nat {
    CountIf(appointments, (a: Appointment) => a.doctor == Some(doctor))
  }

  /** The group count of `GROUP BY d.name` over the first `n` doctor rows: every
      doctor of that name contributes its appointments, a doctor without any
      contributes 0. */
  function GroupCountUpTo(db: Db, name: string, n: nat): nat
    requires n <= |db.doctors|
  {
    if n == 0 then 0
    else GroupCountUpTo(db, name, n - 1)
         + (if db.doctors[n - 1].name == name then AppointmentsOf(db.appointments, n) else 0)
  }

  function GroupCount(db: Db, name: string): nat {
    GroupCountUpTo(db, name, |db.doctors|)
  }

  /** The doctor row whose name group has the largest count among the first `n`
      rows (`ORDER BY count DESC LIMIT 1`); ties go to the earliest row. */
  function TopDoctorRow(db: Db, n: nat): (k: nat)
    requires 1 <= n <= |db.doctors|
    ensures k < n
    ensures forall j :: 0 <= j < n ==>
      GroupCount(db, db.doctors[j].name) <= GroupCount(db, db.doctors[k].name)
  {
    if n == 1 then 0
    else
      var k := TopDoctorRow(db, n - 1);
      if GroupCount(db, db.doctors[n - 1].name) > GroupCount(db, db.doctors[k].name)
      then n - 1 else k
  }

  /** An appointment survives `JOIN patients ... JOIN doctors ... WHERE
      d.specialization LIKE '%pattern%'`. */
  predicate Joins(db: Db, a: Appointment, pattern: string) {
    && Lookup(db.patients, a.patient).Some?
    && Lookup(db.doctors, a.doctor).Some?
    && Like(Lookup(db.doctors, a.doctor).value.specialization, pattern)
  }

  /** The projection of one joined row, as the cardiology query selects it. */
  function PatientRowOf(db: Db, a: Appointment): PatientRow
    requires Lookup(db.patients, a.patient).Some?
  {
    var p := Lookup(db.patients, a.patient).value;
    PatientRow(p.name, p.age, p.phone)
  }

  /** The projection of one joined row, as the emergency query selects it. */
  function VisitRowOf(db: Db, a: Appointment): VisitRow
    requires Lookup(db.patients, a.patient).Some?
  {
    VisitRow(Lookup(db.patients, a.patient).value.name, a.date, a.reason)
  }

  /** The rows of the three-way join, one per surviving appointment, in table order. */
  function CardiologyRows(db: Db, appointments: seq<Appointment>): seq<PatientRow> {
    if appointments == [] then []
    else (if Joins(db, appointments[0], "Cardio") then [PatientRowOf(db, appointments[0])] else [])
         + CardiologyRows(db, appointments[1..])
  }

  function EmergencyRows(db: Db, appointments: seq<Appointment>): seq<VisitRow> {
    if appointments == [] then []
    else (if Joins(db, appointments[0], "Emergency") then [VisitRowOf(db, appointments[0])] else [])
         + EmergencyRows(db, appointments[1..])
  }

  /** The body of one branch. */
  function Run(i: Intent, db: Db): Answer {
    match i
    case AskPatientCount => TotalPatients(|db.patients|)
    case AskTopDoctor =>
      if |db.doctors| == 0 then Failed(NoRows)
      else
        var name := db.doctors[TopDoctorRow(db, |db.doctors|)].name;
        TopDoctor(name, GroupCount(db, name))
    case AskCardiology =>
      var rows := CardiologyRows(db, db.appointments);
      if rows == [] then NoCardiologyPatients else CardiologyPatients(rows)
    case AskAverageFee =>
      if |db.doctors| == 0 then Failed(NullAggregate)
      else AverageFee(SumIf(db.doctors, Any, FeeOf), |db.doctors|)
    case AskEmergency =>
      var rows := EmergencyRows(db, db.appointments);
      if rows == [] then NoEmergencyAppointments else EmergencyAppointments(rows)
    case AskRevenue =>
      if Billing.PaidCount(db.bills) == 0 then Failed(NullAggregate)
      else TotalRevenue(Billing.PaidTotal(db.bills))
    case AskStaffCount => TotalStaff(|db.staff|)
    case AskPendingBills =>
      if Billing.PendingCount(db.bills) == 0 then Failed(NullAggregate)
      else PendingBills(Billing.PendingCount(db.bills), Billing.PendingTotal(db.bills))
    case AskStock => LowStockItems(Inventory.LowStockCount(db.inventory))
  }

  /** `ai_query(query)` against snapshot `db`. */
  function Route(query: string, db: Db): Answer {
    match Classify(Lower(query))
    case None => Help
    case Some(i) => Run(i, db)
  }

  // ---------------------------------------------------------------- dispatch order

  /** The chain is the ordered dispatch table: the branch taken is the first rule of
      `Rules` whose predicate holds. */
  lemma ClassifyIsFirstMatch(q: string)
    ensures Classify(q) == FirstMatch(Rules, q)
  {
    var s9 := [AskStock];
    var s8 := [AskPendingBills] + s9;
    var s7 := [AskStaffCount] + s8;
    var s6 := [AskRevenue] + s7;
    var s5 := [AskEmergency] + s6;
    var s4 := [AskAverageFee] + s5;
    var s3 := [AskCardiology] + s4;
    var s2 := [AskTopDoctor] + s3;
    assert Rules == [AskPatientCount] + s2;
    assert FirstMatch(s9, q) == if Matches(AskStock, q) then Some(AskStock) else None by {
      assert s9[1..] == [];
    }
    FirstMatchUnfold(AskPendingBills, s9, q);
    FirstMatchUnfold(AskStaffCount, s8, q);
    FirstMatchUnfold(AskRevenue, s7, q);
    FirstMatchUnfold(AskEmergency, s6, q);
    FirstMatchUnfold(AskAverageFee, s5, q);
    FirstMatchUnfold(AskCardiology, s4, q);
    FirstMatchUnfold(AskTopDoctor, s3, q);
    FirstMatchUnfold(AskPatientCount, s2, q);
  }

  lemma FirstMatchUnfold(i: Intent, rest: seq<Intent>, q: string)
    ensures FirstMatch([i] + rest, q) == if Matches(i, q) then Some(i) else FirstMatch(rest, q)
  {
    assert ([i] + rest)[1..] == rest;
  }

  /** First match wins, in both directions: among rules that differ from the ones before
      them, rule `k` is taken exactly when its predicate holds and no earlier rule's does. */
  lemma {:induction false} FirstMatchIsEarliest(rules: seq<Intent>, q: string, k: nat)
    requires k < |rules|
    ensures Matches(rules[k], q) && (forall j :: 0 <= j < k ==> !Matches(rules[j], q))
        ==> FirstMatch(rules, q) == Some(rules[k]) && forall j :: 0 <= j < k ==> rules[j] != rules[k]
    ensures FirstMatch(rules, q) == Some(rules[k]) && (forall j :: 0 <= j < k ==> rules[j] != rules[k])
        ==> Matches(rules[k], q) && forall j :: 0 <= j < k ==> !Matches(rules[j], q)
  {
    if k > 0 {
      FirstMatchIsEarliest(rules[1..], q, k - 1);
      assert forall j :: 1 <= j < k ==> rules[j] == rules[1..][j - 1];
      if Matches(rules[k], q) && forall j :: 0 <= j < k ==> !Matches(rules[j], q) {
        assert !Matches(rules[0], q);
      }
      if FirstMatch(rules, q) == Some(rules[k]) && forall j :: 0 <= j < k ==> rules[j] != rules[k] {
        assert rules[0] != rules[k];
      }
    }
  }

  lemma {:induction false} FirstMatchNone(rules: seq<Intent>, q: string)
    ensures FirstMatch(rules, q) == None <==> forall j :: 0 <= j < |rules| ==> !Matches(rules[j], q)
  {
    if rules != [] {
      FirstMatchNone(rules[1..], q);
      assert forall j :: 1 <= j < |rules| ==> rules[j] == rules[1..][j - 1];
    }
  }

  /** The router answers with branch `k` when the lower-cased question satisfies rule
      `k` and none of the rules before it (the converse, for the chosen rule, is
      `ClassifiedRuleIsFirstMatching`). */
  lemma RouteTakesFirstMatchingRule(query: string, db: Db, k: nat)
    requires k < |Rules|
    ensures Route(query, db) == Run(Rules[k], db)
        <== Matches(Rules[k], Lower(query)) && forall j :: 0 <= j < k ==> !Matches(Rules[j], Lower(query))
  {
    ClassifyIsFirstMatch(Lower(query));
    FirstMatchIsEarliest(Rules, Lower(query), k);
  }

  /** Only then is the rule's branch taken: whenever branch `i` answers, its predicate
      holds and no earlier rule's predicate does. */
  lemma ClassifiedRuleIsFirstMatching(q: string, i: Intent)
    requires Classify(q) == Some(i)
    ensures Matches(i, q)
    ensures forall j :: 0 <= j < |Rules| && Rules[j] == i ==>
      forall m :: 0 <= m < j ==> !Matches(Rules[m], q)
  {
  }

  /** The help text is the answer exactly when no predicate holds. */
  lemma HelpExactlyWhenNothingMatches(query: string, db: Db)
    ensures Route(query, db) == Help <==>
      forall j :: 0 <= j < |Rules| ==> !Matches(Rules[j], Lower(query))
    ensures FixedReply(Route(query, db)) == Some(HelpText) <==> Route(query, db) == Help
  {
    HelpTextIsDistinct(Route(query, db));
    ClassifyIsFirstMatch(Lower(query));
    FirstMatchNone(Rules, Lower(query));
    if Classify(Lower(query)).Some? {
      RunNeverHelps(Classify(Lower(query)).value, db);
    }
  }

  /** No other reply reads like the help text. */
  lemma HelpTextIsDistinct(a: Answer)
    ensures FixedReply(a) == Some(HelpText) <==> a.Help?
  {
    assert HelpText[0] == "I can answer: "[0] == 'I';
    match a
    case Failed(f) =>
      assert ErrorReply(f)[0] == 'E';
    case NoCardiologyPatients =>
      assert "No cardiology patients found"[0] == 'N';
    case NoEmergencyAppointments =>
      assert "No emergency appointments"[0] == 'N';
    case _ =>
  }

  /** Every branch answers with something other than the help text. */
  lemma RunNeverHelps(i: Intent, db: Db)
    ensures Run(i, db) != Help
  {
    match i
    case AskCardiology =>
      assert Run(i, db).NoCardiologyPatients? || Run(i, db).CardiologyPatients?;
    case AskEmergency =>
      assert Run(i, db).NoEmergencyAppointments? || Run(i, db).EmergencyAppointments?;
    case _ =>
  }

  /** A question containing "how many patient" always gets the patient count, whatever
      else it mentions. */
  lemma HowManyPatientsWins(query: string, db: Db)
    requires Contains(Lower(query), "how many patient")
    ensures Route(query, db) == TotalPatients(|db.patients|)
  {
  }

  /** A question that starts with "How many patient" gets the patient count. */
  lemma HowManyPatientPrefix(query: string, db: Db)
    requires |query| >= 16 && query[..16] == "How many patient"
    ensures Route(query, db) == TotalPatients(|db.patients|)
  {
    LowerPrefix(query, 16);
    LowerHowManyPatient();
    ContainsAt(Lower(query), "how many patient", 0);
    HowManyPatientsWins(query, db);
  }

  lemma LowerHowManyPatient()
    ensures Lower("How many patient") == "how many patient"
  {
  }

  /** "How many patients are in cardiology" is answered by rule 1 (the patient count),
      never by the cardiology branch. */
  lemma CardiologyQuestionGetsPatientCount(db: Db)
    ensures Route("How many patients are in cardiology", db) == TotalPatients(|db.patients|)
  {
    var q := "How many patients are in cardiology";
    assert q[..16] == "How many patient";
    HowManyPatientPrefix(q, db);
  }

  /** The "Patients" button of the chat page asks "How many patients?" and gets the
      patient count. */
  lemma PatientsButtonGetsPatientCount(db: Db)
    ensures Route("How many patients?", db) == TotalPatients(|db.patients|)
  {
    var q := "How many patients?";
    assert q[..16] == "How many patient";
    HowManyPatientPrefix(q, db);
  }

  // ---------------------------------------------------------------- failures

  /** No branch raises except these four: top doctor and average fee on an empty doctor
      table, revenue with no Paid bill, pending bills with no Pending bill. */
  lemma FailsExactly(i: Intent, db: Db)
    ensures Run(i, db).Failed? <==>
      || (i == AskTopDoctor && |db.doctors| == 0)
      || (i == AskAverageFee && |db.doctors| == 0)
      || (i == AskRevenue && Billing.PaidCount(db.bills) == 0)
      || (i == AskPendingBills && Billing.PendingCount(db.bills) == 0)
    ensures Run(i, db).Failed? ==> ErrorReply(Run(i, db).failure)[..7] == "Error: "
  {
    if i == AskCardiology {
      assert Run(i, db).NoCardiologyPatients? || Run(i, db).CardiologyPatients?;
    } else if i == AskEmergency {
      assert Run(i, db).NoEmergencyAppointments? || Run(i, db).EmergencyAppointments?;
    }
  }

  /** With doctors on file, the top-doctor branch names a doctor's name group whose
      count is that group's count and is at least every other group's, doctors with
      no appointments included. */
  lemma TopDoctorIsMaximal(db: Db)
    requires |db.doctors| > 0
    ensures Run(AskTopDoctor, db).TopDoctor?
    ensures var a := Run(AskTopDoctor, db);
      && (exists k :: 0 <= k < |db.doctors| && db.doctors[k].name == a.name)
      && a.appointments == GroupCount(db, a.name)
      && forall j :: 0 <= j < |db.doctors| ==> GroupCount(db, db.doctors[j].name) <= a.appointments
  {
    var k := TopDoctorRow(db, |db.doctors|);
    assert db.doctors[k].name == Run(AskTopDoctor, db).name;
  }

  /** A doctor's group count includes each of that doctor's appointments, so the
      top count bounds every single doctor's appointment count. */
  lemma {:induction false} GroupCountCoversDoctor(db: Db, name: string, n: nat, k: nat)
    requires k < n <= |db.doctors| && db.doctors[k].name == name
    ensures AppointmentsOf(db.appointments, k + 1) <= GroupCountUpTo(db, name, n)
  {
    if k < n - 1 {
      GroupCountCoversDoctor(db, name, n - 1, k);
    }
  }

  lemma TopDoctorBoundsEveryDoctor(db: Db, k: nat)
    requires k < |db.doctors|
    ensures AppointmentsOf(db.appointments, k + 1) <= Run(AskTopDoctor, db).appointments
  {
    GroupCountCoversDoctor(db, db.doctors[k].name, |db.doctors|, k);
    TopDoctorIsMaximal(db);
  }

  /** Through the LEFT JOIN, doctors without appointments still form groups: with no
      appointments at all the answer is the first doctor with count 0, not an error. */
  lemma {:induction false} NoAppointmentsCountZero(db: Db, name: string, n: nat)
    requires n <= |db.doctors| && db.appointments == []
    ensures GroupCountUpTo(db, name, n) == 0
  {
    if n > 0 {
      NoAppointmentsCountZero(db, name, n - 1);
    }
  }

  lemma TopDoctorWithoutAppointments(db: Db)
    requires |db.doctors| > 0 && db.appointments == []
    ensures Run(AskTopDoctor, db).TopDoctor? && Run(AskTopDoctor, db).appointments == 0
  {
    NoAppointmentsCountZero(db, db.doctors[TopDoctorRow(db, |db.doctors|)].name, |db.doctors|);
  }

  // ---------------------------------------------------------------- the joins

  /** A row is listed by the cardiology query exactly when some appointment joins a
      patient and a doctor whose specialization contains "Cardio" (any case), and the
      row is that patient's name, age and phone. */
  lemma {:induction false} CardiologyRowsAreJoined(db: Db, appointments: seq<Appointment>, r: PatientRow)
    ensures r in CardiologyRows(db, appointments) <==>
      exists i :: 0 <= i < |appointments| && Joins(db, appointments[i], "Cardio")
                  && r == PatientRowOf(db, appointments[i])
  {
    if appointments != [] {
      CardiologyRowsAreJoined(db, appointments[1..], r);
      assert forall i :: 1 <= i < |appointments| ==> appointments[i] == appointments[1..][i - 1];
      if r in CardiologyRows(db, appointments[1..]) {
        var i :| 0 <= i < |appointments[1..]| && Joins(db, appointments[1..][i], "Cardio")
                  && r == PatientRowOf(db, appointments[1..][i]);
        assert appointments[i + 1] == appointments[1..][i];
      }
    }
  }

  lemma {:induction false} EmergencyRowsAreJoined(db: Db, appointments: seq<Appointment>, r: VisitRow)
    ensures r in EmergencyRows(db, appointments) <==>
      exists i :: 0 <= i < |appointments| && Joins(db, appointments[i], "Emergency")
                  && r == VisitRowOf(db, appointments[i])
  {
    if appointments != [] {
      EmergencyRowsAreJoined(db, appointments[1..], r);
      assert forall i :: 1 <= i < |appointments| ==> appointments[i] == appointments[1..][i - 1];
      if r in EmergencyRows(db, appointments[1..]) {
        var i :| 0 <= i < |appointments[1..]| && Joins(db, appointments[1..][i], "Emergency")
                  && r == VisitRowOf(db, appointments[1..][i]);
        assert appointments[i + 1] == appointments[1..][i];
      }
    }
  }

  /** One row per joining appointment. */
  lemma {:induction false} CardiologyRowCount(db: Db, appointments: seq<Appointment>)
    ensures |CardiologyRows(db, appointments)|
         == CountIf(appointments, (a: Appointment) => Joins(db, a, "Cardio"))
  {
    if appointments != [] {
      CardiologyRowCount(db, appointments[1..]);
    }
  }

  /** One row per appointment that joins a patient to an emergency visit. */
  lemma {:induction false} EmergencyRowCount(db: Db, appointments: seq<Appointment>)
    ensures |EmergencyRows(db, appointments)|
         == CountIf(appointments, (a: Appointment) => Joins(db, a, "Emergency"))
  {
    if appointments != [] {
      EmergencyRowCount(db, appointments[1..]);
    }
  }

  // ---------------------------------------------------------------- agreement with the dashboard

  /** The counts the router reports are the dashboard's counters, except that the
      router's revenue and pending-bills branches raise where the dashboard shows 0. */
  lemma RouterAgreesWithDashboard(db: Db)
    ensures Run(AskPatientCount, db) == TotalPatients(Stats.GetStats(db).patients)
    ensures Run(AskStaffCount, db) == TotalStaff(Stats.GetStats(db).staff)
    ensures Billing.PaidCount(db.bills) > 0 ==>
      Run(AskRevenue, db) == TotalRevenue(Stats.GetStats(db).revenue)
    ensures Billing.PaidCount(db.bills) == 0 ==>
      Run(AskRevenue, db) == Failed(NullAggregate) && Stats.GetStats(db).revenue == 0
    ensures Billing.PendingCount(db.bills) > 0 ==>
      Run(AskPendingBills, db).bills == Stats.GetStats(db).pendingBills
    ensures Billing.PendingCount(db.bills) == 0 ==>
      Run(AskPendingBills, db) == Failed(NullAggregate) && Stats.GetStats(db).pendingBills == 0
  {
  }

}
