/** The laboratory page: ordering a test (app.py:1000-1024) and recording a result
    (app.py:1026-1051), with the `pending_tests` counter of the dashboard. */
module LabTests {
  import opened Tables
  import opened Tally

  predicate NotCompleted(t: LabTest) { t.status != TestCompleted }

  /** `COUNT(*) FROM lab_tests WHERE status!='Completed'` */
  function PendingCount(tests: seq<LabTest>): nat { CountIf(tests, NotCompleted) }

  /** `INSERT INTO lab_tests ... VALUES (patient, name, today, None, 'Scheduled', cost)` */
  function Order(tests: seq<LabTest>, patient: Ref, name: string, today: Date, cost: nat)
    : seq<LabTest>
  {
    tests + [LabTest(patient, name, today, None, TestScheduled, cost)]
  }

  /** `UPDATE lab_tests SET result=?, status=? WHERE test_id=?` */
  function Record(tests: seq<LabTest>, id: Id, result: string, status: TestStatus)
    : seq<LabTest>
  {
    if Exists(id, |tests|)
    then tests[id - 1 := tests[id - 1].(result := Some(result), status := status)]
    else tests
  }

  /** The tests the update tab offers: not Completed and joined to a patient
      (`JOIN patients p ON l.patient_id = p.patient_id WHERE l.status != 'Completed'`). */
  predicate RecordOffered(tests: seq<LabTest>, patients: nat, id: Id) {
    Exists(id, |tests|) && tests[id - 1].status != TestCompleted
      && tests[id - 1].patient.Some? && Exists(tests[id - 1].patient.value, patients)
  }

  /** The statuses the update tab's selectbox offers. */
  predicate RecordableStatus(status: TestStatus) {
    status == InProgress || status == TestCompleted
  }

  /** An ordered test is Scheduled with no result and counts as pending. */
  lemma OrderIsScheduled(tests: seq<LabTest>, patient: Ref, name: string, today: Date,
                         cost: nat)
    ensures var r := Order(tests, patient, name, today, cost);
      && |r| == |tests| + 1 && r[..|tests|] == tests
      && r[|tests|].status == TestScheduled && r[|tests|].result.None?
      && r[|tests|].patient == patient && r[|tests|].date == today
      && PendingCount(r) == PendingCount(tests) + 1
  {
    CountAppend(tests, LabTest(patient, name, today, None, TestScheduled, cost), NotCompleted);
  }

  /** Recording sets the result and the chosen status on that test only. */
  lemma RecordTouchesOnlyThatTest(tests: seq<LabTest>, id: Id, result: string,
                                  status: TestStatus)
    ensures var r := Record(tests, id, result, status);
      && |r| == |tests|
      && (forall k :: 0 <= k < |tests| && k != id - 1 ==> r[k] == tests[k])
      && (Exists(id, |tests|) ==>
            r[id - 1] == tests[id - 1].(result := Some(result), status := status))
      && (!Exists(id, |tests|) ==> r == tests)
  {
  }

  /** On an offered test, recording Completed takes it off the pending counter and
      recording In Progress leaves the counter as it was. */
  lemma RecordCounts(tests: seq<LabTest>, patients: nat, id: Id, result: string,
                     status: TestStatus)
    requires RecordOffered(tests, patients, id) && RecordableStatus(status)
    ensures var r := Record(tests, id, result, status);
      && (status == TestCompleted ==> PendingCount(r) == PendingCount(tests) - 1)
      && (status == InProgress ==> PendingCount(r) == PendingCount(tests))
      && r[id - 1].status != TestScheduled
  {
    CountUpdate(tests, id - 1, tests[id - 1].(result := Some(result), status := status),
                NotCompleted);
  }

  /** `pending_tests` is the number of tests whose status is not Completed, and with the
      Completed ones it accounts for every test. */
  lemma PendingCountIsNotCompleted(tests: seq<LabTest>)
    ensures PendingCount(tests) == |set i | 0 <= i < |tests| && tests[i].status != TestCompleted|
    ensures PendingCount(tests) + CountIf(tests, (t: LabTest) => t.status == TestCompleted)
         == |tests|
  {
    CountIsMatchingPositions(tests, NotCompleted);
    assert Matching(tests, NotCompleted)
        == set i | 0 <= i < |tests| && tests[i].status != TestCompleted;
    CountSplit(tests, NotCompleted, (t: LabTest) => t.status == TestCompleted);
  }
}
