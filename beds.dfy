/** The bed management page: adding a bed (app.py:933-947), admitting a patient
    (app.py:963-974) and discharging (app.py:975-983), with the bed counters of the
    dashboard. */
module Beds {
  import opened Tables
  import opened Tally

  predicate IsAvailable(b: Bed) { b.status == BedAvailable }
  predicate IsOccupied(b: Bed) { b.status == Occupied }

  /** `COUNT(*) FROM beds WHERE status='Available'` */
  function AvailableCount(beds: seq<Bed>): nat { CountIf(beds, IsAvailable) }

  /** `COUNT(*) FROM beds WHERE status='Occupied'` */
  function OccupiedCount(beds: seq<Bed>): nat { CountIf(beds, IsOccupied) }

  /** The state of a bed as the add form creates it. */
  function FreshBed(number: string, ward: string): Bed {
    Bed(number, ward, BedAvailable, None, None)
  }

  /** `INSERT INTO beds ... VALUES (number, ward, 'Available', None, None)` */
  function Add(beds: seq<Bed>, number: string, ward: string): seq<Bed> {
    beds + [FreshBed(number, ward)]
  }

  /** `UPDATE beds SET status='Occupied', patient_id=?, admission_date=? WHERE bed_id=?`;
      the prior status is not consulted. */
  function Admit(beds: seq<Bed>, id: Id, patient: Ref, today: Date): seq<Bed> {
    if Exists(id, |beds|)
    then beds[id - 1 := beds[id - 1].(status := Occupied, patient := patient,
                                      admitted := Some(today))]
    else beds
  }

  /** `UPDATE beds SET status='Available', patient_id=NULL, admission_date=NULL
      WHERE bed_id=?` */
  function Discharge(beds: seq<Bed>, id: Id): seq<Bed> {
    if Exists(id, |beds|)
    then beds[id - 1 := beds[id - 1].(status := BedAvailable, patient := None,
                                      admitted := None)]
    else beds
  }

  /** A new bed is Available with no patient and no date, and is one more available bed. */
  lemma AddIsFresh(beds: seq<Bed>, number: string, ward: string)
    ensures var r := Add(beds, number, ward);
      && |r| == |beds| + 1 && r[..|beds|] == beds
      && r[|beds|].status == BedAvailable && r[|beds|].patient.None? && r[|beds|].admitted.None?
      && AvailableCount(r) == AvailableCount(beds) + 1
      && OccupiedCount(r) == OccupiedCount(beds)
      && (BedsOk(beds) ==> BedsOk(r))
  {
    CountAppend(beds, FreshBed(number, ward), IsAvailable);
    CountAppend(beds, FreshBed(number, ward), IsOccupied);
  }

  /** Admitting marks the chosen bed Occupied with that patient and date, whatever its
      prior state, keeps its number and ward, and leaves every other bed alone. */
  lemma AdmitTouchesOnlyThatBed(beds: seq<Bed>, id: Id, patient: Ref, today: Date)
    ensures var r := Admit(beds, id, patient, today);
      && |r| == |beds|
      && (forall k :: 0 <= k < |beds| && k != id - 1 ==> r[k] == beds[k])
      && (Exists(id, |beds|) ==>
            r[id - 1] == Bed(beds[id - 1].number, beds[id - 1].ward, Occupied, patient,
                             Some(today)))
      && (!Exists(id, |beds|) ==> r == beds)
      && (BedsOk(beds) ==> BedsOk(r))
  {
  }

  /** Discharging makes the chosen bed exactly a fresh bed of the same number and ward
      and leaves every other bed alone. */
  lemma DischargeTouchesOnlyThatBed(beds: seq<Bed>, id: Id)
    ensures var r := Discharge(beds, id);
      && |r| == |beds|
      && (forall k :: 0 <= k < |beds| && k != id - 1 ==> r[k] == beds[k])
      && (Exists(id, |beds|) ==> r[id - 1] == FreshBed(beds[id - 1].number, beds[id - 1].ward))
      && (!Exists(id, |beds|) ==> r == beds)
      && (BedsOk(beds) ==> BedsOk(r))
  {
  }

  /** Discharge after admit is the same as discharge alone: the admission leaves no trace. */
  lemma DischargeUndoesAdmit(beds: seq<Bed>, id: Id, patient: Ref, today: Date)
    ensures Discharge(Admit(beds, id, patient, today), id) == Discharge(beds, id)
  {
  }

  /** Admitting a patient to a freshly added bed and discharging again restores the
      table the add form produced. */
  lemma FreshBedRoundTrip(beds: seq<Bed>, number: string, ward: string, patient: Ref,
                          today: Date)
    ensures var added := Add(beds, number, ward);
      Discharge(Admit(added, |added|, patient, today), |added|) == added
  {
    var added := Add(beds, number, ward);
    assert added[|added| - 1] == FreshBed(number, ward);
    assert added[|added| - 1 := FreshBed(number, ward)] == added;
  }

  /** Admitting to an Available bed moves one bed from the available to the occupied
      counter; admitting to an Occupied bed moves nothing. */
  lemma AdmitCounts(beds: seq<Bed>, id: Id, patient: Ref, today: Date)
    requires Exists(id, |beds|)
    ensures var r := Admit(beds, id, patient, today);
      && (beds[id - 1].status == BedAvailable ==>
            AvailableCount(r) == AvailableCount(beds) - 1 &&
            OccupiedCount(r) == OccupiedCount(beds) + 1)
      && (beds[id - 1].status == Occupied ==>
            AvailableCount(r) == AvailableCount(beds) &&
            OccupiedCount(r) == OccupiedCount(beds))
  {
    var b := beds[id - 1].(status := Occupied, patient := patient, admitted := Some(today));
    CountUpdate(beds, id - 1, b, IsAvailable);
    CountUpdate(beds, id - 1, b, IsOccupied);
  }

  /** Discharging an Occupied bed moves one bed back to the available counter. */
  lemma DischargeCounts(beds: seq<Bed>, id: Id)
    requires Exists(id, |beds|)
    ensures var r := Discharge(beds, id);
      && (beds[id - 1].status == Occupied ==>
            AvailableCount(r) == AvailableCount(beds) + 1 &&
            OccupiedCount(r) == OccupiedCount(beds) - 1)
      && (beds[id - 1].status == BedAvailable ==>
            AvailableCount(r) == AvailableCount(beds) &&
            OccupiedCount(r) == OccupiedCount(beds))
  {
    var b := beds[id - 1].(status := BedAvailable, patient := None, admitted := None);
    CountUpdate(beds, id - 1, b, IsAvailable);
    CountUpdate(beds, id - 1, b, IsOccupied);
  }

  /** Every bed is Available or Occupied, so the two dashboard counters add up to the
      number of beds. */
  lemma CountersCoverAllBeds(beds: seq<Bed>)
    ensures AvailableCount(beds) + OccupiedCount(beds) == |beds|
  {
    CountSplit(beds, IsAvailable, IsOccupied);
  }
}
