/** The ambulance page: adding an ambulance (app.py:1128-1143) and dispatching one
    (app.py:1145-1172).  No form ever sets an ambulance back to Available. */
module Ambulances {
  import opened Tables
  import opened Tally

  predicate IsAvailable(a: Ambulance) { a.status == AmbulanceAvailable }

  /** `COUNT(*) FROM ambulance WHERE status='Available'` */
  function AvailableCount(ambulances: seq<Ambulance>): nat { CountIf(ambulances, IsAvailable) }

  /** `INSERT INTO ambulance ... VALUES (vehicle, driver, 'Available', None, None, None, None)` */
  function Add(ambulances: seq<Ambulance>, vehicle: string, driver: string): seq<Ambulance> {
    ambulances + [Ambulance(vehicle, driver, AmbulanceAvailable, None, None, None, None)]
  }

  /** `UPDATE ambulance SET status='On Duty', patient_id=?, pickup_location=?,
      destination=?, request_time=? WHERE ambulance_id=?` */
  function Dispatch(ambulances: seq<Ambulance>, id: Id, patient: Ref, pickup: string,
                    destination: string, now: Date): seq<Ambulance>
  {
    if Exists(id, |ambulances|)
    then ambulances[id - 1 := ambulances[id - 1].(status := OnDuty, patient := patient,
                                                  pickup := Some(pickup),
                                                  destination := Some(destination),
                                                  requested := Some(now))]
    else ambulances
  }

  /** The ambulances the request form offers: `WHERE status='Available'`. */
  predicate DispatchOffered(ambulances: seq<Ambulance>, id: Id) {
    Exists(id, |ambulances|) && ambulances[id - 1].status == AmbulanceAvailable
  }

  /** A new ambulance is Available with patient, pickup, destination and request time
      all NULL, and is one more available ambulance. */
  lemma AddIsAvailable(ambulances: seq<Ambulance>, vehicle: string, driver: string)
    ensures var r := Add(ambulances, vehicle, driver);
      && |r| == |ambulances| + 1 && r[..|ambulances|] == ambulances
      && r[|ambulances|].status == AmbulanceAvailable
      && r[|ambulances|].patient.None? && r[|ambulances|].pickup.None?
      && r[|ambulances|].destination.None? && r[|ambulances|].requested.None?
      && AvailableCount(r) == AvailableCount(ambulances) + 1
      && (AmbulancesOk(ambulances) ==> AmbulancesOk(r))
  {
    CountAppend(ambulances, Ambulance(vehicle, driver, AmbulanceAvailable, None, None, None, None),
                IsAvailable);
  }

  /** Dispatch sets On Duty and all four dispatch fields on that ambulance only, keeps
      "Available exactly when the dispatch fields are NULL", and never makes an
      ambulance Available again. */
  lemma DispatchTouchesOnlyThatAmbulance(ambulances: seq<Ambulance>, id: Id, patient: Ref,
                                         pickup: string, destination: string, now: Date)
    ensures var r := Dispatch(ambulances, id, patient, pickup, destination, now);
      && |r| == |ambulances|
      && (forall k :: 0 <= k < |ambulances| && k != id - 1 ==> r[k] == ambulances[k])
      && (Exists(id, |ambulances|) ==>
            r[id - 1] == Ambulance(ambulances[id - 1].vehicle, ambulances[id - 1].driver,
                                   OnDuty, patient, Some(pickup), Some(destination), Some(now)))
      && (!Exists(id, |ambulances|) ==> r == ambulances)
      && (forall k :: 0 <= k < |ambulances| && ambulances[k].status == OnDuty ==>
            r[k].status == OnDuty)
      && (AmbulancesOk(ambulances) ==> AmbulancesOk(r))
  {
  }

  /** Dispatching an offered ambulance takes one off the available counter. */
  lemma DispatchCounts(ambulances: seq<Ambulance>, id: Id, patient: Ref, pickup: string,
                       destination: string, now: Date)
    requires DispatchOffered(ambulances, id)
    ensures AvailableCount(Dispatch(ambulances, id, patient, pickup, destination, now))
         == AvailableCount(ambulances) - 1
  {
    var a := ambulances[id - 1].(status := OnDuty, patient := patient, pickup := Some(pickup),
                                 destination := Some(destination), requested := Some(now));
    CountUpdate(ambulances, id - 1, a, IsAvailable);
  }
}
