/**
 * The request lifecycle endpoints: `cancelRequest` (only a pending request),
 * `confirmPickup` (any existing request becomes `on_trip`) and `completeTrip`
 * (any existing request becomes `completed`; its driver, if any, gives back the
 * request's seats and becomes available).
 */
module Lifecycle {
  import opened Records

  datatype CancelOutcome = CancelNotFound | CancelRejected | Cancelled

  /** `cancelRequest`: 404 for a missing request, 400 unless pending, else `cancelled_by_user`. */
  function CancelStep(db: Db, rid: RequestId): Step<CancelOutcome>
  {
    if rid !in db.requests then Step(db, CancelNotFound)
    else if db.requests[rid].status != Pending then Step(db, CancelRejected)
    else Step(db.(requests := db.requests[rid := db.requests[rid].(status := CancelledByUser)]), Cancelled)
  }

  /**
   * Only a pending request is cancelled; then its status is the one field that
   * changes. A missing or non-pending request is reported and nothing changes.
   */
  lemma CancelOutcomes(db: Db, rid: RequestId)
    ensures var r := CancelStep(db, rid);
      && (r.outcome == CancelNotFound <==> rid !in db.requests)
      && (r.outcome == CancelRejected <==> rid in db.requests && db.requests[rid].status != Pending)
      && (r.outcome != Cancelled ==> r.db == db)
      && (r.outcome == Cancelled ==>
            && rid in r.db.requests
            && r.db.requests[rid] == db.requests[rid].(status := CancelledByUser)
            && r.db.requests.Keys == db.requests.Keys
            && (forall id :: id in db.requests && id != rid ==> r.db.requests[id] == db.requests[id])
            && r.db.drivers == db.drivers && r.db.users == db.users)
  {
  }

  /** Cancelling twice: the second call is rejected and changes nothing. */
  lemma CancelTwiceRejected(db: Db, rid: RequestId)
    requires CancelStep(db, rid).outcome == Cancelled
    ensures var once := CancelStep(db, rid).db;
      CancelStep(once, rid) == Step(once, CancelRejected)
  {
  }

  datatype PickupOutcome = PickupConfirmed | PickupFailed

  /**
   * `confirmPickup`: an unconditional `update({ status: 'on_trip' })`. Updating a
   * missing document fails, so a missing request changes nothing.
   */
  function ConfirmPickupStep(db: Db, rid: RequestId): Step<PickupOutcome>
  {
    if rid !in db.requests then Step(db, PickupFailed)
    else Step(db.(requests := db.requests[rid := db.requests[rid].(status := OnTrip)]), PickupConfirmed)
  }

  /**
   * Pickup confirmation has no guard: every existing request, whatever its status
   * (cancelled and completed ones included), becomes `on_trip`, and only its
   * status changes.
   */
  lemma ConfirmPickupUnguarded(db: Db, rid: RequestId)
    ensures var r := ConfirmPickupStep(db, rid);
      && (r.outcome == PickupConfirmed <==> rid in db.requests)
      && (r.outcome == PickupFailed ==> r.db == db)
      && (rid in db.requests ==>
            && r.db.requests == db.requests[rid := db.requests[rid].(status := OnTrip)]
            && r.db.drivers == db.drivers && r.db.users == db.users)
  {
  }

  datatype CompleteOutcome = CompleteNotFound | TripCompleted | DriverUpdateFailed

  /** `const { passengerCount = 1 } = ...`: the default applies only to a missing field. */
  function ReleasedSeats(r: RideRequest): int
  {
    match r.passengerCount
    case None => DefaultCompletedPassengers
    case Some(n) => n
  }

  /** `if (driverId)`: a missing or empty driver id is falsy. */
  predicate HasDriver(r: RideRequest)
  {
    r.driverId.Some? && r.driverId.value != ""
  }

  /**
   * `completeTrip`: first write `status: 'completed'`, then, when the request names
   * a driver, `increment(-passengerCount)` its passenger count and set it
   * available. The two writes are separate: if the driver document is missing,
   * the second one fails after the first has landed.
   */
  function CompleteTripStep(db: Db, rid: RequestId): Step<CompleteOutcome>
  {
    if rid !in db.requests then Step(db, CompleteNotFound)
    else
      var req := db.requests[rid];
      var completed := db.(requests := db.requests[rid := req.(status := Completed)]);
      if !HasDriver(req) then Step(completed, TripCompleted)
      else
        var did := req.driverId.value;
        if did !in db.drivers then Step(completed, DriverUpdateFailed)
        else
          var d := db.drivers[did];
          var released := d.(currentPassengers := Increment(d.currentPassengers, -ReleasedSeats(req)),
                             isAvailable := true);
          Step(completed.(drivers := db.drivers[did := released]), TripCompleted)
  }

  /**
   * Completion has no status guard: any existing request becomes `completed`.
   * A request naming an existing driver lowers that driver's passenger count by
   * its passenger count (1 when missing) and makes it available; no other driver
   * changes, and without a driver no driver changes at all.
   */
  lemma CompleteTripEffect(db: Db, rid: RequestId)
    ensures var r := CompleteTripStep(db, rid);
      && (r.outcome == CompleteNotFound <==> rid !in db.requests)
      && (r.outcome == CompleteNotFound ==> r.db == db)
      && (rid in db.requests ==>
            var req := db.requests[rid];
            && r.db.requests == db.requests[rid := req.(status := Completed)]
            && r.db.users == db.users
            && (r.outcome == DriverUpdateFailed <==> HasDriver(req) && req.driverId.value !in db.drivers)
            && (!HasDriver(req) || req.driverId.value !in db.drivers ==> r.db.drivers == db.drivers)
            && (HasDriver(req) && req.driverId.value in db.drivers ==>
                  var did := req.driverId.value;
                  && r.db.drivers.Keys == db.drivers.Keys
                  && Load(r.db.drivers[did]) == Load(db.drivers[did]) - ReleasedSeats(req)
                  && r.db.drivers[did].isAvailable
                  && r.db.drivers[did].capacity == db.drivers[did].capacity
                  && r.db.drivers[did].status == db.drivers[did].status
                  && r.db.drivers[did].displayName == db.drivers[did].displayName
                  && r.db.drivers[did].pauseReason == db.drivers[did].pauseReason
                  && (forall id :: id in db.drivers && id != did ==> r.db.drivers[id] == db.drivers[id])))
  {
  }

  /**
   * Completing the same trip twice releases its seats twice: the driver ends
   * `2 * passengerCount` lower, below zero if it carried only this trip.
   */
  lemma CompleteTripTwiceReleasesTwice(db: Db, rid: RequestId)
    requires rid in db.requests && HasDriver(db.requests[rid])
    requires db.requests[rid].driverId.value in db.drivers
    ensures var did := db.requests[rid].driverId.value;
      var seats := ReleasedSeats(db.requests[rid]);
      var twice := CompleteTripStep(CompleteTripStep(db, rid).db, rid);
      && twice.outcome == TripCompleted
      && twice.db.requests[rid].status == Completed
      && Load(twice.db.drivers[did]) == Load(db.drivers[did]) - 2 * seats
      && (seats > 0 && Load(db.drivers[did]) == seats ==> Load(twice.db.drivers[did]) < 0)
  {
    var did := db.requests[rid].driverId.value;
    var once := CompleteTripStep(db, rid);
    CompleteTripEffect(db, rid);
    assert once.db.requests[rid] == db.requests[rid].(status := Completed);
    CompleteTripEffect(once.db, rid);
  }
}
