/**
 * The datastore the Cloud Functions share, as one object holding the `drivers`,
 * `ride_requests` and `users` collections. Each handler is one method that runs
 * as a single atomic step and changes the collections the way the matching
 * `...Step` function says.
 */
module Store {
  import opened Records
  import Matching
  import Lifecycle
  import Disruption
  import Otp

  class DispatchStore {
    var drivers: map<DriverId, Driver>
    var requests: map<RequestId, RideRequest>
    var users: map<UserId, User>

    /** The collections as one value. */
    function State(): Db
      reads this
    {
      Db(drivers, requests, users)
    }

    constructor (init: Db)
      ensures State() == init
    {
      drivers := init.drivers;
      requests := init.requests;
      users := init.users;
    }

    /** `db.runTransaction(...)` for one chosen driver, with the handler's `catch`. */
    method RunAssignmentTransaction(rid: RequestId, chosen: Matching.DriverDoc, passengerCount: int)
      returns (outcome: Matching.AssignOutcome)
      requires rid in requests
      modifies this
      ensures Step(State(), outcome) == Matching.Commit(old(State()), rid, chosen, passengerCount)
    {
      if chosen.id !in drivers {
        requests := requests[rid := requests[rid].(status := FailedAssignment)];
        return Matching.Failed;
      }
      var current := drivers[chosen.id];
      var total := Load(current) + passengerCount;
      requests := requests[rid := requests[rid].(status := Accepted, driverId := Some(chosen.id),
                                                 driverName := Some(StringOr(chosen.data.displayName, DefaultDriverName)))];
      drivers := drivers[chosen.id := current.(currentPassengers := Some(total), isAvailable := total < Capacity(current))];
      outcome := Matching.Assigned(chosen.id);
    }

    /**
     * `assignDriverToRequest`, fired when request `rid` is created; `order` is the
     * order in which the drivers query returns its documents.
     */
    method AssignDriverToRequest(rid: RequestId, order: seq<DriverId>) returns (outcome: Matching.AssignOutcome)
      requires rid in requests
      modifies this
      ensures Step(State(), outcome) == Matching.AssignStep(old(State()), rid, order)
    {
      var req := requests[rid];
      if req.status != Pending {
        return Matching.Skipped;
      }
      var snap := Matching.AvailableSnapshot(drivers, order);
      if snap == [] {
        requests := requests[rid := req.(status := NoDriversAvailable)];
        return Matching.NoneAvailable;
      }
      var k := Matching.FindFirstFit(snap, req.passengerCount);
      if k.None? {
        requests := requests[rid := req.(status := NoDriversAvailable)];
        return Matching.NoneAvailable;
      }
      outcome := RunAssignmentTransaction(rid, snap[k.value], req.passengerCount.value);
    }

    /** `cancelRequest` for request `rid`. */
    method CancelRequest(rid: RequestId) returns (outcome: Lifecycle.CancelOutcome)
      modifies this
      ensures Step(State(), outcome) == Lifecycle.CancelStep(old(State()), rid)
    {
      if rid !in requests {
        return Lifecycle.CancelNotFound;
      }
      if requests[rid].status != Pending {
        return Lifecycle.CancelRejected;
      }
      requests := requests[rid := requests[rid].(status := CancelledByUser)];
      outcome := Lifecycle.Cancelled;
    }

    /** `confirmPickup` for request `rid`. */
    method ConfirmPickup(rid: RequestId) returns (outcome: Lifecycle.PickupOutcome)
      modifies this
      ensures Step(State(), outcome) == Lifecycle.ConfirmPickupStep(old(State()), rid)
    {
      if rid !in requests {
        return Lifecycle.PickupFailed;
      }
      requests := requests[rid := requests[rid].(status := OnTrip)];
      outcome := Lifecycle.PickupConfirmed;
    }

    /** `completeTrip` for request `rid`: the request write, then the driver write. */
    method CompleteTrip(rid: RequestId) returns (outcome: Lifecycle.CompleteOutcome)
      modifies this
      ensures Step(State(), outcome) == Lifecycle.CompleteTripStep(old(State()), rid)
    {
      if rid !in requests {
        return Lifecycle.CompleteNotFound;
      }
      var req := requests[rid];
      requests := requests[rid := req.(status := Completed)];
      if !Lifecycle.HasDriver(req) {
        return Lifecycle.TripCompleted;
      }
      var did := req.driverId.value;
      if did !in drivers {
        return Lifecycle.DriverUpdateFailed;
      }
      var d := drivers[did];
      drivers := drivers[did := d.(currentPassengers := Increment(d.currentPassengers, -Lifecycle.ReleasedSeats(req)),
                                   isAvailable := true)];
      outcome := Lifecycle.TripCompleted;
    }

    /** `onDriverStatusUpdate` for driver `did`, whose document went from `before` to `after`. */
    method OnDriverStatusUpdate(did: DriverId, before: Driver, after: Driver)
      returns (outcome: Disruption.DisruptionOutcome)
      modifies this
      ensures Step(State(), outcome) == Disruption.StatusUpdateStep(old(State()), did, before, after)
    {
      if !Disruption.WentOffline(before.status, after.status) {
        return Disruption.NotWentOffline;
      }
      var reason := StringOr(after.pauseReason, DefaultOfflineReason);
      var jobs := Disruption.ActiveJobs(requests, did);
      if jobs == {} {
        return Disruption.NoActiveJobs;
      }
      var batch := Disruption.CollectCancellations(requests, jobs, reason);
      assert batch == Disruption.CancellationBatch(requests, jobs, reason);
      requests := requests + batch;
      outcome := Disruption.CancelledJobs(jobs);
    }

    /** `verifyOtp` called by `auth` with code `input` at time `now`. */
    method VerifyOtp(auth: Option<UserId>, input: Option<string>, now: int) returns (outcome: Otp.OtpOutcome)
      modifies this
      ensures Step(State(), outcome) == Otp.VerifyOtpStep(old(State()), auth, input, now)
    {
      outcome := Otp.OtpDecision(users, auth, input, now);
      if outcome == Otp.Verified {
        var uid := auth.value;
        users := users[uid := Otp.MarkVerified(users[uid])];
      }
    }
  }
}
