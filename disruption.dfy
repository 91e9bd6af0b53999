/**
 * Driver disruption cleanup (`onDriverStatusUpdate`): on the edge from `online`
 * to `offline` or `paused`, every request that names the driver and is
 * `accepted` or `on_trip` is cancelled by the driver in one batch. The driver
 * keeps its passenger count and the cancelled requests keep their `driverId`.
 */
module Disruption {
  import opened Records

  /** `before.status === 'online' && (after.status === 'offline' || after.status === 'paused')` */
  predicate WentOffline(before: DriverStatus, after: DriverStatus)
  {
    before == Online && (after == Offline || after == Paused)
  }

  /** The request query: `driverId == d` and `status in ['accepted', 'on_trip']`. */
  predicate IsActiveJobOf(r: RideRequest, did: DriverId)
  {
    r.driverId == Some(did) && (r.status == Accepted || r.status == OnTrip)
  }

  /** The ids the request query returns. */
  function ActiveJobs(requests: map<RequestId, RideRequest>, did: DriverId): set<RequestId>
  {
    set id | id in requests && IsActiveJobOf(requests[id], did)
  }

  /** The fields `batch.update` writes on one request. */
  function CancelByDriver(r: RideRequest, reason: string): RideRequest
  {
    r.(status := CancelledByDriver, cancellationReason := Some(reason))
  }

  /** The batch as a map from request id to the record it will hold. */
  function CancellationBatch(requests: map<RequestId, RideRequest>, ids: set<RequestId>, reason: string)
    : map<RequestId, RideRequest>
  {
    map id | id in ids && id in requests :: CancelByDriver(requests[id], reason)
  }

  /** The `forEach` over the query snapshot, adding one update per document to the batch. */
  method CollectCancellations(requests: map<RequestId, RideRequest>, snapshot: set<RequestId>, reason: string)
    returns (batch: map<RequestId, RideRequest>)
    requires snapshot <= requests.Keys
    ensures batch.Keys == snapshot
    ensures forall id :: id in batch ==> batch[id] == CancelByDriver(requests[id], reason)
  {
    batch := map[];
    var todo := snapshot;
    while todo != {}
      invariant todo <= snapshot
      invariant batch.Keys == snapshot - todo
      invariant forall id :: id in batch ==> batch[id] == CancelByDriver(requests[id], reason)
      decreases todo
    {
      var id :| id in todo;
      batch := batch[id := CancelByDriver(requests[id], reason)];
      todo := todo - {id};
    }
  }

  datatype DisruptionOutcome = NotWentOffline | NoActiveJobs | CancelledJobs(ids: set<RequestId>)

  /** The handler; `before` and `after` are the driver document around the write that fired it. */
  function StatusUpdateStep(db: Db, did: DriverId, before: Driver, after: Driver): Step<DisruptionOutcome>
  {
    if !WentOffline(before.status, after.status) then Step(db, NotWentOffline)
    else
      var jobs := ActiveJobs(db.requests, did);
      if jobs == {} then Step(db, NoActiveJobs)
      else
        var reason := StringOr(after.pauseReason, DefaultOfflineReason);
        Step(db.(requests := db.requests + CancellationBatch(db.requests, jobs, reason)), CancelledJobs(jobs))
  }

  /**
   * The trigger reacts to the edge, not the level: it fires only on a status
   * change, leaving `online` for `offline` or `paused`, and a write that leaves
   * the status as it was never fires cleanup.
   */
  lemma WentOfflineIsAnEdge(before: DriverStatus, after: DriverStatus)
    ensures WentOffline(before, after) ==> before == Online && before != after
    ensures !WentOffline(after, after)
  {
  }

  /** Off the edge, nothing changes. */
  lemma NoEdgeNoChange(db: Db, did: DriverId, before: Driver, after: Driver)
    requires !WentOffline(before.status, after.status)
    ensures StatusUpdateStep(db, did, before, after) == Step(db, NotWentOffline)
  {
  }

  /**
   * On the edge, every active job of the driver is cancelled by the driver with
   * `pauseReason` (or the default) as its reason, every other request stays as it
   * was, no active job of the driver remains, and no driver or user record changes.
   */
  lemma CleanupCancelsActiveJobs(db: Db, did: DriverId, before: Driver, after: Driver)
    requires WentOffline(before.status, after.status)
    ensures var r := StatusUpdateStep(db, did, before, after);
      var reason := StringOr(after.pauseReason, DefaultOfflineReason);
      && r.db.requests.Keys == db.requests.Keys
      && (forall id :: id in db.requests && IsActiveJobOf(db.requests[id], did) ==>
            r.db.requests[id] == CancelByDriver(db.requests[id], reason))
      && (forall id :: id in db.requests && !IsActiveJobOf(db.requests[id], did) ==>
            r.db.requests[id] == db.requests[id])
      && (forall id :: id in r.db.requests ==> !IsActiveJobOf(r.db.requests[id], did))
      && r.db.drivers == db.drivers && r.db.users == db.users
      && (r.outcome == NoActiveJobs <==> ActiveJobs(db.requests, did) == {})
  {
    var r := StatusUpdateStep(db, did, before, after);
    var reason := StringOr(after.pauseReason, DefaultOfflineReason);
    forall id | id in r.db.requests
      ensures !IsActiveJobOf(r.db.requests[id], did)
    {
      if IsActiveJobOf(db.requests[id], did) {
        assert id in ActiveJobs(db.requests, did);
        assert r.db.requests[id] == CancelByDriver(db.requests[id], reason);
      }
    }
  }

  /**
   * Cleanup neither releases seats nor clears the assignment: a driver carrying
   * passengers before going offline still carries them afterwards, though no
   * active job names it any more, and each cancelled request still names it.
   */
  lemma CleanupStrandsSeats(db: Db, did: DriverId, before: Driver, after: Driver)
    requires WentOffline(before.status, after.status)
    requires did in db.drivers && Load(db.drivers[did]) > 0
    ensures var r := StatusUpdateStep(db, did, before, after);
      && Load(r.db.drivers[did]) == Load(db.drivers[did]) > 0
      && (forall id :: id in r.db.requests ==> !IsActiveJobOf(r.db.requests[id], did))
      && (forall id :: id in db.requests && IsActiveJobOf(db.requests[id], did) ==>
            r.db.requests[id].status == CancelledByDriver && r.db.requests[id].driverId == Some(did))
  {
    CleanupCancelsActiveJobs(db, did, before, after);
  }
}
