/**
 * Driver assignment (`assignDriverToRequest`): when a ride request is created
 * pending, read the drivers that are online and available, take the first one in
 * query order with room for the party, and commit the request and the driver
 * together in one transaction. The transaction re-reads the driver but does not
 * re-check its room.
 */
module Matching {
  import opened Records

  /** The snapshot query: `status == 'online'` and `isAvailable == true`. */
  predicate Queryable(d: Driver)
  {
    d.status == Online && d.isAvailable
  }

  /**
   * The seat test `(currentPassengers || 0) + passengerCount <= (capacity || 10)`.
   * A request without a passenger count makes the sum NaN, which fits no driver.
   */
  predicate Fits(d: Driver, passengerCount: Option<int>)
  {
    passengerCount.Some? && Load(d) + passengerCount.value <= Capacity(d)
  }

  /** A driver the handler could pick: a document the query returns that passes the seat test. */
  predicate Eligible(drivers: map<DriverId, Driver>, id: DriverId, passengerCount: Option<int>)
  {
    id in drivers && Queryable(drivers[id]) && Fits(drivers[id], passengerCount)
  }

  /** One document of a query result. */
  datatype DriverDoc = DriverDoc(id: DriverId, data: Driver)

  /** `order` lists, in the datastore's query order, every driver document there is. */
  predicate CoversDrivers(drivers: map<DriverId, Driver>, order: seq<DriverId>)
  {
    forall id :: id in drivers ==> id in order
  }

  /**
   * The result of the drivers query, in the order `order` gives: exactly the
   * online, available driver documents.
   */
  function AvailableSnapshot(drivers: map<DriverId, Driver>, order: seq<DriverId>): (snap: seq<DriverDoc>)
    ensures forall k :: 0 <= k < |snap| ==>
      snap[k].id in drivers && snap[k].data == drivers[snap[k].id] && Queryable(snap[k].data)
    ensures forall id :: id in order && id in drivers && Queryable(drivers[id]) ==>
      DriverDoc(id, drivers[id]) in snap
  {
    if order == [] then []
    else
      var rest := AvailableSnapshot(drivers, order[1..]);
      assert forall id :: id in order && id != order[0] ==> id in order[1..];
      if order[0] in drivers && Queryable(drivers[order[0]]) then
        [DriverDoc(order[0], drivers[order[0]])] + rest
      else
        rest
  }

  /** The position at which the source's `for ... break` scan stops, if any. */
  function FirstFit(snap: seq<DriverDoc>, passengerCount: Option<int>): (r: Option<nat>)
    ensures r.Some? ==> r.value < |snap| && Fits(snap[r.value].data, passengerCount)
    ensures r.Some? ==> forall j :: 0 <= j < r.value ==> !Fits(snap[j].data, passengerCount)
    ensures r.None? <==> forall j :: 0 <= j < |snap| ==> !Fits(snap[j].data, passengerCount)
  {
    if snap == [] then None
    else if Fits(snap[0].data, passengerCount) then Some(0)
    else
      match FirstFit(snap[1..], passengerCount)
      case None => None
      case Some(k) => Some(k + 1)
  }

  /** The scan over the snapshot, with its early `break`. */
  method FindFirstFit(snap: seq<DriverDoc>, passengerCount: Option<int>) returns (chosen: Option<nat>)
    ensures chosen == FirstFit(snap, passengerCount)
  {
    chosen := None;
    var i := 0;
    while i < |snap|
      invariant 0 <= i <= |snap|
      invariant forall j :: 0 <= j < i ==> !Fits(snap[j].data, passengerCount)
    {
      if Fits(snap[i].data, passengerCount) {
        chosen := Some(i);
        break;
      }
      i := i + 1;
    }
  }

  /** What the handler decides before its transaction. */
  datatype Selection =
    | NotPending
    | NoDriversOnline
    | NoDriverFits
    | Chosen(driver: DriverDoc, passengerCount: int)

  function Select(db: Db, rid: RequestId, order: seq<DriverId>): Selection
    requires rid in db.requests
  {
    var req := db.requests[rid];
    if req.status != Pending then NotPending
    else
      var snap := AvailableSnapshot(db.drivers, order);
      if snap == [] then NoDriversOnline
      else
        match FirstFit(snap, req.passengerCount)
        case None => NoDriverFits
        case Some(k) => Chosen(snap[k], req.passengerCount.value)
  }

  datatype AssignOutcome = Skipped | NoneAvailable | Assigned(driverId: DriverId) | Failed

  /** `snap.ref.update({ status: 'no_drivers_available' })` */
  function MarkNoDrivers(db: Db, rid: RequestId): Step<AssignOutcome>
    requires rid in db.requests
  {
    Step(db.(requests := db.requests[rid := db.requests[rid].(status := NoDriversAvailable)]), NoneAvailable)
  }

  /**
   * The transaction: re-read the chosen driver, add the party to its fresh
   * passenger count without re-testing it, accept the request and write both.
   * The driver's name comes from the snapshot read. A driver document that has
   * gone makes the transaction throw, and the handler then marks the request
   * `failed_assignment`.
   */
  function Commit(db: Db, rid: RequestId, chosen: DriverDoc, passengerCount: int): Step<AssignOutcome>
    requires rid in db.requests
  {
    if chosen.id !in db.drivers then
      Step(db.(requests := db.requests[rid := db.requests[rid].(status := FailedAssignment)]), Failed)
    else
      var current := db.drivers[chosen.id];
      var total := Load(current) + passengerCount;
      var accepted := db.requests[rid].(status := Accepted, driverId := Some(chosen.id),
                                        driverName := Some(StringOr(chosen.data.displayName, DefaultDriverName)));
      var loaded := current.(currentPassengers := Some(total), isAvailable := total < Capacity(current));
      Step(db.(requests := db.requests[rid := accepted], drivers := db.drivers[chosen.id := loaded]), Assigned(chosen.id))
  }

  /** The whole handler as one atomic step on the datastore. */
  function AssignStep(db: Db, rid: RequestId, order: seq<DriverId>): Step<AssignOutcome>
    requires rid in db.requests
  {
    match Select(db, rid, order)
    case NotPending => Step(db, Skipped)
    case NoDriversOnline => MarkNoDrivers(db, rid)
    case NoDriverFits => MarkNoDrivers(db, rid)
    case Chosen(doc, n) => Commit(db, rid, doc, n)
  }

  /** A request that is not pending is left alone, and so is everything else. */
  lemma AssignOnlyPending(db: Db, rid: RequestId, order: seq<DriverId>)
    requires rid in db.requests && db.requests[rid].status != Pending
    ensures AssignStep(db, rid, order) == Step(db, Skipped)
  {
  }

  /** Reference definition: the first driver id in query order that the handler could pick. */
  function FirstEligible(drivers: map<DriverId, Driver>, order: seq<DriverId>, passengerCount: Option<int>)
    : Option<DriverId>
  {
    if order == [] then None
    else if Eligible(drivers, order[0], passengerCount) then Some(order[0])
    else FirstEligible(drivers, order[1..], passengerCount)
  }

  /** The id of the document the scan stops at. */
  function ChosenId(snap: seq<DriverDoc>, passengerCount: Option<int>): Option<DriverId>
  {
    match FirstFit(snap, passengerCount)
    case None => None
    case Some(k) => Some(snap[k].id)
  }

  /** The scan passes over a first document without room. */
  lemma ChosenIdSkips(d: DriverDoc, rest: seq<DriverDoc>, passengerCount: Option<int>)
    requires !Fits(d.data, passengerCount)
    ensures ChosenId([d] + rest, passengerCount) == ChosenId(rest, passengerCount)
  {
    assert ([d] + rest)[1..] == rest;
  }

  /** Scanning the snapshot picks the first eligible driver of the query order. */
  lemma {:induction false} SnapshotScanIsFirstEligible(drivers: map<DriverId, Driver>, order: seq<DriverId>,
                                                       passengerCount: Option<int>)
    ensures ChosenId(AvailableSnapshot(drivers, order), passengerCount) == FirstEligible(drivers, order, passengerCount)
  {
    if order != [] {
      var head := order[0];
      var rest := AvailableSnapshot(drivers, order[1..]);
      SnapshotScanIsFirstEligible(drivers, order[1..], passengerCount);
      if head in drivers && Queryable(drivers[head]) {
        var doc := DriverDoc(head, drivers[head]);
        assert AvailableSnapshot(drivers, order) == [doc] + rest;
        if !Fits(drivers[head], passengerCount) {
          ChosenIdSkips(doc, rest, passengerCount);
        }
      }
    }
  }

  /** The reference definition finds the first position whose driver is eligible. */
  lemma {:induction false} FirstEligibleAt(drivers: map<DriverId, Driver>, order: seq<DriverId>,
                                           passengerCount: Option<int>, p: nat)
    requires p < |order| && Eligible(drivers, order[p], passengerCount)
    requires forall q :: 0 <= q < p ==> !Eligible(drivers, order[q], passengerCount)
    ensures FirstEligible(drivers, order, passengerCount) == Some(order[p])
  {
    if p > 0 {
      assert !Eligible(drivers, order[0], passengerCount);
      assert forall q :: 0 <= q < p - 1 ==> order[1..][q] == order[q + 1];
      FirstEligibleAt(drivers, order[1..], passengerCount, p - 1);
    }
  }

  /**
   * First fit, stated on the datastore: if the driver at position `p` of the query
   * order is the first one online, available and with room, it is the one assigned.
   */
  lemma AssignPicksFirstEligible(db: Db, rid: RequestId, order: seq<DriverId>, p: nat)
    requires rid in db.requests && db.requests[rid].status == Pending
    requires p < |order| && Eligible(db.drivers, order[p], db.requests[rid].passengerCount)
    requires forall q :: 0 <= q < p ==> !Eligible(db.drivers, order[q], db.requests[rid].passengerCount)
    ensures AssignStep(db, rid, order).outcome == Assigned(order[p])
  {
    FirstEligibleAt(db.drivers, order, db.requests[rid].passengerCount, p);
    SnapshotScanIsFirstEligible(db.drivers, order, db.requests[rid].passengerCount);
  }

  /**
   * When no online, available driver has room (this includes an empty snapshot),
   * the request becomes `no_drivers_available` and no driver record changes; when
   * the query order covers every driver, that is the only way to get that outcome.
   */
  lemma AssignNoRoomIff(db: Db, rid: RequestId, order: seq<DriverId>)
    requires rid in db.requests && db.requests[rid].status == Pending
    requires CoversDrivers(db.drivers, order)
    ensures var r := AssignStep(db, rid, order);
      r.outcome == NoneAvailable <==>
        forall id :: id in db.drivers ==> !Eligible(db.drivers, id, db.requests[rid].passengerCount)
    ensures var r := AssignStep(db, rid, order);
      r.outcome == NoneAvailable ==>
        && r.db.drivers == db.drivers
        && r.db.users == db.users
        && r.db.requests == db.requests[rid := db.requests[rid].(status := NoDriversAvailable)]
  {
  }

  /**
   * A successful assignment: the chosen driver was online, available and had
   * room; the request is accepted with that driver and its name, the driver
   * carries `newTotal = currentPassengers + passengerCount` and stays available
   * only while `newTotal < capacity`; no other record is touched. Since the
   * snapshot and the commit see the same state here, the driver is not overbooked.
   */
  lemma AssignCommitEffect(db: Db, rid: RequestId, order: seq<DriverId>)
    requires rid in db.requests
    ensures var r := AssignStep(db, rid, order);
      r.outcome.Assigned? ==>
        var did := r.outcome.driverId;
        var req := db.requests[rid];
        did in db.drivers && req.status == Pending && req.passengerCount.Some? &&
        var d := db.drivers[did];
        var total := Load(d) + req.passengerCount.value;
        && Queryable(d) && Fits(d, req.passengerCount)
        && r.db.requests == db.requests[rid := req.(status := Accepted, driverId := Some(did),
                                                    driverName := Some(StringOr(d.displayName, DefaultDriverName)))]
        && r.db.drivers == db.drivers[did := d.(currentPassengers := Some(total), isAvailable := total < Capacity(d))]
        && r.db.users == db.users
        && Load(r.db.drivers[did]) <= Capacity(r.db.drivers[did])
  {
  }

  /**
   * The transaction does not re-test the seats: committing against a driver whose
   * fresh passenger count no longer leaves room still accepts the request with that
   * driver (named from the snapshot read), adds the party to the fresh count, and
   * leaves the driver over its capacity and unavailable; no other record changes.
   */
  lemma StaleCommitOverbooks(db: Db, rid: RequestId, chosen: DriverDoc, passengerCount: int)
    requires rid in db.requests && chosen.id in db.drivers
    requires Load(db.drivers[chosen.id]) + passengerCount > Capacity(db.drivers[chosen.id])
    ensures var r := Commit(db, rid, chosen, passengerCount);
      var current := db.drivers[chosen.id];
      && r.outcome == Assigned(chosen.id)
      && r.db.requests == db.requests[rid := db.requests[rid].(status := Accepted, driverId := Some(chosen.id),
                                         driverName := Some(StringOr(chosen.data.displayName, DefaultDriverName)))]
      && r.db.drivers.Keys == db.drivers.Keys
      && Load(r.db.drivers[chosen.id]) == Load(current) + passengerCount
      && Load(r.db.drivers[chosen.id]) > Capacity(r.db.drivers[chosen.id])
      && r.db.drivers[chosen.id].capacity == current.capacity
      && !r.db.drivers[chosen.id].isAvailable
      && (forall id :: id in db.drivers && id != chosen.id ==> r.db.drivers[id] == db.drivers[id])
      && r.db.users == db.users
  {
  }

  /**
   * Two requests created together race for one driver with 4 seats: both
   * handlers read the same snapshot and both pick that driver for 3 and 2
   * passengers; committing both leaves it carrying 5. Run one after the other,
   * the second request would have found no room.
   */
  lemma ConcurrentAssignmentsOverbook()
    ensures
      var driver := Driver(Online, true, Some(0), Some(4), None, None);
      var db := Db(map["d" := driver],
                   map["r1" := RideRequest(Pending, Some(3), None, None, None),
                       "r2" := RideRequest(Pending, Some(2), None, None, None)],
                   map[]);
      var order := ["d"];
      var doc := DriverDoc("d", driver);
      && Select(db, "r1", order) == Chosen(doc, 3)
      && Select(db, "r2", order) == Chosen(doc, 2)
      && var both := Commit(Commit(db, "r1", doc, 3).db, "r2", doc, 2).db;
      && both.requests["r1"].status == Accepted && both.requests["r1"].driverId == Some("d")
      && both.requests["r2"].status == Accepted && both.requests["r2"].driverId == Some("d")
      && Load(both.drivers["d"]) == 5 > Capacity(both.drivers["d"])
      && AssignStep(AssignStep(db, "r1", order).db, "r2", order).outcome == NoneAvailable
  {
    var driver := Driver(Online, true, Some(0), Some(4), None, None);
    var db := Db(map["d" := driver],
                 map["r1" := RideRequest(Pending, Some(3), None, None, None),
                     "r2" := RideRequest(Pending, Some(2), None, None, None)],
                 map[]);
    var order := ["d"];
    var doc := DriverDoc("d", driver);
    assert AvailableSnapshot(db.drivers, order) == [doc];
    var first := AssignStep(db, "r1", order).db;
    assert first.drivers["d"] == driver.(currentPassengers := Some(3), isAvailable := true);
    assert AvailableSnapshot(first.drivers, order) == [DriverDoc("d", first.drivers["d"])];
  }
}
