/**
 * Records of the Smart-Tram ride-dispatch backend: the Firestore documents in the
 * `drivers`, `ride_requests` and `users` collections, restricted to the fields the
 * Cloud Functions read or write. A field that a document may lack is an `Option`;
 * the JavaScript fall-backs (`x || default`) are written out as functions below.
 */
module Records {

  datatype Option<T> = None | Some(value: T)

  type DriverId = string
  type RequestId = string
  type UserId = string

  /** The `status` field of a driver document. */
  datatype DriverStatus = Online | Offline | Paused

  /** A document of the `drivers` collection. */
  datatype Driver = Driver(
    status: DriverStatus,
    isAvailable: bool,
    currentPassengers: Option<int>,
    capacity: Option<int>,
    displayName: Option<string>,
    pauseReason: Option<string>)

  /** The `status` field of a ride request. */
  datatype RequestStatus =
    | Pending
    | Accepted
    | OnTrip
    | Completed
    | CancelledByUser
    | CancelledByDriver
    | NoDriversAvailable
    | FailedAssignment

  /**
   * A document of the `ride_requests` collection. `driverName` is the
   * `driverInfo.name` field that assignment writes; pickup and drop-off points
   * and the requesting user are carried by the document but never read here.
   */
  datatype RideRequest = RideRequest(
    status: RequestStatus,
    passengerCount: Option<int>,
    driverId: Option<DriverId>,
    driverName: Option<string>,
    cancellationReason: Option<string>)

  /** A document of the `users` collection; `otpExpires` is in milliseconds. */
  datatype User = User(
    otp: Option<string>,
    otpExpires: Option<int>,
    isVerified: Option<bool>)

  /** The whole datastore as the functions see it. */
  datatype Db = Db(
    drivers: map<DriverId, Driver>,
    requests: map<RequestId, RideRequest>,
    users: map<UserId, User>)

  /** The new datastore after one handler, with what the handler reports. */
  datatype Step<O> = Step(db: Db, outcome: O)

  const DefaultCapacity: int := 10
  const DefaultDriverName: string := "คนขับ"
  const DefaultOfflineReason: string := "คนขับออฟไลน์"
  const DefaultCompletedPassengers: int := 1

  /** `driver.currentPassengers || 0` */
  function Load(d: Driver): int
  {
    match d.currentPassengers
    case None => 0
    case Some(n) => n
  }

  /** `driver.capacity || 10`: a missing capacity and a capacity of 0 both read as 10. */
  function Capacity(d: Driver): int
  {
    match d.capacity
    case None => DefaultCapacity
    case Some(n) => if n == 0 then DefaultCapacity else n
  }

  /** `s || fallback` for an optional string field: a missing or empty string falls back. */
  function StringOr(s: Option<string>, fallback: string): string
  {
    match s
    case None => fallback
    case Some(v) => if v == "" then fallback else v
  }

  /** `FieldValue.increment(delta)`: a missing field counts as 0. */
  function Increment(field: Option<int>, delta: int): Option<int>
  {
    match field
    case None => Some(delta)
    case Some(n) => Some(n + delta)
  }
}
