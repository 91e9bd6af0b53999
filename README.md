# Smart-Tram ride dispatch, modelled in Dafny

This project models the dispatch logic of the Smart-Tram backend's Cloud Functions
(`diver/functions/index.js`). The functions share three Firestore collections:
`drivers`, `ride_requests` and `users`. The model keeps them in memory as maps of
records and runs each handler as one atomic step on them:

- **Driver assignment** (`assignDriverToRequest`). This runs for a request that is
  still `pending`. It reads the drivers that are `online` and `isAvailable`, then
  scans them in query order for the first one where
  `(currentPassengers || 0) + passengerCount <= (capacity || 10)`. It then commits
  the request (now `accepted`, with the driver's id and name) and the driver (a new
  passenger total, available only while under capacity) in one transaction. If no
  driver fits, the request becomes `no_drivers_available`. The transaction re-reads
  the driver but does not test its room again.
- **Lifecycle endpoints**:
  - `cancelRequest` cancels only a pending request.
  - `confirmPickup` sets `on_trip` with no guard.
  - `completeTrip` sets `completed` with no guard. It then gives the request's seats
    back to its driver and marks that driver available.
- **Disruption cleanup** (`onDriverStatusUpdate`). When a driver goes from `online`
  to `offline` or `paused`, every `accepted` or `on_trip` request naming that driver
  becomes `cancelled_by_driver`, with the pause reason attached. Seats are not given
  back, and `driverId` is not cleared.
- **OTP verification** (`verifyOtp`). The checks run in this order: signed in, then
  a six-character string, then the user exists, then the codes are equal, then the
  code has not expired. On success the user is marked verified and the stored code
  and expiry are deleted.

Layout:
- `records.dfy` (module `Records`) holds the documents and the JavaScript fall-backs (`|| 0`, `|| 10`, `|| 'คนขับ'`, `increment`).
- `matching.dfy` (module `Matching`) holds assignment.
- `lifecycle.dfy` (module `Lifecycle`) holds the three endpoints.
- `disruption.dfy` (module `Disruption`) holds the status trigger.
- `otp.dfy` (module `Otp`) holds OTP verification.
- `store.dfy` (module `Store`) holds the class `DispatchStore`. Its map fields are the collections, and it has one method per handler. Each method is proved to change the fields exactly as the pure `...Step` function of its module says. The lemmas are stated about those functions.

The model follows the code in `index.js`, not the project's design intent, wherever the two differ:
- A driver is chosen by first fit in query order. There is no distance or nearest-driver rule.
- There is no retry loop in assignment, and there is no re-validation at commit.
- Disruption cleanup cancels trips rather than requeueing them, and it releases no seats.
- Passenger counts are never clamped, so they can go negative or above capacity.
- Pickup and completion have no status guard.
- There is no proximity-based completion.

So no lemma claims the load/capacity invariant. Several lemmas instead show how it breaks:
- two stale commits overbook a driver;
- a second completion releases seats again;
- cleanup strands seats.

## Model

| member | source | states |
|---|---|---|
| Matching.AvailableSnapshot | diver/functions/index.js:333-336 | The drivers snapshot holds only online, available driver records as stored, and every such driver that the query order lists is in it |
| Matching.FirstFit | diver/functions/index.js:347-356 | The scan stops at a position whose driver passes the seat test, and no earlier driver passes it; it finds nothing exactly when no driver in the snapshot passes |
| Matching.FindFirstFit | diver/functions/index.js:345-356 | The `for ... break` loop returns the first fitting position (or none), as FirstFit characterises it |
| Matching.AssignOnlyPending | diver/functions/index.js:326-329 | A request that is not pending is skipped and no record changes |
| Matching.SnapshotScanIsFirstEligible | diver/functions/index.js:333-356 | Scanning the snapshot stops at the first driver in query order that is online, available and has room (the reference definition FirstEligible over the query order) |
| Matching.FirstEligibleAt | diver/functions/index.js:347-356 | The first position in query order whose driver is eligible is the one the reference definition returns |
| Matching.AssignPicksFirstEligible | diver/functions/index.js:333-356 | For a pending request, the driver assigned is the first in query order that is online, available and has room for the party (missing load read as 0, missing or zero capacity as 10) |
| Matching.AssignNoRoomIff | diver/functions/index.js:333-362 | A pending request gets `no_drivers_available` exactly when no online, available driver has room (an empty snapshot included); then only its status changes and every driver record is unchanged |
| Matching.AssignCommitEffect | diver/functions/index.js:366-387 | On assignment: the request is accepted with the driver's id and name; the driver holds `newTotal = currentPassengers + passengerCount` and `isAvailable = newTotal < capacity`; no other record changes; in one atomic step the driver stays within capacity |
| Matching.StaleCommitOverbooks | diver/functions/index.js:369-386 | The transaction does not re-test the seats: against a driver whose current load no longer leaves room it still accepts the request with that driver, named from the snapshot read. The driver's new load is exactly its fresh load plus the party, so it ends over capacity and unavailable. No other record changes |
| Matching.ConcurrentAssignmentsOverbook | diver/functions/index.js:333-387 | Two requests (3 and 2 seats) that read the same snapshot both pick a driver with 4 seats and commit to 5 passengers; run one after the other, the second would find no room |
| Lifecycle.CancelOutcomes | diver/functions/index.js:183-193 | A missing request is not-found and a non-pending one is rejected, with nothing changed in either case; a pending request becomes `cancelled_by_user` and only its status field changes |
| Lifecycle.CancelTwiceRejected | diver/functions/index.js:188-193 | A second cancellation of the same request is rejected and changes nothing |
| Lifecycle.ConfirmPickupUnguarded | diver/functions/index.js:255-256 | Every existing request becomes `on_trip` whatever its status, and only that field changes; a missing one makes the update fail and nothing changes |
| Lifecycle.CompleteTripEffect | diver/functions/index.js:281-301 | Any existing request becomes `completed`. If it names an existing driver, that driver's passenger count falls by `passengerCount` (1 when missing) and it becomes available, with its capacity, status, name and pause reason kept. With no driver id nothing else changes. With a vanished driver the request is still completed and the driver update fails |
| Lifecycle.CompleteTripTwiceReleasesTwice | diver/functions/index.js:288-300 | Completing the same trip twice lowers the driver by twice the seats, below zero when it carried only that trip |
| Disruption.CollectCancellations | diver/functions/index.js:429-436 | The `forEach` builds a batch with one entry per snapshot request, each the request with `cancelled_by_driver` and the reason |
| Disruption.WentOfflineIsAnEdge | diver/functions/index.js:412 | Cleanup fires only on a status change away from `online` (to `offline` or `paused`), never on a write that keeps the status |
| Disruption.NoEdgeNoChange | diver/functions/index.js:412-414 | Off that edge the handler changes nothing |
| Disruption.CleanupCancelsActiveJobs | diver/functions/index.js:414-438 | On the edge, every accepted/on_trip request of the driver becomes `cancelled_by_driver` with `pauseReason` or the default reason. All other requests and all driver records are unchanged, and afterwards no active request names the driver |
| Disruption.CleanupStrandsSeats | diver/functions/index.js:430-436 | Cleanup releases no seats and keeps `driverId`: a loaded driver keeps its load with no active job left, and each cancelled request still names it |
| Otp.VerifiedIff | diver/functions/index.js:77-96 | Verification succeeds exactly when the caller is signed in, the input is a 6-character string, the user exists, the stored code equals it and `now <= otpExpires` |
| Otp.ChecksInOrder | diver/functions/index.js:77-96 | The sign-in and format checks come before any lookup. The existence check comes before the code comparison, and a wrong code is reported before expiry is looked at |
| Otp.VerifyOtpEffect | diver/functions/index.js:98-103 | Every rejection leaves the store unchanged; success sets the caller's `isVerified` and removes `otp` and `otpExpires`, touching no other record |
| Otp.VerifiedCodeIsSingleUse | diver/functions/index.js:90-103 | Repeating a successful verification is rejected as a wrong code and changes nothing |
| Store.DispatchStore.RunAssignmentTransaction | diver/functions/index.js:369-396 | The transaction and its `catch`: the new collections are those of Matching.Commit on the old ones |
| Store.DispatchStore.AssignDriverToRequest | diver/functions/index.js:320-397 | The handler changes the collections exactly as Matching.AssignStep does on the old state and reports its outcome |
| Store.DispatchStore.CancelRequest | diver/functions/index.js:183-193 | The new collections and the outcome are those of Lifecycle.CancelStep on the old state |
| Store.DispatchStore.ConfirmPickup | diver/functions/index.js:255-256 | The new collections and the outcome are those of Lifecycle.ConfirmPickupStep on the old state |
| Store.DispatchStore.CompleteTrip | diver/functions/index.js:281-301 | The new collections and the outcome are those of Lifecycle.CompleteTripStep on the old state |
| Store.DispatchStore.OnDriverStatusUpdate | diver/functions/index.js:407-440 | The new collections and the outcome are those of Disruption.StatusUpdateStep on the old state |
| Store.DispatchStore.VerifyOtp | diver/functions/index.js:74-103 | The new collections and the outcome are those of Otp.VerifyOtpStep on the old state |

## Left out

- Matching.AvailableSnapshot: its contract states which documents the snapshot holds, not their order. That the order is kept is stated through Matching.SnapshotScanIsFirstEligible and Matching.AssignPicksFirstEligible.
- Query order: the drivers query has no `orderBy`, so Firestore returns its documents in ascending document-id order. The model takes that order as an input, `order`, and every lemma holds for any order, so also for that one. Only one direction of Matching.AssignNoRoomIff assumes that `order` lists every driver (`CoversDrivers`): that `no_drivers_available` implies no driver has room. The other direction needs no assumption: when no driver has room the outcome is `no_drivers_available`.
- Concurrency: Firestore transaction retries and batch atomicity are not modelled. Each handler is one atomic step. The race between two assignments is shown by composing `Select` and `Commit` by hand. The transaction never re-reads the request (index.js:370-380), so an assignment in flight overwrites a concurrent `cancelled_by_user` with `accepted` and still loads the driver. The `no_drivers_available` write (index.js:360) overwrites a concurrent cancellation the same way. The model does not interleave a cancellation into an assignment, so neither overwrite is shown.
- `createRequest` is left out. It checks that fields are present, looks up pickup points and inserts a `pending` record, which is datastore I/O and `Number()` coercion. A `NaN` passenger count is not modelled, and neither is a fractional one, which `Number()` can also produce but the model's `int` does not represent. A missing count is modelled as `None`, which fits no driver.
- `updateDriverLocation` is left out: it only writes a `GeoPoint` and a timestamp.
- `sendOtpOnUserCreated` is left out. It generates the code with `Math.random`, sets the expiry from the server clock and sends email via nodemailer. `now` and `otpExpires` are integer inputs (milliseconds). Sign-in is an optional uid.
- HTTP plumbing is left out: method checks (405), CORS, `req.path` parsing (a missing id gives 400), response bodies and the generic 500 on unexpected errors. Outcomes are result datatypes.
- Errors other than those modelled are left out. The model covers a vanished driver in the assignment transaction, a missing document in `confirmPickup`, and a missing driver in `completeTrip`. Failures of the writes themselves and of the `catch` write are not modelled.
- Driver `status` values other than `online`, `offline` and `paused`, and non-string ids, are not represented.
- String lengths are counted in Unicode scalar values. JavaScript counts UTF-16 code units, so the two can differ for a 6-character OTP outside the Basic Multilingual Plane.
- Fields the core never reads are left out: pickup and drop-off points, `userId`, `createdAt`, `lastUpdate` and `currentLocation`. Assignment writes `driverInfo` as a whole new map holding only `name` (index.js:379), so the model represents `driverInfo` by that one field, `driverName`.
