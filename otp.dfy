/**
 * `verifyOtp`: a callable function that checks the code a signed-in user typed
 * against the one stored on the user's document, in this order: signed in,
 * a six-character string, the user document exists, the codes are equal, the
 * code has not expired. Only when all pass is the user marked verified and the
 * stored code and expiry removed.
 */
module Otp {
  import opened Records

  datatype OtpOutcome =
    | Verified
    | Unauthenticated
    | InvalidFormat
    | UserNotFound
    | WrongOtp
    | Expired
    | InternalError

  /**
   * `!userOtp || typeof userOtp !== "string" || userOtp.length !== 6` is the
   * rejected shape; `None` stands for a missing or non-string `data.otp`.
   */
  predicate WellFormedOtp(input: Option<string>)
  {
    input.Some? && |input.value| == 6
  }

  /**
   * The decision, from the caller's uid (`None` when not signed in), the typed
   * code and the current time in milliseconds. A matching code with no
   * `otpExpires` field makes `otpExpires.toMillis()` throw, which the caller sees
   * as an internal error.
   */
  function OtpDecision(users: map<UserId, User>, auth: Option<UserId>, input: Option<string>, now: int): OtpOutcome
  {
    if auth.None? then Unauthenticated
    else if !WellFormedOtp(input) then InvalidFormat
    else if auth.value !in users then UserNotFound
    else
      var u := users[auth.value];
      if u.otp != input then WrongOtp
      else if u.otpExpires.None? then InternalError
      else if u.otpExpires.value < now then Expired
      else Verified
  }

  /** The user document after a successful check. */
  function MarkVerified(u: User): User
  {
    u.(isVerified := Some(true), otp := None, otpExpires := None)
  }

  function VerifyOtpStep(db: Db, auth: Option<UserId>, input: Option<string>, now: int): Step<OtpOutcome>
  {
    var o := OtpDecision(db.users, auth, input, now);
    if o == Verified then Step(db.(users := db.users[auth.value := MarkVerified(db.users[auth.value])]), Verified)
    else Step(db, o)
  }

  /** Verification succeeds exactly when every check passes; a code is still good at its expiry instant. */
  lemma VerifiedIff(users: map<UserId, User>, auth: Option<UserId>, input: Option<string>, now: int)
    ensures OtpDecision(users, auth, input, now) == Verified <==>
      && auth.Some? && WellFormedOtp(input) && auth.value in users
      && users[auth.value].otp == input
      && users[auth.value].otpExpires.Some? && now <= users[auth.value].otpExpires.value
  {
  }

  /**
   * The checks run in order: the sign-in and format checks read no user record,
   * the existence check reads no code, and the code comparison comes before the
   * expiry, so a wrong code is reported as wrong even when it has expired.
   */
  lemma ChecksInOrder(users: map<UserId, User>, other: map<UserId, User>, auth: Option<UserId>,
                      input: Option<string>, now: int, later: int)
    ensures auth.None? || !WellFormedOtp(input) ==>
      OtpDecision(users, auth, input, now) == OtpDecision(other, auth, input, later)
    ensures auth.Some? && WellFormedOtp(input) && auth.value !in users ==>
      OtpDecision(users, auth, input, now) == UserNotFound
    ensures auth.Some? && WellFormedOtp(input) && auth.value in users && users[auth.value].otp != input ==>
      OtpDecision(users, auth, input, now) == WrongOtp && OtpDecision(users, auth, input, later) == WrongOtp
    ensures auth.Some? && WellFormedOtp(input) && auth.value in users && users[auth.value].otp == input
            && users[auth.value].otpExpires.Some? && users[auth.value].otpExpires.value < now ==>
      OtpDecision(users, auth, input, now) == Expired
  {
  }

  /**
   * Every rejection leaves the datastore as it was; success changes only the
   * caller's user record, setting `isVerified` and removing `otp` and `otpExpires`.
   */
  lemma VerifyOtpEffect(db: Db, auth: Option<UserId>, input: Option<string>, now: int)
    ensures var r := VerifyOtpStep(db, auth, input, now);
      && r.outcome == OtpDecision(db.users, auth, input, now)
      && (r.outcome != Verified ==> r.db == db)
      && (r.outcome == Verified ==>
            var uid := auth.value;
            && uid in db.users
            && r.db.users[uid].isVerified == Some(true)
            && r.db.users[uid].otp.None? && r.db.users[uid].otpExpires.None?
            && r.db.users.Keys == db.users.Keys
            && (forall id :: id in db.users && id != uid ==> r.db.users[id] == db.users[id])
            && r.db.drivers == db.drivers && r.db.requests == db.requests)
  {
  }

  /** A code works once: repeating a successful call is rejected as a wrong code and changes nothing. */
  lemma VerifiedCodeIsSingleUse(db: Db, auth: Option<UserId>, input: Option<string>, now: int, later: int)
    requires VerifyOtpStep(db, auth, input, now).outcome == Verified
    ensures var once := VerifyOtpStep(db, auth, input, now).db;
      VerifyOtpStep(once, auth, input, later) == Step(once, WrongOtp)
  {
  }
}
