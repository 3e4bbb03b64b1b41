/**
 * The server's one-time-passcode store and its two endpoints, `/send-otp` and
 * `/verify-otp`.
 *
 * The store maps an email address to the last code issued for it and the
 * instant (milliseconds since the epoch) after which that code is dead.
 * Issuing overwrites; verifying checks, in this order, that a record exists,
 * that it has not expired (strictly later than `expiresAt`), and that the
 * code matches; a record is removed on expiry and on success and kept on a
 * mismatch. The clock, the generated code and whether the mail transport
 * delivered the message are parameters.
 */
module OtpServer {
  import opened JsValues

  /** How long an issued code stays valid: five minutes, in milliseconds. */
  const OtpLifetimeMs: int := 5 * 60 * 1000

  datatype OtpRecord = OtpRecord(otp: string, expiresAt: int)

  type Store = map<string, OtpRecord>

  /** What `/send-otp` answers. */
  datatype SendOutcome = EmailRequired | OtpSent | SendFailed
  {
    function Status(): int
    {
      match this
      case EmailRequired => 400
      case OtpSent => 200
      case SendFailed => 500
    }

    function Message(): string
    {
      match this
      case EmailRequired => "Email is required"
      case OtpSent => "OTP sent successfully"
      case SendFailed => "Failed to send OTP"
    }
  }

  /** What `/verify-otp` answers. */
  datatype VerifyOutcome = NoOtpRequest | OtpExpired | InvalidOtp | OtpVerified
  {
    function Status(): int
    {
      if this == OtpVerified then 200 else 400
    }

    function Message(): string
    {
      match this
      case NoOtpRequest => "No OTP request found for this email."
      case OtpExpired => "OTP has expired. Please request a new one."
      case InvalidOtp => "Invalid OTP"
      case OtpVerified => "OTP verified successfully"
    }
  }

  /** The answer to one request together with the store it leaves behind. */
  datatype Handled<O> = Handled(outcome: O, records: Store)

  // ---------------------------------------------------------------------------
  // The store transitions as functions of the old store
  // ---------------------------------------------------------------------------

  /** Issuing a code for `email` at time `now`: that email's entry becomes the new code, every other entry stays. */
  function IssueStep(records: Store, email: string, code: string, now: int): (s: Store)
    ensures email in s && s[email].otp == code && s[email].expiresAt == now + 300000
    ensures forall k :: k != email ==> (k in s <==> k in records)
    ensures forall k :: k in records && k != email ==> s[k] == records[k]
  {
    records[email := OtpRecord(code, now + OtpLifetimeMs)]
  }

  /**
   * `/send-otp`: a falsy email is refused and the store is untouched;
   * otherwise the code is stored first and the answer depends only on
   * whether the mail was delivered (a failed delivery keeps the code).
   */
  function SendStep(records: Store, email: Option<string>, code: string, now: int, delivered: bool): (h: Handled<SendOutcome>)
    ensures h.outcome == EmailRequired <==> !StringTruthy(email)
    ensures h.outcome == OtpSent <==> StringTruthy(email) && delivered
    ensures !StringTruthy(email) ==> h.records == records
    ensures StringTruthy(email) ==> h.records == IssueStep(records, email.value, code, now)
  {
    if !StringTruthy(email) then Handled(EmailRequired, records)
    else Handled(if delivered then OtpSent else SendFailed, IssueStep(records, email.value, code, now))
  }

  /**
   * `/verify-otp` for the property key `key` (the submitted email as a
   * string), with the submitted code `otp` (absent when the field is missing)
   * at time `now`.
   */
  function VerifyStep(records: Store, key: string, otp: Option<string>, now: int): (h: Handled<VerifyOutcome>)
    ensures h.outcome == NoOtpRequest <==> key !in records
    ensures h.outcome == OtpExpired <==> key in records && now > records[key].expiresAt
    ensures h.outcome == InvalidOtp <==> key in records && now <= records[key].expiresAt && otp != Some(records[key].otp)
    ensures h.outcome == OtpVerified <==> key in records && now <= records[key].expiresAt && otp == Some(records[key].otp)
    ensures h.outcome in {OtpExpired, OtpVerified} ==> h.records.Keys == records.Keys - {key}
    ensures forall k :: k in h.records ==> k in records && h.records[k] == records[k]
    ensures h.outcome in {NoOtpRequest, InvalidOtp} ==> h.records == records
  {
    if key !in records then Handled(NoOtpRequest, records)
    else if now > records[key].expiresAt then Handled(OtpExpired, records - {key})
    else if otp != Some(records[key].otp) then Handled(InvalidOtp, records)
    else Handled(OtpVerified, records - {key})
  }

  // ---------------------------------------------------------------------------
  // The store as the server holds it: one mutable object
  // ---------------------------------------------------------------------------

  class OtpService {
    var records: Store

    constructor ()
      ensures records == map[]
    {
      records := map[];
    }

    /** The store half of `generateAndSendOTP`: overwrite the email's entry with a code that expires in five minutes. */
    method Issue(email: string, code: string, now: int)
      modifies this
      ensures records == IssueStep(old(records), email, code, now)
      ensures records[email] == OtpRecord(code, now + OtpLifetimeMs)
    {
      records := records[email := OtpRecord(code, now + OtpLifetimeMs)];
    }

    /** The `/send-otp` handler; `delivered` is whether the mail transport accepted the message. */
    method SendOtp(email: Option<string>, code: string, now: int, delivered: bool) returns (outcome: SendOutcome)
      modifies this
      ensures Handled(outcome, records) == SendStep(old(records), email, code, now, delivered)
      ensures !StringTruthy(email) ==> records == old(records)
    {
      if !StringTruthy(email) {
        return EmailRequired;
      }
      Issue(email.value, code, now);
      outcome := if delivered then OtpSent else SendFailed;
    }

    /** The `/verify-otp` handler. */
    method VerifyOtp(email: Option<string>, otp: Option<string>, now: int) returns (outcome: VerifyOutcome)
      modifies this
      ensures Handled(outcome, records) == VerifyStep(old(records), ToJsString(email), otp, now)
    {
      var key := ToJsString(email);
      if key !in records {
        return NoOtpRequest;
      }
      var stored := records[key];
      if now > stored.expiresAt {
        records := records - {key};
        return OtpExpired;
      }
      if Some(stored.otp) != otp {
        return InvalidOtp;
      }
      records := records - {key};
      outcome := OtpVerified;
    }
  }

  // ---------------------------------------------------------------------------
  // Properties of single steps
  // ---------------------------------------------------------------------------

  /** A code is live up to and including `now == expiresAt`: verifying it then succeeds and consumes it. */
  lemma VerifyAtExpiryInstant(records: Store, email: string, code: string, issuedAt: int)
    ensures var issued := IssueStep(records, email, code, issuedAt);
      var h := VerifyStep(issued, email, Some(code), issuedAt + OtpLifetimeMs);
      h.outcome == OtpVerified && email !in h.records
  {
  }

  /** One millisecond after `expiresAt` the code is dead whatever is submitted, and the record is gone. */
  lemma VerifyAfterExpiry(records: Store, email: string, code: string, issuedAt: int, otp: Option<string>, now: int)
    requires now > issuedAt + OtpLifetimeMs
    ensures var issued := IssueStep(records, email, code, issuedAt);
      var h := VerifyStep(issued, email, otp, now);
      h.outcome == OtpExpired && email !in h.records
      && VerifyStep(h.records, email, Some(code), now).outcome == NoOtpRequest
  {
  }

  /** A successful verification consumes the record: the next one for the same email finds nothing. */
  lemma VerifySingleUse(records: Store, key: string, otp: Option<string>, now: int, otp': Option<string>, now': int)
    requires VerifyStep(records, key, otp, now).outcome == OtpVerified
    ensures VerifyStep(VerifyStep(records, key, otp, now).records, key, otp', now').outcome == NoOtpRequest
  {
  }

  /** A wrong code leaves the record in place, so the right code still works at any time up to expiry. */
  lemma MismatchKeepsRecord(records: Store, email: string, code: string, issuedAt: int, wrong: Option<string>, now: int, now': int)
    requires wrong != Some(code)
    requires now <= issuedAt + OtpLifetimeMs && now' <= issuedAt + OtpLifetimeMs
    ensures var issued := IssueStep(records, email, code, issuedAt);
      var h := VerifyStep(issued, email, wrong, now);
      h.outcome == InvalidOtp && h.records == issued
      && VerifyStep(h.records, email, Some(code), now').outcome == OtpVerified
  {
  }

  /** Re-sending replaces the previous code: only the newest one is accepted. */
  lemma ResendReplacesCode(records: Store, email: string, first: string, second: string, t1: int, t2: int, now: int)
    requires first != second
    requires now <= t2 + OtpLifetimeMs
    ensures var s := IssueStep(IssueStep(records, email, first, t1), email, second, t2);
      VerifyStep(s, email, Some(first), now).outcome == InvalidOtp
      && VerifyStep(s, email, Some(second), now).outcome == OtpVerified
  {
  }

  // ---------------------------------------------------------------------------
  // Whole request sequences
  // ---------------------------------------------------------------------------

  datatype Request =
    | SendOtpRequest(email: Option<string>, code: string, now: int, delivered: bool)
    | VerifyOtpRequest(email: Option<string>, otp: Option<string>, now: int)

  datatype Reply = Sent(send: SendOutcome) | Checked(verify: VerifyOutcome)

  datatype Trace = Trace(replies: seq<Reply>, records: Store)

  function Handle(records: Store, req: Request): Handled<Reply>
  {
    match req
    case SendOtpRequest(email, code, now, delivered) =>
      var h := SendStep(records, email, code, now, delivered);
      Handled(Sent(h.outcome), h.records)
    case VerifyOtpRequest(email, otp, now) =>
      var h := VerifyStep(records, ToJsString(email), otp, now);
      Handled(Checked(h.outcome), h.records)
  }

  /** The server answering `reqs` one after another, starting from `records`. */
  function Serve(records: Store, reqs: seq<Request>): (t: Trace)
    ensures |t.replies| == |reqs|
  {
    if reqs == [] then Trace([], records)
    else
      var before := Serve(records, reqs[..|reqs| - 1]);
      var last := Handle(before.records, reqs[|reqs| - 1]);
      Trace(before.replies + [last.outcome], last.records)
  }

  predicate IssuesTo(key: string, req: Request)
  {
    req.SendOtpRequest? && StringTruthy(req.email) && req.email.value == key
  }

  predicate VerifiedFor(key: string, req: Request, reply: Reply)
  {
    req.VerifyOtpRequest? && ToJsString(req.email) == key && reply == Checked(OtpVerified)
  }

  /** How many of `reqs` store a code for `key`. */
  function IssueCount(key: string, reqs: seq<Request>): nat
  {
    if reqs == [] then 0
    else IssueCount(key, reqs[..|reqs| - 1]) + (if IssuesTo(key, reqs[|reqs| - 1]) then 1 else 0)
  }

  /** How many of `reqs` were answered "OTP verified successfully" for `key`. */
  function SuccessCount(key: string, reqs: seq<Request>, replies: seq<Reply>): nat
    requires |replies| == |reqs|
  {
    if reqs == [] then 0
    else
      var n := |reqs| - 1;
      SuccessCount(key, reqs[..n], replies[..n]) + (if VerifiedFor(key, reqs[n], replies[n]) then 1 else 0)
  }

  /**
   * Single use: over any sequence of requests, the successful verifications
   * for an email plus the record still pending for it never exceed the codes
   * issued for it (counting one already pending at the start).
   */
  lemma {:induction false} SuccessesBoundedByIssues(records: Store, reqs: seq<Request>, key: string)
    ensures var t := Serve(records, reqs);
      SuccessCount(key, reqs, t.replies) + (if key in t.records then 1 else 0)
      <= IssueCount(key, reqs) + (if key in records then 1 else 0)
  {
    if reqs != [] {
      var n := |reqs| - 1;
      var before := Serve(records, reqs[..n]);
      SuccessesBoundedByIssues(records, reqs[..n], key);
      var t := Serve(records, reqs);
      assert t.replies[..n] == before.replies;
      assert reqs[..n] == reqs[..n][..n];
    }
  }

  /** Starting from the empty store, an email for which no code was ever issued is never verified. */
  lemma NoSuccessWithoutIssue(reqs: seq<Request>, key: string)
    requires IssueCount(key, reqs) == 0
    ensures SuccessCount(key, reqs, Serve(map[], reqs).replies) == 0
  {
    SuccessesBoundedByIssues(map[], reqs, key);
  }

  /** Issue once, verify twice with the right code in time: exactly one success. */
  lemma IssueThenVerifyTwice(email: string, code: string, t0: int, t1: int, t2: int)
    requires email != ""
    requires t0 <= t1 <= t0 + OtpLifetimeMs
    ensures var reqs := [SendOtpRequest(Some(email), code, t0, true),
                         VerifyOtpRequest(Some(email), Some(code), t1),
                         VerifyOtpRequest(Some(email), Some(code), t2)];
      Serve(map[], reqs).replies == [Sent(OtpSent), Checked(OtpVerified), Checked(NoOtpRequest)]
  {
    var reqs := [SendOtpRequest(Some(email), code, t0, true),
                 VerifyOtpRequest(Some(email), Some(code), t1),
                 VerifyOtpRequest(Some(email), Some(code), t2)];
    var s1 := IssueStep(map[], email, code, t0);
    assert reqs[..1][..0] == [];
    assert Serve(map[], reqs[..1]) == Trace([Sent(OtpSent)], s1);
    assert reqs[..2][..1] == reqs[..1];
    assert Serve(map[], reqs[..2]) == Trace([Sent(OtpSent), Checked(OtpVerified)], map[]);
  }

  // ---------------------------------------------------------------------------
  // The lookup as written: `otpStore` is a plain object literal
  // ---------------------------------------------------------------------------

  /** Names that every plain object inherits from `Object.prototype`. */
  const ObjectPrototypeMembers: set<string> := {
    "constructor", "__proto__", "hasOwnProperty", "isPrototypeOf", "propertyIsEnumerable",
    "toString", "toLocaleString", "valueOf",
    "__defineGetter__", "__defineSetter__", "__lookupGetter__", "__lookupSetter__"
  }

  /**
   * `/verify-otp` exactly as the handler reads `otpStore[email]`: for a key
   * with no own entry that names an inherited member, the lookup yields a
   * truthy function (or the prototype itself) whose `otp` and `expiresAt`
   * are `undefined`; `now > undefined` is false, and `undefined !== otp`
   * is false when no `otp` field was sent, so the request is answered as a
   * success.
   */
  function VerifyStepAsWritten(records: Store, key: string, otp: Option<string>, now: int): (h: Handled<VerifyOutcome>)
    ensures key in records || key !in ObjectPrototypeMembers ==> h == VerifyStep(records, key, otp, now)
    ensures key !in records && key in ObjectPrototypeMembers ==> h.records == records && (h.outcome == OtpVerified <==> otp.None?)
  {
    if key in records then VerifyStep(records, key, otp, now)
    else if key in ObjectPrototypeMembers then
      Handled(if otp.None? then OtpVerified else InvalidOtp, records)
    else Handled(NoOtpRequest, records)
  }

  /** With nothing issued, `{"email": "constructor"}` and no `otp` field is answered "OTP verified successfully". */
  lemma VerifyWithoutIssueAsWritten(now: int)
    ensures VerifyStepAsWritten(map[], "constructor", None, now).outcome == OtpVerified
    ensures VerifyStep(map[], "constructor", None, now).outcome == NoOtpRequest
  {
  }
}
