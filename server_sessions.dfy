/** The sign-up and login handlers of server.js (`/api/request-otp`, `/api/get-bearer-token`,
    `/api/register-account`) and the in-memory `sessions` table they share. A session keeps
    the device id sent to the vendor, the phone number of the pending OTP and the bearer
    token supplied at sign-up. */
module ServerSessions {
  import opened JsStrings
  import opened Vendor
  import PhoneFormatter

  datatype Session = Session(deviceId: string, phone: Option<string>, signupBearer: Option<string>)

  /** The record `getSession` creates for a key it has not seen. */
  function NewSession(deviceId: string): Session
  {
    Session(deviceId, None, None)
  }

  /** `sessionId || 'default'`. */
  function SessionKey(sessionId: string): (k: string)
    ensures k != ""
    ensures sessionId != "" ==> k == sessionId
    ensures sessionId == "" ==> k == "default"
  {
    Or(sessionId, "default")
  }

  // ---------------------------------------------------------------------------
  // The session table as a value: what `getSession` returns and what it leaves behind.

  /** The record `getSession(key)` returns. */
  function Lookup(m: map<string, Session>, key: string, freshDeviceId: string): Session
  {
    if key in m then m[key] else NewSession(freshDeviceId)
  }

  /** The table after `getSession(key)`. */
  function GetOrCreate(m: map<string, Session>, key: string, freshDeviceId: string): map<string, Session>
  {
    m[key := Lookup(m, key, freshDeviceId)]
  }

  /** An existing key is returned untouched and the table does not change. */
  lemma GetOrCreateKeepsExisting(m: map<string, Session>, key: string, freshDeviceId: string)
    requires key in m
    ensures Lookup(m, key, freshDeviceId) == m[key]
    ensures GetOrCreate(m, key, freshDeviceId) == m
  {
  }

  /** A new key gets a record with no phone, no sign-up bearer and the fresh device id, and
      every other key keeps its record. */
  lemma GetOrCreateAddsOnlyKey(m: map<string, Session>, key: string, freshDeviceId: string)
    requires key !in m
    ensures GetOrCreate(m, key, freshDeviceId)[key] == Session(freshDeviceId, None, None)
    ensures GetOrCreate(m, key, freshDeviceId).Keys == m.Keys + {key}
    ensures forall k :: k in m ==> GetOrCreate(m, key, freshDeviceId)[k] == m[k]
  {
  }

  /** A second `getSession` for the same key returns the first one's record, whatever device
      id it would have generated. */
  lemma GetOrCreateIdempotent(m: map<string, Session>, key: string, d1: string, d2: string)
    ensures Lookup(GetOrCreate(m, key, d1), key, d2) == Lookup(m, key, d1)
    ensures GetOrCreate(GetOrCreate(m, key, d1), key, d2) == GetOrCreate(m, key, d1)
  {
  }

  // ---------------------------------------------------------------------------
  // Phone numbers

  const PhoneRequired: string := "Phone number is required"
  const PhoneLengthError: string :=
    "Phone number must be 10 digits (e.g., 9308201445). Country code 63 will be added automatically."

  /** Strips every non-digit and puts "63" in front unless the digits already start with it. */
  function ProcessPhone(phone: string): (r: string)
    ensures AllDigits(r) && StartsWith(r, PhoneFormatter.CountryCode)
    ensures var d := DigitsOnly(phone);
      r == (if StartsWith(d, PhoneFormatter.CountryCode) then d else PhoneFormatter.CountryCode + d)
  {
    var d := DigitsOnly(phone);
    if StartsWith(d, PhoneFormatter.CountryCode) then d else PhoneFormatter.CountryCode + d
  }

  /** Processing a processed number changes nothing. */
  lemma ProcessPhoneIdempotent(phone: string)
    ensures ProcessPhone(ProcessPhone(phone)) == ProcessPhone(phone)
  {
  }

  /** The phone checks of `/api/request-otp`: present, and twelve digits once processed. */
  function OtpPhone(phone: string): (r: Result<string, string>)
    ensures phone == "" ==> r == Failure(PhoneRequired)
    ensures phone != "" ==> (r.Success? <==> |ProcessPhone(phone)| == 12)
    ensures r.Success? ==> r.value == ProcessPhone(phone)
    ensures r.Success? ==> |r.value| == 12 && AllDigits(r.value) && StartsWith(r.value, PhoneFormatter.CountryCode)
    ensures r.Failure? && phone != "" ==> r.error == PhoneLengthError
  {
    if phone == "" then Failure(PhoneRequired)
    else
      var p := ProcessPhone(phone);
      if |p| != 12 then Failure(PhoneLengthError) else Success(p)
  }

  /** Every complete number the front end sends passes the server's check unchanged. */
  lemma FrontEndNumberAccepted(value: string)
    requires |PhoneFormatter.FullPhoneNumber(value)| == 12
    ensures OtpPhone(PhoneFormatter.FullPhoneNumber(value)) == Success(PhoneFormatter.FullPhoneNumber(value))
  {
    var f := PhoneFormatter.FullPhoneNumber(value);
    assert AllDigits(f);
    assert DigitsOnly(f) == f;
  }

  /** A ten-digit local number gets the country code. */
  lemma LocalNumberAccepted(d: string)
    requires AllDigits(d) && |d| == 10 && !StartsWith(d, PhoneFormatter.CountryCode)
    ensures OtpPhone(d) == Success(PhoneFormatter.CountryCode + d)
  {
  }

  // ---------------------------------------------------------------------------
  // Answers

  datatype ErrorType = Network | RateLimit | Validation | Unknown

  /** The JSON a handler sends back to the browser. */
  datatype Answer =
    | Succeeded(message: string, bearerToken: Option<string>, newUser: bool)
    | Failed(error: string, errorType: Option<ErrorType>, statusCode: Option<nat>)

  const OtpSent: string := "Verification code sent to your phone!"
  const OtpRequired: string := "OTP code is required"
  const NewUserMessage: string := "OTP verified. Please proceed with registration."
  const TokenMessage: string := "Bearer token retrieved successfully!"
  const FieldsRequired: string := "All fields are required"
  const RegisteredMessage: string := "Account registered successfully!"

  /** The shared tail of the OTP and login handlers: 429, then 422, then anything else. */
  function StatusFailure(r: Reply, onRateLimit: string, onValidation: string, otherwise: string): (a: Answer)
    requires onRateLimit != "" && onValidation != "" && otherwise != ""
    ensures a.Failed? && a.error != ""
    ensures Status(r) == 429 ==> a == Failed(MessageOr(r, onRateLimit), Some(RateLimit), Some(429))
    ensures Status(r) == 422 ==> a == Failed(MessageOr(r, onValidation), Some(Validation), Some(422))
    ensures Status(r) != 429 && Status(r) != 422 ==>
      a == Failed(MessageOr(r, otherwise), Some(Unknown), Some(Status(r)))
  {
    if Status(r) == 429 then Failed(MessageOr(r, onRateLimit), Some(RateLimit), Some(429))
    else if Status(r) == 422 then Failed(MessageOr(r, onValidation), Some(Validation), Some(422))
    else Failed(MessageOr(r, otherwise), Some(Unknown), Some(Status(r)))
  }

  /** The answer of `/api/request-otp` to the vendor's reply. */
  function OtpAnswer(r: Reply): (a: Answer)
    ensures a.Succeeded? <==> ErrorText(r) == "" && IsOkSuccess(r)
    ensures a.Succeeded? ==> a == Succeeded(OtpSent, None, false)
    ensures ErrorText(r) != "" ==> a == Failed(ErrorText(r), Some(Network), None)
    ensures a.Failed? ==> a.error != ""
    ensures a.Failed? && a.errorType != Some(Network) ==> a.statusCode == Some(Status(r))
    ensures ErrorText(r) == "" && !IsOkSuccess(r) ==>
      a == StatusFailure(r, "Please wait a while before requesting a new code.",
                         "Validation error. Please check your input.", "Failed to send OTP")
  {
    if ErrorText(r) != "" then Failed(ErrorText(r), Some(Network), None)
    else if IsOkSuccess(r) then Succeeded(OtpSent, None, false)
    else StatusFailure(r, "Please wait a while before requesting a new code.",
                       "Validation error. Please check your input.", "Failed to send OTP")
  }

  /** The first non-empty string of `xs`, as a chain of `if (a) ... else if (b) ...` picks it. */
  function FirstPresent(xs: seq<string>): (r: Option<string>)
    ensures r.None? <==> forall i :: 0 <= i < |xs| ==> xs[i] == ""
    ensures r.Some? ==> exists i :: 0 <= i < |xs| && xs[i] == r.value && r.value != ""
                         && forall j :: 0 <= j < i ==> xs[j] == ""
  {
    if xs == [] then None
    else if xs[0] != "" then Some(xs[0])
    else
      var r := FirstPresent(xs[1..]);
      assert forall i :: 1 <= i < |xs| ==> xs[i] == xs[1..][i - 1];
      if r.Some? then
        var i :| 0 <= i < |xs[1..]| && xs[1..][i] == r.value && r.value != ""
                 && forall j :: 0 <= j < i ==> xs[1..][j] == "";
        assert xs[i + 1] == r.value;
        r
      else r
  }

  /** The entry picked is the first non-empty one. */
  lemma {:induction false} FirstPresentAt(xs: seq<string>, i: nat)
    requires i < |xs| && xs[i] != ""
    requires forall j :: 0 <= j < i ==> xs[j] == ""
    ensures FirstPresent(xs) == Some(xs[i])
  {
    if i > 0 {
      FirstPresentAt(xs[1..], i - 1);
    }
  }

  function DataToken(b: Body): string
  {
    if b.data.Some? then b.data.value.token else ""
  }

  function DataAccessToken(b: Body): string
  {
    if b.data.Some? then b.data.value.accessToken else ""
  }

  /** The login token: `data.token`, else `token`, else `data.access_token`, else `access_token`. */
  function LoginToken(r: Reply): (t: Option<string>)
    ensures BodyOf(r).None? ==> t.None?
    ensures t.Some? ==> t.value != ""
    ensures BodyOf(r).Some? && DataToken(BodyOf(r).value) != "" ==> t == Some(DataToken(BodyOf(r).value))
  {
    match BodyOf(r)
    case None => None
    case Some(b) => FirstPresent([DataToken(b), b.token, DataAccessToken(b), b.accessToken])
  }

  /** The four token fields are tried in order: a later field is used only when every earlier
      one is empty. */
  lemma LoginTokenOrder(r: Reply)
    requires BodyOf(r).Some?
    ensures var b := BodyOf(r).value;
      && (DataToken(b) == "" && b.token != "" ==> LoginToken(r) == Some(b.token))
      && (DataToken(b) == "" && b.token == "" && DataAccessToken(b) != "" ==> LoginToken(r) == Some(DataAccessToken(b)))
      && (DataToken(b) == "" && b.token == "" && DataAccessToken(b) == "" ==>
            LoginToken(r) == (if b.accessToken != "" then Some(b.accessToken) else None))
  {
    var b := BodyOf(r).value;
    var xs := [DataToken(b), b.token, DataAccessToken(b), b.accessToken];
    if DataToken(b) == "" && b.token != "" {
      FirstPresentAt(xs, 1);
    } else if DataToken(b) == "" && b.token == "" && DataAccessToken(b) != "" {
      FirstPresentAt(xs, 2);
    } else if DataToken(b) == "" && b.token == "" && DataAccessToken(b) == "" && b.accessToken != "" {
      FirstPresentAt(xs, 3);
    }
  }

  /** A 200 reply with `success === false` whose message says the account does not exist. */
  predicate IsNewUserReply(r: Reply)
  {
    && Status(r) == 200
    && BodyOf(r).Some?
    && BodyOf(r).value.success == Some(false)
    && BodyOf(r).value.message != ""
    && (Includes(BodyOf(r).value.message, "account does not exist")
        || Includes(BodyOf(r).value.message, "login account does not exist"))
  }

  /** The answer of `/api/get-bearer-token` to the vendor's reply. */
  function LoginAnswer(r: Reply): (a: Answer)
    ensures ErrorText(r) != "" ==> a == Failed(ErrorText(r), Some(Network), None)
    ensures a.Succeeded? ==> ErrorText(r) == "" && Status(r) == 200
    ensures a.Succeeded? && a.newUser <==> ErrorText(r) == "" && IsNewUserReply(r)
    ensures a.Succeeded? && a.newUser ==> a == Succeeded(NewUserMessage, None, true)
    ensures a.Succeeded? && !a.newUser ==> a.bearerToken == LoginToken(r) && a.bearerToken.Some?
    ensures a.Failed? ==> a.error != ""
    ensures ErrorText(r) == "" && Status(r) == 200 && !IsNewUserReply(r) && LoginToken(r).Some? ==>
      a == Succeeded(TokenMessage, LoginToken(r), false)
    ensures ErrorText(r) == "" && !(Status(r) == 200 && (IsNewUserReply(r) || LoginToken(r).Some?)) ==>
      a == StatusFailure(r, "Rate limit exceeded.", "Invalid OTP code.", "Failed to get bearer token")
  {
    if ErrorText(r) != "" then Failed(ErrorText(r), Some(Network), None)
    else if Status(r) == 200 && IsNewUserReply(r) then Succeeded(NewUserMessage, None, true)
    else if Status(r) == 200 && LoginToken(r).Some? then Succeeded(TokenMessage, LoginToken(r), false)
    else StatusFailure(r, "Rate limit exceeded.", "Invalid OTP code.", "Failed to get bearer token")
  }

  /** Whether the login answer hands over a token, the one case that clears the session. */
  predicate IssuesToken(a: Answer)
  {
    a.Succeeded? && a.bearerToken.Some?
  }

  /** The new-user answer wins over any token in the same reply, and a 200 reply with neither
      falls through to the error answers. */
  lemma LoginNewUserFirst(r: Reply)
    requires ErrorText(r) == ""
    ensures IsNewUserReply(r) ==> !IssuesToken(LoginAnswer(r)) && LoginAnswer(r).newUser
    ensures Status(r) == 200 && !IsNewUserReply(r) && LoginToken(r).None? ==>
      LoginAnswer(r) == Failed(MessageOr(r, "Failed to get bearer token"), Some(Unknown), Some(200))
  {
  }

  /** `data.token || token || null`, the token a registration hands back. */
  function RegisterToken(r: Reply): (t: Option<string>)
    ensures t.Some? ==> t.value != ""
    ensures BodyOf(r).Some? && DataToken(BodyOf(r).value) != "" ==> t == Some(DataToken(BodyOf(r).value))
    ensures BodyOf(r).Some? && DataToken(BodyOf(r).value) == "" && BodyOf(r).value.token != "" ==>
      t == Some(BodyOf(r).value.token)
  {
    match BodyOf(r)
    case None => None
    case Some(b) =>
      if DataToken(b) == "" && b.token != "" then
        FirstPresentAt([DataToken(b), b.token], 1);
        FirstPresent([DataToken(b), b.token])
      else FirstPresent([DataToken(b), b.token])
  }

  /** The answer of `/api/register-account` to the vendor's reply. */
  function RegisterAnswer(r: Reply): (a: Answer)
    ensures a.Succeeded? <==> ErrorText(r) == "" && IsOkSuccess(r)
    ensures a.Succeeded? ==> a == Succeeded(RegisteredMessage, RegisterToken(r), false)
    ensures ErrorText(r) != "" ==> a == Failed(ErrorText(r), Some(Network), None)
    ensures ErrorText(r) == "" && !IsOkSuccess(r) ==>
      a == Failed(MessageOr(r, "Registration failed"), Some(Validation), Some(Status(r)))
  {
    if ErrorText(r) != "" then Failed(ErrorText(r), Some(Network), None)
    else if IsOkSuccess(r) then Succeeded(RegisteredMessage, RegisterToken(r), false)
    else Failed(MessageOr(r, "Registration failed"), Some(Validation), Some(Status(r)))
  }

  // ---------------------------------------------------------------------------
  // The requests the handlers send to the vendor

  datatype OtpRequest = OtpRequest(phone: string, authBearer: string, deviceId: string)
  datatype LoginRequest = LoginRequest(phone: string, code: string, authBearer: string, deviceId: string)
  datatype RegisterRequest = RegisterRequest(
    firstName: string, lastName: string, email: string, dob: string, phone: string,
    dobPrivate: string, authBearer: string, deviceId: string)

  /** The phone the login uses: the given one, processed (without a length check), else the
      one stored by the OTP request. */
  function LoginPhone(phone: string, s: Session): (p: Option<string>)
    ensures phone != "" ==> p == Some(ProcessPhone(phone))
    ensures p.None? <==> phone == "" && (s.phone.None? || s.phone.value == "")
  {
    if phone != "" then Some(ProcessPhone(phone))
    else if s.phone.Some? && s.phone.value != "" then s.phone
    else None
  }

  /** The module-level `sessions` object of the server. */
  class SessionTable {
    var sessions: map<string, Session>

    constructor ()
      ensures sessions == map[]
    {
      sessions := map[];
    }

    /** `getSession`, with the random device id of a new session as a parameter. */
    method GetSession(key: string, freshDeviceId: string) returns (s: Session)
      modifies this
      ensures s == Lookup(old(sessions), key, freshDeviceId)
      ensures sessions == GetOrCreate(old(sessions), key, freshDeviceId)
      ensures key in old(sessions) ==> s == old(sessions)[key] && sessions == old(sessions)
      ensures key !in old(sessions) ==> s == NewSession(freshDeviceId)
    {
      if key !in sessions {
        sessions := sessions[key := NewSession(freshDeviceId)];
      }
      s := sessions[key];
    }

    /** `/api/request-otp`. The phone is checked before the session is touched; then the
        processed phone is always stored, the sign-up bearer only when one was supplied. */
    method RequestOtp(phone: string, bearer: string, sessionId: string, freshDeviceId: string, reply: Reply)
      returns (answer: Answer, sent: Option<OtpRequest>)
      modifies this
      ensures OtpPhone(phone).Failure? ==>
        answer == Failed(OtpPhone(phone).error, None, None) && sent.None? && sessions == old(sessions)
      ensures OtpPhone(phone).Success? ==>
        var p := OtpPhone(phone).value;
        var key := SessionKey(sessionId);
        var s := Lookup(old(sessions), key, freshDeviceId);
        && sessions == old(sessions)[key := Session(s.deviceId, Some(p), if bearer != "" then Some(bearer) else s.signupBearer)]
        && sent == Some(OtpRequest(p, Or(bearer, "false"), s.deviceId))
        && answer == OtpAnswer(reply)
      ensures old(sessions).Keys <= sessions.Keys
    {
      var checked := OtpPhone(phone);
      if checked.Failure? {
        return Failed(checked.error, None, None), None;
      }
      var p := checked.value;
      var key := SessionKey(sessionId);
      var session := GetSession(key, freshDeviceId);
      if bearer != "" {
        session := session.(signupBearer := Some(bearer));
      }
      session := session.(phone := Some(p));
      sessions := sessions[key := session];
      sent := Some(OtpRequest(p, Or(bearer, "false"), session.deviceId));
      answer := OtpAnswer(reply);
    }

    /** `/api/get-bearer-token`. The OTP check comes first; the session is then created even
        if the phone turns out to be missing, and it is removed only when a token is found. */
    method GetBearerToken(phone: string, otpCode: string, sessionId: string, freshDeviceId: string, reply: Reply)
      returns (answer: Answer, sent: Option<LoginRequest>)
      modifies this
      ensures otpCode == "" ==>
        answer == Failed(OtpRequired, None, None) && sent.None? && sessions == old(sessions)
      ensures otpCode != "" ==>
        var key := SessionKey(sessionId);
        var s := Lookup(old(sessions), key, freshDeviceId);
        match LoginPhone(phone, s)
        case None =>
          answer == Failed(PhoneRequired, None, None) && sent.None?
          && sessions == GetOrCreate(old(sessions), key, freshDeviceId)
        case Some(p) =>
          && sent == Some(LoginRequest(p, otpCode, OrElse(s.signupBearer, "false"), s.deviceId))
          && answer == LoginAnswer(reply)
          && sessions == (if IssuesToken(answer) then old(sessions) - {key}
                          else GetOrCreate(old(sessions), key, freshDeviceId))
    {
      if otpCode == "" {
        return Failed(OtpRequired, None, None), None;
      }
      var key := SessionKey(sessionId);
      var session := GetSession(key, freshDeviceId);
      var p := LoginPhone(phone, session);
      if p.None? {
        return Failed(PhoneRequired, None, None), None;
      }
      sent := Some(LoginRequest(p.value, otpCode, OrElse(session.signupBearer, "false"), session.deviceId));
      answer := LoginAnswer(reply);
      if IssuesToken(answer) {
        sessions := sessions - {key};
      }
    }

    /** `/api/register-account`. All five fields are required; the bearer is the given one,
        else the one stored at sign-up, else the literal 'false'; the session is removed only
        when the vendor reports success. */
    method RegisterAccount(bearer: string, firstName: string, lastName: string, email: string, dob: string,
                           phone: string, dobPrivate: bool, sessionId: string, freshDeviceId: string, reply: Reply)
      returns (answer: Answer, sent: Option<RegisterRequest>)
      modifies this
      ensures firstName == "" || lastName == "" || email == "" || dob == "" || phone == "" ==>
        answer == Failed(FieldsRequired, None, None) && sent.None? && sessions == old(sessions)
      ensures firstName != "" && lastName != "" && email != "" && dob != "" && phone != "" ==>
        var key := SessionKey(sessionId);
        var s := Lookup(old(sessions), key, freshDeviceId);
        && sent == Some(RegisterRequest(firstName, lastName, email, dob, ProcessPhone(phone),
                                        if dobPrivate then "1" else "0",
                                        Or(bearer, OrElse(s.signupBearer, "false")), s.deviceId))
        && answer == RegisterAnswer(reply)
        && sessions == (if answer.Succeeded? then old(sessions) - {key}
                        else GetOrCreate(old(sessions), key, freshDeviceId))
    {
      if firstName == "" || lastName == "" || email == "" || dob == "" || phone == "" {
        return Failed(FieldsRequired, None, None), None;
      }
      var key := SessionKey(sessionId);
      var session := GetSession(key, freshDeviceId);
      var useBearer := Or(bearer, OrElse(session.signupBearer, "false"));
      sent := Some(RegisterRequest(firstName, lastName, email, dob, ProcessPhone(phone),
                                   if dobPrivate then "1" else "0", useBearer, session.deviceId));
      answer := RegisterAnswer(reply);
      if answer.Succeeded? {
        sessions := sessions - {key};
      }
    }
  }
}
