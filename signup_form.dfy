/** src/components/SignupForm.js: a three-step sign-up. Step 1 asks for an OTP, step 2
    verifies it (which may already yield a bearer token), step 3 registers the account and
    hands the resulting token to the page. The React state is the fields of a class; each
    handler is a method that takes the server's reply as a parameter. */
module SignupForm {
  import opened JsStrings
  import opened ClientApi
  import opened PhoneFormatter
  import opened OtpStatus
  import Progress
  import NameGenerator
  import Generators

  const NamesLoading: string := "Names library still loading..."
  const Verifying: string := "Verifying OTP..."
  const OtpVerified: string := "OTP verified! Please complete registration."
  const VerifyFailed: string := "OTP verification failed"
  const FillAll: string := "Please fill all required fields"
  const Registered: string := "Account registered successfully!"
  const RegisterFailed: string := "Registration failed"

  /** The body of `api.requestOTP`. */
  datatype OtpRequest = OtpRequest(phone: string, bearer: string)

  /** The body of `api.getBearerToken`. */
  datatype VerifyRequest = VerifyRequest(phone: string, otp: string)

  /** The body of `api.registerAccount`. */
  datatype Registration = Registration(
    bearer: string, firstName: string, lastName: string, email: string, dob: string,
    phone: string, dobPrivate: bool)

  /** `signupBearerToken || ''`. */
  function TokenOrEmpty(t: Option<string>): string
  {
    if t.Some? then t.value else ""
  }

  /** Whether a verification reply moves the form to step 3. */
  predicate Verified(reply: Call<Json>)
  {
    reply.Returned? && reply.value.success && (reply.value.bearerToken != "" || reply.value.newUser)
  }

  /** The token handed over after registration: the reply's token, else the token kept from
      the verification step, else "". */
  function FinalToken(replyToken: string, signupBearer: Option<string>): (t: string)
    ensures t == "" <==> replyToken == "" && (signupBearer.None? || signupBearer.value == "")
    ensures replyToken != "" ==> t == replyToken
    ensures replyToken == "" ==> t == TokenOrEmpty(signupBearer)
  {
    Or(replyToken, TokenOrEmpty(signupBearer))
  }

  class SignupForm {
    var step: nat
    var phone: string
    var otp: string
    var firstName: string
    var lastName: string
    var email: string
    var dob: string
    var dobPrivate: bool
    var otpStatus: string
    var verifyStatus: string
    var registerStatus: string
    var signupBearerToken: Option<string>
    var isRegistering: bool
    var progress: int

    /** The step is 1, 2 or 3, and a kept token is never empty. */
    ghost predicate Valid()
      reads this
    {
      1 <= step <= 3 && (signupBearerToken.Some? ==> signupBearerToken.value != "")
    }

    constructor ()
      ensures Valid() && step == 1
      ensures phone == "" && otp == "" && firstName == "" && lastName == "" && email == "" && dob == ""
      ensures dobPrivate && otpStatus == "" && verifyStatus == "" && registerStatus == ""
      ensures signupBearerToken == None && !isRegistering && progress == 0
    {
      step := 1;
      phone, otp, firstName, lastName, email, dob := "", "", "", "", "", "";
      dobPrivate := true;
      otpStatus, verifyStatus, registerStatus := "", "", "";
      signupBearerToken := None;
      isRegistering := false;
      progress := 0;
    }

    /** The phone field's change handler formats every keystroke. */
    method EditPhone(input: string)
      modifies this
      ensures phone == FormatPhoneInput(input) && IsFormatted(phone)
      ensures step == old(step) && otp == old(otp) && signupBearerToken == old(signupBearerToken)
      ensures otpStatus == old(otpStatus) && verifyStatus == old(verifyStatus) && registerStatus == old(registerStatus)
      ensures firstName == old(firstName) && lastName == old(lastName) && email == old(email) && dob == old(dob)
      ensures dobPrivate == old(dobPrivate) && isRegistering == old(isRegistering) && progress == old(progress)
    {
      phone := FormatPhoneInput(input);
    }

    /** `generateSignupData`, with the random choices and the date of birth as parameters.
        While the names are loading only the alert is raised. */
    method GenerateSignupData(names: NameGenerator.NameGenerator, firstPick: nat, lastPick: nat,
                              randomString: string, domainPick: nat, newDob: string)
      returns (alert: Option<string>)
      requires names.AreNamesLoaded() ==> firstPick < |names.firstNames| && lastPick < |names.lastNames|
      requires domainPick < |Generators.Domains|
      modifies this
      ensures !names.AreNamesLoaded() ==>
        && alert == Some(NamesLoading)
        && firstName == old(firstName) && lastName == old(lastName) && email == old(email) && dob == old(dob)
      ensures names.AreNamesLoaded() ==>
        && alert.None? && firstName in names.firstNames && lastName in names.lastNames
        && email == Generators.GenerateEmail(randomString, domainPick) && dob == newDob
      ensures step == old(step) && phone == old(phone) && otp == old(otp) && dobPrivate == old(dobPrivate)
      ensures signupBearerToken == old(signupBearerToken) && progress == old(progress) && isRegistering == old(isRegistering)
      ensures otpStatus == old(otpStatus) && verifyStatus == old(verifyStatus) && registerStatus == old(registerStatus)
    {
      if !names.AreNamesLoaded() {
        return Some(NamesLoading);
      }
      firstName := names.RandomFirstName(firstPick);
      lastName := names.RandomLastName(lastPick);
      email := Generators.GenerateEmail(randomString, domainPick);
      dob := newDob;
      alert := None;
    }

    /** `requestSignupOTP`. A blank phone or an incomplete number only sets the status; the
        step moves from wherever it is to 2 only when the server accepts the request. */
    method RequestSignupOtp(bearerToken: string, reply: Call<Json>) returns (sent: Option<OtpRequest>)
      requires Valid()
      modifies this
      ensures Valid()
      ensures IsBlank(phone) ==> otpStatus == EnterPhone && sent.None?
      ensures !IsBlank(phone) && !IsCompleteNumber(phone) ==> otpStatus == InvalidPhone && sent.None?
      ensures !IsBlank(phone) && IsCompleteNumber(phone) ==>
        && sent == Some(OtpRequest(FullPhoneNumber(phone), bearerToken))
        && (reply.Threw? ==> otpStatus == ErrorStatus(reply.message))
        && (reply.Returned? && reply.value.success ==> otpStatus == OtpSent)
        && (reply.Returned? && !reply.value.success ==> otpStatus == Or(reply.value.error, OtpFailed))
      ensures step == if sent.Some? && reply.Returned? && reply.value.success then 2 else old(step)
      ensures phone == old(phone) && otp == old(otp) && signupBearerToken == old(signupBearerToken)
      ensures firstName == old(firstName) && lastName == old(lastName) && email == old(email) && dob == old(dob)
      ensures verifyStatus == old(verifyStatus) && registerStatus == old(registerStatus) && progress == old(progress)
      ensures dobPrivate == old(dobPrivate) && isRegistering == old(isRegistering)
    {
      var blank := IsBlank(phone);
      var complete := IsCompleteNumber(phone);
      var fullPhoneNumber := FullPhoneNumber(phone);
      if blank {
        otpStatus := EnterPhone;
        sent := None;
      } else if !complete {
        otpStatus := InvalidPhone;
        sent := None;
      } else {
        otpStatus := SendingOtp;
        sent := Some(OtpRequest(fullPhoneNumber, bearerToken));
        RecordOtpReply(reply);
      }
    }

    /** The `.then`/`.catch` half of `requestSignupOTP`: the status follows the reply and
        the step becomes 2 on success. */
    method RecordOtpReply(reply: Call<Json>)
      requires Valid()
      modifies this
      ensures Valid()
      ensures reply.Threw? ==> otpStatus == ErrorStatus(reply.message)
      ensures reply.Returned? && reply.value.success ==> otpStatus == OtpSent
      ensures reply.Returned? && !reply.value.success ==> otpStatus == Or(reply.value.error, OtpFailed)
      ensures step == if reply.Returned? && reply.value.success then 2 else old(step)
      ensures phone == old(phone) && otp == old(otp) && signupBearerToken == old(signupBearerToken)
      ensures firstName == old(firstName) && lastName == old(lastName) && email == old(email) && dob == old(dob)
      ensures verifyStatus == old(verifyStatus) && registerStatus == old(registerStatus) && progress == old(progress)
      ensures dobPrivate == old(dobPrivate) && isRegistering == old(isRegistering)
    {
      match reply {
        case Threw(m) =>
          otpStatus := ErrorStatus(m);
        case Returned(data) =>
          if data.success {
            otpStatus := OtpSent;
            step := 2;
          } else {
            otpStatus := Or(data.error, OtpFailed);
          }
      }
    }

    /** `verifySignupOTP`. An empty phone or OTP, or an incomplete number, only sets the
        status. A reply with success and a token or the new-user flag moves the form to
        step 3 and keeps the token (or none); anything else leaves step and token alone. */
    method VerifySignupOtp(reply: Call<Json>) returns (sent: Option<VerifyRequest>)
      requires Valid()
      modifies this
      ensures Valid()
      ensures phone == "" || otp == "" ==> verifyStatus == EnterPhoneAndOtp && sent.None?
      ensures phone != "" && otp != "" && !IsCompleteNumber(phone) ==> verifyStatus == InvalidPhone && sent.None?
      ensures phone != "" && otp != "" && IsCompleteNumber(phone) ==>
        && sent == Some(VerifyRequest(FullPhoneNumber(phone), otp))
        && (reply.Threw? ==> verifyStatus == ErrorStatus(reply.message))
        && (Verified(reply) ==> verifyStatus == OtpVerified)
        && (reply.Returned? && !Verified(reply) ==> verifyStatus == Or(reply.value.error, VerifyFailed))
      ensures sent.Some? && Verified(reply) ==>
        && step == 3
        && signupBearerToken == (if reply.value.bearerToken != "" then Some(reply.value.bearerToken) else None)
      ensures !(sent.Some? && Verified(reply)) ==> step == old(step) && signupBearerToken == old(signupBearerToken)
      ensures phone == old(phone) && otp == old(otp)
      ensures firstName == old(firstName) && lastName == old(lastName) && email == old(email) && dob == old(dob)
      ensures otpStatus == old(otpStatus) && registerStatus == old(registerStatus) && progress == old(progress)
      ensures dobPrivate == old(dobPrivate) && isRegistering == old(isRegistering)
    {
      if phone == "" || otp == "" {
        verifyStatus := EnterPhoneAndOtp;
        return None;
      }
      var fullPhoneNumber := FullPhoneNumber(phone);
      if fullPhoneNumber == "" || |fullPhoneNumber| != 12 {
        verifyStatus := InvalidPhone;
        return None;
      }
      verifyStatus := Verifying;
      sent := Some(VerifyRequest(fullPhoneNumber, otp));
      match reply {
        case Threw(m) =>
          verifyStatus := ErrorStatus(m);
        case Returned(data) =>
          if data.success && (data.bearerToken != "" || data.newUser) {
            if data.bearerToken != "" {
              signupBearerToken := Some(data.bearerToken);
            } else {
              signupBearerToken := None;
            }
            verifyStatus := OtpVerified;
            step := 3;
          } else {
            verifyStatus := Or(data.error, VerifyFailed);
          }
      }
    }

    /** Whether the five required fields are filled in. */
    predicate Filled()
      reads this
    {
      firstName != "" && lastName != "" && email != "" && dob != "" && phone != ""
    }

    /** `registerAccount`. Missing fields or an incomplete number only set the status. The
        registration carries the kept token (or ""), the fields and the full number; on
        success the final token goes to the page. The progress bar ends at 100 on a reply
        and at 0 when the call throws. */
    method RegisterAccount(reply: Call<Json>) returns (sent: Option<Registration>, handed: Option<string>)
      requires Valid()
      modifies this
      ensures Valid()
      ensures !Filled() ==> registerStatus == FillAll && sent.None? && progress == old(progress)
      ensures Filled() && !IsCompleteNumber(phone) ==>
        registerStatus == InvalidPhone && sent.None? && progress == old(progress)
      ensures Filled() && IsCompleteNumber(phone) ==>
        && sent == Some(Registration(TokenOrEmpty(signupBearerToken), firstName, lastName, email, dob,
                                     FullPhoneNumber(phone), dobPrivate))
        && (reply.Threw? ==> registerStatus == ErrorStatus(reply.message) && progress == 0)
        && (reply.Returned? ==> progress == Progress.Done)
        && (reply.Returned? && reply.value.success ==> registerStatus == Registered)
        && (reply.Returned? && !reply.value.success ==> registerStatus == Or(reply.value.error, RegisterFailed))
      ensures handed.Some? <==> sent.Some? && reply.Returned? && reply.value.success
      ensures handed.Some? ==> handed.value == FinalToken(reply.value.bearerToken, signupBearerToken)
      ensures isRegistering == (sent.None? && old(isRegistering))
      ensures step == old(step) && phone == old(phone) && otp == old(otp) && signupBearerToken == old(signupBearerToken)
      ensures firstName == old(firstName) && lastName == old(lastName) && email == old(email) && dob == old(dob)
      ensures dobPrivate == old(dobPrivate) && otpStatus == old(otpStatus) && verifyStatus == old(verifyStatus)
    {
      handed := None;
      if firstName == "" || lastName == "" || email == "" || dob == "" || phone == "" {
        registerStatus := FillAll;
        return None, None;
      }
      var fullPhoneNumber := FullPhoneNumber(phone);
      if fullPhoneNumber == "" || |fullPhoneNumber| != 12 {
        registerStatus := InvalidPhone;
        return None, None;
      }
      isRegistering := true;
      registerStatus := "";
      progress := 0;
      sent := Some(Registration(TokenOrEmpty(signupBearerToken), firstName, lastName, email, dob,
                                fullPhoneNumber, dobPrivate));
      match reply {
        case Threw(m) =>
          progress := 0;
          registerStatus := ErrorStatus(m);
        case Returned(data) =>
          progress := Progress.Done;
          if data.success {
            handed := Some(FinalToken(data.bearerToken, signupBearerToken));
            registerStatus := Registered;
          } else {
            registerStatus := Or(data.error, RegisterFailed);
          }
      }
      isRegistering := false;
    }

    /** One tick of the registration progress timer: steps of 10, parked at 90. */
    method ProgressTick()
      modifies this
      ensures progress == Progress.Tick(old(progress), 10)
      ensures 0 <= old(progress) <= Progress.Ceiling && old(progress) % 10 == 0 ==>
        0 <= progress <= Progress.Ceiling && progress % 10 == 0
      ensures step == old(step) && phone == old(phone) && otp == old(otp) && signupBearerToken == old(signupBearerToken)
      ensures otpStatus == old(otpStatus) && verifyStatus == old(verifyStatus) && registerStatus == old(registerStatus)
      ensures firstName == old(firstName) && lastName == old(lastName) && email == old(email) && dob == old(dob)
      ensures dobPrivate == old(dobPrivate) && isRegistering == old(isRegistering)
    {
      progress := Progress.Tick(progress, 10);
    }

    /** The half-second timeout after a registration attempt. */
    method ResetProgress()
      modifies this
      ensures progress == 0
      ensures step == old(step) && phone == old(phone) && otp == old(otp) && signupBearerToken == old(signupBearerToken)
      ensures otpStatus == old(otpStatus) && verifyStatus == old(verifyStatus) && registerStatus == old(registerStatus)
      ensures firstName == old(firstName) && lastName == old(lastName) && email == old(email) && dob == old(dob)
      ensures dobPrivate == old(dobPrivate) && isRegistering == old(isRegistering)
    {
      progress := 0;
    }

    /** The two-second timeout after a successful registration: back to step 1 with every
        field and status cleared and the date of birth private again. */
    method ResetAfterRegistration()
      modifies this
      ensures Valid() && step == 1
      ensures phone == "" && otp == "" && firstName == "" && lastName == "" && email == "" && dob == ""
      ensures dobPrivate && otpStatus == "" && verifyStatus == "" && registerStatus == ""
      ensures signupBearerToken == None
      ensures isRegistering == old(isRegistering) && progress == old(progress)
    {
      phone, otp, firstName, lastName, email, dob := "", "", "", "", "", "";
      dobPrivate := true;
      otpStatus, verifyStatus, registerStatus := "", "", "";
      step, signupBearerToken := 1, None;
    }
  }
}
