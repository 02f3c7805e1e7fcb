/** src/components/LoginForm.js: a two-step login. Step 1 asks for an OTP, step 2 exchanges
    it for a bearer token, which is handed to the page. The React state is the fields of a
    class; each handler is a method that takes the server's reply as a parameter. */
module LoginForm {
  import opened JsStrings
  import opened ClientApi
  import opened PhoneFormatter
  import opened OtpStatus
  import Progress

  const TokenRetrieved: string := "Token retrieved successfully!"
  const LoginFailed: string := "Login failed"

  /** The body of `api.getBearerToken`. */
  datatype LoginRequest = LoginRequest(phone: string, otp: string)

  /** Whether a login reply hands a token over: success and a non-empty token. A reply for
      a new user carries no token and is a failure here. */
  predicate HandsToken(reply: Call<Json>)
  {
    reply.Returned? && reply.value.success && reply.value.bearerToken != ""
  }

  /** The server's new-user answer (success, no token) never logs in. */
  lemma NewUserIsNoLogin(reply: Call<Json>)
    requires reply.Returned? && reply.value.newUser && reply.value.bearerToken == ""
    ensures !HandsToken(reply)
  {
  }

  class LoginForm {
    var phone: string
    var otp: string
    var step: nat
    var otpStatus: string
    var loginStatus: string
    var isLoading: bool
    var progress: int

    /** The step is 1 or 2. */
    ghost predicate Valid()
      reads this
    {
      1 <= step <= 2
    }

    constructor ()
      ensures Valid() && step == 1
      ensures phone == "" && otp == "" && otpStatus == "" && loginStatus == "" && !isLoading && progress == 0
    {
      phone, otp := "", "";
      step := 1;
      otpStatus, loginStatus := "", "";
      isLoading := false;
      progress := 0;
    }

    /** The phone field's change handler formats every keystroke. */
    method EditPhone(input: string)
      modifies this
      ensures phone == FormatPhoneInput(input) && IsFormatted(phone)
      ensures otp == old(otp) && step == old(step) && otpStatus == old(otpStatus) && loginStatus == old(loginStatus)
      ensures isLoading == old(isLoading) && progress == old(progress)
    {
      phone := FormatPhoneInput(input);
    }

    /** `requestOTP`. A blank phone or an incomplete number only sets the status; the step
        becomes 2 only when the server accepts the request. */
    method RequestOtp(reply: Call<Json>) returns (sent: Option<string>)
      requires Valid()
      modifies this
      ensures Valid()
      ensures IsBlank(phone) ==> otpStatus == EnterPhone && sent.None?
      ensures !IsBlank(phone) && !IsCompleteNumber(phone) ==> otpStatus == InvalidPhone && sent.None?
      ensures !IsBlank(phone) && IsCompleteNumber(phone) ==>
        && sent == Some(FullPhoneNumber(phone))
        && (reply.Threw? ==> otpStatus == ErrorStatus(reply.message))
        && (reply.Returned? && reply.value.success ==> otpStatus == OtpSent)
        && (reply.Returned? && !reply.value.success ==> otpStatus == Or(reply.value.error, OtpFailed))
      ensures step == if sent.Some? && reply.Returned? && reply.value.success then 2 else old(step)
      ensures phone == old(phone) && otp == old(otp) && loginStatus == old(loginStatus)
      ensures isLoading == old(isLoading) && progress == old(progress)
    {
      var blank := IsBlank(phone);
      if blank {
        otpStatus := EnterPhone;
        return None;
      }
      var fullPhoneNumber := FullPhoneNumber(phone);
      if fullPhoneNumber == "" || |fullPhoneNumber| != 12 {
        otpStatus := InvalidPhone;
        return None;
      }
      otpStatus := SendingOtp;
      sent := Some(fullPhoneNumber);
      match reply {
        case Threw(m) =>
          otpStatus := ErrorStatus(m);
        case Returned(data) =>
          if data.success {
            otpStatus := OtpSent;
            step := 2;
          } else {
            otpStatus := Or(data.error, OtpFailed);
          }
      }
    }

    /** `getBearerToken`. An empty phone or OTP, or an incomplete number, only sets the
        status. The token is handed to the page only for a successful reply that carries
        one; the progress bar ends at 100 on a reply and at 0 when the call throws. */
    method GetBearerToken(reply: Call<Json>) returns (sent: Option<LoginRequest>, handed: Option<string>)
      modifies this
      ensures phone == "" || otp == "" ==> loginStatus == EnterPhoneAndOtp && sent.None?
      ensures phone != "" && otp != "" && !IsCompleteNumber(phone) ==> loginStatus == InvalidPhone && sent.None?
      ensures phone != "" && otp != "" && IsCompleteNumber(phone) ==>
        && sent == Some(LoginRequest(FullPhoneNumber(phone), otp))
        && (reply.Threw? ==> loginStatus == ErrorStatus(reply.message) && progress == 0)
        && (reply.Returned? ==> progress == Progress.Done)
        && (HandsToken(reply) ==> loginStatus == TokenRetrieved)
        && (reply.Returned? && !HandsToken(reply) ==> loginStatus == Or(reply.value.error, LoginFailed))
      ensures sent.None? ==> progress == old(progress) && isLoading == old(isLoading)
      ensures sent.Some? ==> !isLoading
      ensures handed.Some? <==> sent.Some? && HandsToken(reply)
      ensures handed.Some? ==> handed.value == reply.value.bearerToken && handed.value != ""
      ensures phone == old(phone) && otp == old(otp) && step == old(step) && otpStatus == old(otpStatus)
    {
      handed := None;
      if phone == "" || otp == "" {
        loginStatus := EnterPhoneAndOtp;
        return None, None;
      }
      var fullPhoneNumber := FullPhoneNumber(phone);
      if fullPhoneNumber == "" || |fullPhoneNumber| != 12 {
        loginStatus := InvalidPhone;
        return None, None;
      }
      isLoading := true;
      loginStatus := "";
      progress := 0;
      sent := Some(LoginRequest(fullPhoneNumber, otp));
      match reply {
        case Threw(m) =>
          progress := 0;
          loginStatus := ErrorStatus(m);
        case Returned(data) =>
          progress := Progress.Done;
          if data.success && data.bearerToken != "" {
            handed := Some(data.bearerToken);
            loginStatus := TokenRetrieved;
          } else {
            loginStatus := Or(data.error, LoginFailed);
          }
      }
      isLoading := false;
    }

    /** One tick of the login progress timer: steps of 10, parked at 90. */
    method ProgressTick()
      modifies this
      ensures progress == Progress.Tick(old(progress), 10)
      ensures 0 <= old(progress) <= Progress.Ceiling && old(progress) % 10 == 0 ==>
        0 <= progress <= Progress.Ceiling && progress % 10 == 0
      ensures phone == old(phone) && otp == old(otp) && step == old(step)
      ensures otpStatus == old(otpStatus) && loginStatus == old(loginStatus) && isLoading == old(isLoading)
    {
      progress := Progress.Tick(progress, 10);
    }

    /** The half-second timeout after a login attempt. */
    method ResetProgress()
      modifies this
      ensures progress == 0
      ensures phone == old(phone) && otp == old(otp) && step == old(step)
      ensures otpStatus == old(otpStatus) && loginStatus == old(loginStatus) && isLoading == old(isLoading)
    {
      progress := 0;
    }

    /** The two-second timeout after a successful login: back to step 1 with the phone, the
        OTP and both statuses cleared. */
    method ResetAfterLogin()
      modifies this
      ensures Valid() && step == 1
      ensures phone == "" && otp == "" && otpStatus == "" && loginStatus == ""
      ensures isLoading == old(isLoading) && progress == old(progress)
    {
      step := 1;
      phone, otp := "", "";
      otpStatus, loginStatus := "", "";
    }
  }
}
