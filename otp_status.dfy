/** The status texts the login and the signup forms share for the phone and OTP steps
    (src/components/LoginForm.js and src/components/SignupForm.js use the same words). */
module OtpStatus {
  const EnterPhone: string := "Please enter phone number"
  const InvalidPhone: string := "Please enter a valid 10-digit phone number (e.g., 9308201445)"
  const EnterPhoneAndOtp: string := "Please enter phone and OTP code"
  const SendingOtp: string := "Sending OTP code..."
  const OtpSent: string := "OTP code sent! Check your SMS."
  const OtpFailed: string := "Failed to send OTP"
}
