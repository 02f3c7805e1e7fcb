/** Phone-number helpers of the front end (src/utils/phoneFormatter.js). A Philippine mobile
    number is ten digits; the API wants it with the country code "63" in front, twelve digits. */
module PhoneFormatter {
  import opened JsStrings

  const CountryCode: string := "63"

  /** The shape every formatted number has: digits only, at most "63" plus ten digits. */
  predicate IsFormatted(s: string)
  {
    AllDigits(s) && |s| <= 12
  }

  /** A digit string short of a full number that does not yet carry the country code. */
  predicate IsPartialLocal(d: string)
  {
    0 < |d| < 10 && !StartsWith(d, CountryCode)
  }

  /** `formatPhoneInput`, applied to the phone field on every keystroke. */
  function FormatPhoneInput(value: string): (r: string)
    ensures IsFormatted(r)
    ensures DigitsOnly(value) == "" ==> r == ""
    ensures IsPartialLocal(DigitsOnly(value)) ==> r == DigitsOnly(value)
    ensures StartsWith(DigitsOnly(value), CountryCode) ==> r == Take(DigitsOnly(value), 12)
    ensures var d := DigitsOnly(value);
      !StartsWith(d, CountryCode) && |d| >= 10 ==> r == CountryCode + d[..10] && |r| == 12
  {
    var d := DigitsOnly(value);
    if d == "" then ""
    else if StartsWith(d, CountryCode) then Take(d, 12)
    else if |d| == 10 then CountryCode + d
    else if |d| < 10 then d
    else CountryCode + d[..10]
  }

  /** `getPhoneDisplayValue`: a full twelve-digit "63..." number is shown without its country code. */
  function PhoneDisplayValue(value: string): (r: string)
    ensures AllDigits(r)
    ensures var d := DigitsOnly(value);
      r == if StartsWith(d, CountryCode) && |d| == 12 then d[2..] else d
  {
    if value == "" then ""
    else
      var d := DigitsOnly(value);
      if StartsWith(d, CountryCode) && |d| == 12 then d[2..] else d
  }

  /** `getFullPhoneNumber`: the number sent to the API, or "" while it is incomplete. */
  function FullPhoneNumber(value: string): (r: string)
    ensures r == "" || (StartsWith(r, CountryCode) && IsFormatted(r))
    ensures r == "" <==> (DigitsOnly(value) == "" || IsPartialLocal(DigitsOnly(value)))
  {
    if value == "" then ""
    else
      var d := DigitsOnly(value);
      if StartsWith(d, CountryCode) then Take(d, 12)
      else if |d| == 10 then CountryCode + d
      else if |d| < 10 then ""
      else CountryCode + d[..10]
  }

  lemma DigitsOnlyEmpty()
    ensures DigitsOnly("") == ""
  {
  }

  /** Formatting is idempotent, so re-applying it on every keystroke changes nothing more. */
  lemma {:induction false} FormatIdempotent(value: string)
    ensures FormatPhoneInput(FormatPhoneInput(value)) == FormatPhoneInput(value)
  {
    var r := FormatPhoneInput(value);
    assert DigitsOnly(r) == r;
    var d := DigitsOnly(value);
    if r != "" && StartsWith(d, CountryCode) {
      assert r[..2] == d[..2];
      assert StartsWith(r, CountryCode);
    } else if r != "" && !StartsWith(d, CountryCode) && |d| >= 10 {
      assert (CountryCode + d[..10])[..2] == CountryCode;
    }
  }

  /** The full number agrees with the formatted input except while a local number is still
      being typed, where the full number is "". */
  lemma FullVersusFormat(value: string)
    ensures FullPhoneNumber(value) ==
      if IsPartialLocal(DigitsOnly(value)) then "" else FormatPhoneInput(value)
  {
    if value == "" {
      DigitsOnlyEmpty();
    }
  }

  /** A ten-digit local number survives the trip to the full number and back to the display. */
  lemma {:induction false} DisplayOfFullNumber(d: string)
    requires AllDigits(d) && |d| == 10
    ensures PhoneDisplayValue(FullPhoneNumber(d)) == d
  {
    var full := FullPhoneNumber(d);
    assert DigitsOnly(d) == d;
    if StartsWith(d, CountryCode) {
      assert full == d;
    } else {
      assert full == CountryCode + d;
      assert DigitsOnly(full) == full;
      assert full[..2] == CountryCode;
      assert full[2..] == d;
    }
  }

  /** The check the login and signup forms make before calling the API: the full number is
      present and twelve characters long. */
  predicate IsCompleteNumber(value: string)
  {
    |FullPhoneNumber(value)| == 12
  }

  /** A number passes that check exactly when the typed digits hold "63" and ten more digits,
      or ten digits without the country code. */
  lemma CompleteNumberDigits(value: string)
    ensures IsCompleteNumber(value) <==>
      var d := DigitsOnly(value);
      (StartsWith(d, CountryCode) && |d| >= 12) || (!StartsWith(d, CountryCode) && |d| >= 10)
  {
    if value == "" {
      DigitsOnlyEmpty();
    }
  }
}
