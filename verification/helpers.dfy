/** The phone-number and one-time-code helpers of the backend's utility file:
    `formatPhoneNumber` and `generateOTP`. */
module Helpers {
  import opened Common
  import opened Decimal
  import opened Text

  /** `formatPhoneNumber`: strip every non-digit; ten digits get the US
      prefix "+1", any other count just a "+". The branch for eleven digits
      starting with '1' is kept as written although it agrees with the last. */
  function FormatPhoneNumber(phone: string): (r: string)
    ensures |r| >= 1 && r[0] == '+' && AllDigits(r[1..])
    ensures |StripNonDigits(phone)| == 10 ==> r == "+1" + StripNonDigits(phone)
    ensures |StripNonDigits(phone)| != 10 ==> r == "+" + StripNonDigits(phone)
  {
    var cleaned := StripNonDigits(phone);
    if |cleaned| == 10 then "+1" + cleaned
    else if |cleaned| == 11 && cleaned[0] == '1' then "+" + cleaned
    else "+" + cleaned
  }

  /** Formatting an already formatted number returns it unchanged. */
  lemma FormatPhoneNumberIdempotent(phone: string)
    ensures FormatPhoneNumber(FormatPhoneNumber(phone)) == FormatPhoneNumber(phone)
  {
    var cleaned := StripNonDigits(phone);
    var once := FormatPhoneNumber(phone);
    assert once == [once[0]] + once[1..];
    StripNonDigitsConcat([once[0]], once[1..]);
    StripNonDigitsOfDigits(once[1..]);
    assert StripNonDigits(once) == once[1..];
    if |cleaned| == 10 {
      assert once[1..] == "1" + cleaned;
    } else {
      assert once[1..] == cleaned;
    }
  }

  /** Inserting characters that are not digits never changes the result. */
  lemma FormatPhoneNumberIgnoresNonDigits(before: string, junk: string, after: string)
    requires forall i :: 0 <= i < |junk| ==> !IsDigit(junk[i])
    ensures FormatPhoneNumber(before + junk + after) == FormatPhoneNumber(before + after)
  {
    StripNonDigitsConcat(before + junk, after);
    StripNonDigitsConcat(before, junk);
    StripNonDigitsConcat(before, after);
    StripNonDigitsOfJunk(junk);
    assert StripNonDigits(before + junk) == StripNonDigits(before);
    assert StripNonDigits(before + junk + after) == StripNonDigits(before + after);
  }

  /** The eleven-digit branch yields what the final branch would. */
  lemma ElevenDigitBranchIsPlain(phone: string)
    requires |StripNonDigits(phone)| == 11 && StripNonDigits(phone)[0] == '1'
    ensures FormatPhoneNumber(phone) == "+" + StripNonDigits(phone)
  {
  }

  /** One `Math.floor(Math.random() * 10)` for a draw `r` in [0, 1). */
  function RandomDigit(r: real): (d: nat)
    requires IsRandomDraw(r)
    ensures d < 10
  {
    (r * 10.0).Floor
  }

  predicate IsRandomDraw(r: real) {
    0.0 <= r < 1.0
  }

  /** `generateOTP(length)`: one random digit per position; `length`
      defaults to 6 and `draws` are the successive `Math.random()` values. */
  method GenerateOtp(length: Option<nat>, draws: seq<real>) returns (otp: string)
    requires |draws| >= length.GetOr(6)
    requires forall i :: 0 <= i < |draws| ==> IsRandomDraw(draws[i])
    ensures |otp| == length.GetOr(6)
    ensures AllDigits(otp)
    ensures forall i :: 0 <= i < |otp| ==> otp[i] == DigitChar(RandomDigit(draws[i]))
  {
    var n := length.GetOr(6);
    otp := "";
    var i := 0;
    while i < n
      invariant 0 <= i <= n
      invariant |otp| == i
      invariant forall j :: 0 <= j < i ==> otp[j] == DigitChar(RandomDigit(draws[j]))
    {
      otp := otp + NatToString(RandomDigit(draws[i]));
      i := i + 1;
    }
  }

  /** A code may start with '0', unlike the codes the OTP service issues. */
  lemma GenerateOtpAllowsLeadingZero()
    ensures RandomDigit(0.0) == 0 && DigitChar(RandomDigit(0.0)) == '0'
  {
  }
}
