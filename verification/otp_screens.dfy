/** The rider's OTP confirmation screen: change handler with focus moves,
    the Verify button and its handler. */
module RiderOtpScreen {
  import opened OtpEntry

  datatype Action = ReplaceWithHome | WarnIncomplete

  /** `handleCodeChange(text, index)`: the buffer update and the focus move
      (next box, or close the keyboard after the last box). */
  function HandleCodeChange(code: Buffer, text: string, index: nat): (r: (Buffer, Focus))
    requires index < |code| == CodeLength
    ensures r.0 == Write(code, text, index)
    ensures r.1.FocusBox? <==> |text| == 1 && index < 5
    ensures r.1.FocusBox? ==> r.1.index == index + 1
    ensures r.1 == DismissKeyboard <==> |text| == 1 && index == 5
  {
    if |text| > 1 then (code, Stay)
    else
      var focus := if text != "" && index < CodeLength - 1 then FocusBox(index + 1)
                   else if text != "" && index == CodeLength - 1 then DismissKeyboard
                   else Stay;
      (Write(code, text, index), focus)
  }

  /** The Verify button is disabled unless the joined code has six
      characters; on a reachable buffer that is exactly when all six boxes
      hold a character. */
  function VerifyEnabled(code: Buffer): (b: bool)
    ensures WellFormed(code) ==> (b <==> Complete(code))
  {
    if WellFormed(code) then
      JoinFullIffComplete(code);
      |Join(code)| == CodeLength
    else
      |Join(code)| == CodeLength
  }

  /** `handleVerify`: go Home (replacing this screen) for a six-character
      code, otherwise warn and stay. */
  function HandleVerify(code: Buffer): (a: Action)
    ensures a == ReplaceWithHome <==> VerifyEnabled(code)
  {
    if |Join(code)| == CodeLength then ReplaceWithHome else WarnIncomplete
  }
}

/** The driver's OTP confirmation screen: change handler, completeness
    check and a Verify handler that trusts the disabled button. */
module DriverOtpScreen {
  import opened OtpEntry
  import RiderOtpScreen

  datatype Action = NavigateToDriverSignUp | Nothing

  /** `handleChange(text, index)`: the buffer update, and focus to the next
      box after a character in any but the last box. */
  function HandleChange(otp: Buffer, text: string, index: nat): (r: (Buffer, Focus))
    requires index < |otp| == CodeLength
    ensures r.0 == Write(otp, text, index)
    ensures r.1.FocusBox? <==> |text| == 1 && index < 5
    ensures r.1.FocusBox? ==> r.1.index == index + 1
    ensures !r.1.FocusBox? ==> r.1 == Stay
  {
    if |text| > 1 then (otp, Stay)
    else (Write(otp, text, index), if text != "" && index < 5 then FocusBox(index + 1) else Stay)
  }

  /** `isOtpComplete`: every box holds exactly one character; on a
      reachable buffer, exactly when the joined code has six characters. */
  function IsOtpComplete(otp: Buffer): (b: bool)
    ensures WellFormed(otp) ==> (b <==> |Join(otp)| == CodeLength)
  {
    if WellFormed(otp) then
      JoinFullIffComplete(otp);
      Complete(otp)
    else
      Complete(otp)
  }

  /** `handleVerify` checks nothing: it always goes to driver sign-up. */
  function HandleVerify(otp: Buffer): (a: Action)
    ensures a == NavigateToDriverSignUp
  {
    NavigateToDriverSignUp
  }

  /** Pressing Verify: a disabled button does nothing. */
  function PressVerify(otp: Buffer): (a: Action)
    ensures a == NavigateToDriverSignUp <==> IsOtpComplete(otp)
  {
    if !IsOtpComplete(otp) then Nothing else HandleVerify(otp)
  }

  /** On reachable buffers the two screens move on for the same codes,
      though one checks the joined length and the other each box. */
  lemma ScreensAgreeOnCompleteness(otp: Buffer)
    requires WellFormed(otp)
    ensures PressVerify(otp) == NavigateToDriverSignUp
        <==> RiderOtpScreen.HandleVerify(otp) == RiderOtpScreen.ReplaceWithHome
  {
    JoinFullIffComplete(otp);
  }
}
