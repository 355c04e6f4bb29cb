/** The in-memory OTP service: a map from phone to the issued code and its
    expiry time, with `sendOTP`, `verifyOTP` and the once-a-minute sweep.
    `Date.now()` is the parameter `now` (milliseconds) and `Math.random()`
    the parameter `draw`. */
module OtpService {
  import opened Decimal
  import Helpers
  import Constants

  datatype Entry = Entry(otp: string, expiresAt: int)

  type Store = map<string, Entry>

  /** Ten minutes, in milliseconds. */
  const TimeToLive: int := 10 * 60 * 1000

  datatype Verification = Verification(valid: bool, message: string)

  /** `Math.floor(100000 + Math.random() * 900000).toString()`. */
  function IssuedCode(draw: real): (code: string)
    requires Helpers.IsRandomDraw(draw)
    ensures |code| == 6 && AllDigits(code)
    ensures 100000 <= Value(code) <= 999999
    ensures code[0] != '0'
  {
    var n := (100000.0 + draw * 900000.0).Floor;
    SixDigitRendering(n);
    ValueOfNatToString(n);
    NatToString(n)
  }

  /** `sendOTP`: issue a fresh code for `phone`, replacing any earlier one. */
  function SendOtp(store: Store, phone: string, now: int, draw: real): (r: (Store, string))
    requires Helpers.IsRandomDraw(draw)
    ensures phone in r.0 && r.0[phone].otp == r.1 && r.0[phone].expiresAt == now + 600000
    ensures |r.1| == 6 && AllDigits(r.1) && 100000 <= Value(r.1) <= 999999
    ensures r.0.Keys == store.Keys + {phone}
    ensures forall p :: p in store && p != phone ==> r.0[p] == store[p]
  {
    var code := IssuedCode(draw);
    (store[phone := Entry(code, now + TimeToLive)], code)
  }

  /** `verifyOTP`: unknown phone, expired entry (deleted), wrong code (kept),
      or correct code (deleted, so single use). */
  function VerifyOtp(store: Store, phone: string, otp: string, now: int): (r: (Store, Verification))
    ensures phone !in store ==> r == (store, Verification(false, "OTP not found or expired"))
    ensures phone in store && now > store[phone].expiresAt ==>
      r == (store - {phone}, Verification(false, "OTP expired"))
    ensures phone in store && now <= store[phone].expiresAt && store[phone].otp != otp ==>
      r == (store, Verification(false, "Invalid OTP"))
    ensures r.1.valid <==> phone in store && now <= store[phone].expiresAt && store[phone].otp == otp
    ensures r.1.valid ==> r.0 == store - {phone}
    ensures forall p :: p != phone ==> (p in r.0 <==> p in store)
    ensures forall p :: p in r.0 ==> p in store && r.0[p] == store[p]
  {
    if phone !in store then
      (store, Verification(false, "OTP not found or expired"))
    else if now > store[phone].expiresAt then
      (store - {phone}, Verification(false, "OTP expired"))
    else if store[phone].otp != otp then
      (store, Verification(false, "Invalid OTP"))
    else
      (store - {phone}, Verification(true, "OTP verified successfully"))
  }

  predicate Expired(e: Entry, now: int) {
    now > e.expiresAt
  }

  /** The periodic sweep: drop every expired entry, keep the rest as they are. */
  function Sweep(store: Store, now: int): (r: Store)
    ensures forall p :: p in r <==> p in store && !Expired(store[p], now)
    ensures forall p :: p in r ==> r[p] == store[p]
  {
    map p | p in store && !Expired(store[p], now) :: store[p]
  }

  /** Every stored code is six digits, as `sendOTP` issues them. */
  predicate WellFormed(store: Store) {
    forall p :: p in store ==> |store[p].otp| == 6 && AllDigits(store[p].otp)
  }

  lemma OperationsPreserveWellFormed(store: Store, phone: string, otp: string, now: int, draw: real)
    requires WellFormed(store) && Helpers.IsRandomDraw(draw)
    ensures WellFormed(SendOtp(store, phone, now, draw).0)
    ensures WellFormed(VerifyOtp(store, phone, otp, now).0)
    ensures WellFormed(Sweep(store, now))
  {
  }

  /** A code sent at `sent` is accepted exactly up to `sent + 600000`. */
  lemma SentCodeAcceptedUntilExpiry(store: Store, phone: string, sent: int, draw: real, now: int)
    requires Helpers.IsRandomDraw(draw)
    ensures var (s1, code) := SendOtp(store, phone, sent, draw);
      VerifyOtp(s1, phone, code, now).1.valid <==> now <= sent + 600000
  {
  }

  /** After a resend, the previous code no longer works (unless it happens
      to be drawn again). */
  lemma ResendInvalidatesPreviousCode(store: Store, phone: string, t1: int, d1: real, t2: int, d2: real, now: int)
    requires Helpers.IsRandomDraw(d1) && Helpers.IsRandomDraw(d2)
    ensures var (s1, first) := SendOtp(store, phone, t1, d1);
      var (s2, second) := SendOtp(s1, phone, t2, d2);
      first != second ==> !VerifyOtp(s2, phone, first, now).1.valid
  {
  }

  /** A successful verification consumes the code: replaying it fails. */
  lemma VerifiedCodeIsSingleUse(store: Store, phone: string, otp: string, now: int, later: int)
    requires VerifyOtp(store, phone, otp, now).1.valid
    ensures !VerifyOtp(VerifyOtp(store, phone, otp, now).0, phone, otp, later).1.valid
  {
  }

  /** Wrong guesses before expiry are free: the right code still works
      afterwards, however many guesses came first (no attempt limit). */
  lemma {:induction false} WrongGuessesDoNotLockOut(store: Store, phone: string, guesses: seq<string>, now: int)
    requires phone in store && now <= store[phone].expiresAt
    requires forall i :: 0 <= i < |guesses| ==> guesses[i] != store[phone].otp
    ensures AfterGuesses(store, phone, guesses, now) == store
    ensures VerifyOtp(AfterGuesses(store, phone, guesses, now), phone, store[phone].otp, now).1.valid
  {
    if guesses != [] {
      WrongGuessesDoNotLockOut(store, phone, guesses[1..], now);
    }
  }

  /** The store after a run of verification attempts at the same instant. */
  function AfterGuesses(store: Store, phone: string, guesses: seq<string>, now: int): Store {
    if guesses == [] then store
    else AfterGuesses(VerifyOtp(store, phone, guesses[0], now).0, phone, guesses[1..], now)
  }

  /** Sweeping at the moment of a verification never changes its verdict. */
  lemma SweepDoesNotChangeVerdict(store: Store, phone: string, otp: string, now: int)
    ensures VerifyOtp(Sweep(store, now), phone, otp, now).1.valid == VerifyOtp(store, phone, otp, now).1.valid
  {
  }

  /** The service hard-codes its code length and lifetime, and both agree
      with the OTP configuration of the constants file. */
  lemma ConfigurationAgrees(draw: real)
    requires Helpers.IsRandomDraw(draw)
    ensures |IssuedCode(draw)| == Constants.OtpLength
    ensures TimeToLive == Constants.OtpExpiryMinutes * 60 * 1000
  {
  }

  /** The attempt limit of the constants file is never consulted: one
      wrong guess more than it allows still leaves the entry in place. */
  lemma MaxAttemptsNotEnforced(store: Store, phone: string, wrong: string, now: int)
    requires phone in store && now <= store[phone].expiresAt && wrong != store[phone].otp
    ensures |[wrong, wrong, wrong, wrong]| == Constants.OtpMaxAttempts + 1
    ensures AfterGuesses(store, phone, [wrong, wrong, wrong, wrong], now) == store
  {
    WrongGuessesDoNotLockOut(store, phone, [wrong, wrong, wrong, wrong], now);
  }
}
