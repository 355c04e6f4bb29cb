/** The fare logic of the destination search screen: the effective trip
    distance, the fare estimate with its 2.50 minimum, the suggested fare,
    how it is shown, and how a typed offer is read and sent. */
module SearchDestination {
  import opened Common
  import opened Numbers
  import opened Decimal
  import opened Text
  import opened Tables

  datatype Coord = Coord(latitude: real, longitude: real)

  /** Distance in km: the directions API's metres when known, else the
      straight-line distance when both ends are set, else none. */
  function EffectiveKm(apiMeters: Option<real>, pickup: Option<Coord>, dest: Option<Coord>, haversine: Distance): (r: Option<real>)
    ensures apiMeters.Some? ==> r == Some(apiMeters.value / 1000.0)
    ensures apiMeters.None? && pickup.Some? && dest.Some? ==>
      r == Some(haversine(pickup.value.latitude, pickup.value.longitude, dest.value.latitude, dest.value.longitude))
    ensures r.None? <==> apiMeters.None? && (pickup.None? || dest.None?)
  {
    if apiMeters.Some? then Some(apiMeters.value / 1000.0)
    else if pickup.Some? && dest.Some? then
      Some(haversine(pickup.value.latitude, pickup.value.longitude, dest.value.latitude, dest.value.longitude))
    else None
  }

  function DurationMinutes(apiSeconds: Option<real>): Option<real> {
    if apiSeconds.Some? then Some(apiSeconds.value / 60.0) else None
  }

  const BaseFare: real := 1.5
  const PerKm: real := 0.6
  const PerMinute: real := 0.1
  const MinFare: real := 2.5
  const Surge: real := 1.0

  /** The estimate: 1.50 + 0.60/km (+ 0.10/min when the duration is known),
      never below 2.50; none without a distance. */
  function FareUsd(km: Option<real>, minutes: Option<real>): (r: Option<real>)
    ensures r.Some? <==> km.Some?
    ensures r.Some? ==> r.value >= 2.5
    ensures km.Some? && minutes.Some? ==>
      r.value == Max(2.5, 1.5 + km.value * 0.6 + minutes.value * 0.1)
    ensures km.Some? && minutes.None? ==> r.value == Max(2.5, 1.5 + km.value * 0.6)
  {
    if km.Some? && minutes.Some? then
      Some(Max(MinFare, (BaseFare + km.value * PerKm + minutes.value * PerMinute) * Surge))
    else if km.Some? then
      Some(Max(MinFare, (BaseFare + km.value * PerKm) * Surge))
    else None
  }

  /** A fare the screen suggests: 2.50, or a whole number of at least 3. */
  predicate IsSuggestion(x: real) {
    x == 2.5 || (x == x.Floor as real && x >= 3.0)
  }

  /** The suggestion: 2.50 for estimates in [2.50, 3), the estimate
      rounded to the dollar otherwise. */
  function Suggested(fare: real): (r: real)
    requires fare >= 2.5
    ensures IsSuggestion(r)
    ensures fare < 3.0 ==> r == 2.5
    ensures fare >= 3.0 ==> r >= 3.0 && r - 0.5 <= fare < r + 0.5
  {
    if fare < 3.0 then 2.5 else Round(fare) as real
  }

  /** How a suggestion is written: "2.50", or the whole number. */
  function Display(x: real): (s: string)
    requires IsSuggestion(x)
    ensures |s| >= 1 && forall i :: 0 <= i < |s| ==> IsDigitOrDot(s[i])
    ensures x == 2.5 ==> s == "2.50"
    ensures x != 2.5 ==> AllDigits(s) && s[0] != '0' && Value(s) as real == x
  {
    if x == 2.5 then "2.50"
    else
      ValueOfNatToString(x.Floor);
      NatToString(x.Floor)
  }

  /** The longest run of digits at the start of `s`. */
  function LeadingDigits(s: string): (r: string)
    ensures |r| <= |s| && AllDigits(r) && r == s[..|r|]
    ensures |r| < |s| ==> !IsDigit(s[|r|])
  {
    if s == [] || !IsDigit(s[0]) then []
    else
      var tail := LeadingDigits(s[1..]);
      assert [s[0]] + tail == s[..|tail| + 1];
      [s[0]] + tail
  }

  /** `parseFloat` on a string of digits and dots: an integer part, then
      optionally '.' and a fraction; NaN (None) when neither has a digit. */
  function ParseFloat(s: string): (r: Option<real>)
    requires forall i :: 0 <= i < |s| ==> IsDigitOrDot(s[i])
    ensures r.None? <==> s == [] || (s[0] == '.' && (|s| == 1 || !IsDigit(s[1])))
  {
    var whole := LeadingDigits(s);
    var rest := s[|whole|..];
    var fraction := if rest != [] && rest[0] == '.' then LeadingDigits(rest[1..]) else [];
    assert whole == [] && s != [] ==> !IsDigit(s[0]);
    assert s != [] ==> IsDigitOrDot(s[0]);
    assert whole == [] && s != [] ==> rest == s && s[0] == '.' && rest[1..] == s[1..];
    assert |s| > 1 ==> s[1..][0] == s[1];
    assert whole != [] ==> IsDigit(s[0]);
    if whole == [] && fraction == [] then None
    else Some(Value(whole) as real + Value(fraction) as real / Pow10(|fraction|) as real)
  }

  /** What the offer field reads as: `parseFloat(text.replace(/[^0-9.]/g, ''))`. */
  function ParseOffer(text: string): Option<real> {
    ParseFloat(KeepDigitsAndDots(text))
  }

  /** Stripping keeps every digit and dot, so a clean offer text is read by
      `parseFloat` as typed; anything else in it is ignored. */
  lemma ParseOfferOfCleanText(text: string)
    ensures (forall i :: 0 <= i < |text| ==> IsDigitOrDot(text[i])) ==> ParseOffer(text) == ParseFloat(text)
    ensures ParseOffer(KeepDigitsAndDots(text)) == ParseOffer(text)
  {
    if forall i :: 0 <= i < |text| ==> IsDigitOrDot(text[i]) {
      KeepDigitsAndDotsIdentity(text);
    }
    KeepDigitsAndDotsIdentity(KeepDigitsAndDots(text));
  }

  lemma {:induction false} LeadingDigitsOfDigits(s: string)
    requires AllDigits(s)
    ensures LeadingDigits(s) == s
  {
    if s != [] {
      LeadingDigitsOfDigits(s[1..]);
    }
  }

  /** "2.50" reads back as 2.5. */
  lemma TwoFiftyReadsBack()
    ensures ParseOffer("2.50") == Some(2.5)
  {
    var s := "2.50";
    KeepDigitsAndDotsIdentity(s);
    assert LeadingDigits(s[1..]) == [];
    assert LeadingDigits(s) == "2";
    assert s[1..][1..] == "50";
    LeadingDigitsOfDigits("50");
    assert Value("5") == 5 by { assert "5"[..0] == ""; }
    assert Value("50") == 50 by { assert "50"[..1] == "5"; }
    assert Value("2") == 2 by { assert "2"[..0] == ""; }
    assert Pow10(2) == 100;
  }

  /** A non-empty run of digits reads as its decimal value. */
  lemma ParseFloatOfDigits(s: string)
    requires s != [] && AllDigits(s)
    ensures ParseFloat(s) == Some(Value(s) as real)
  {
    LeadingDigitsOfDigits(s);
    assert s[|s|..] == [];
  }

  /** A whole number's decimal rendering reads back as that number. */
  lemma WholeReadsBack(n: nat)
    ensures ParseOffer(NatToString(n)) == Some(n as real)
  {
    var s := NatToString(n);
    KeepDigitsAndDotsIdentity(s);
    ValueOfNatToString(n);
    ParseFloatOfDigits(s);
  }

  /** A shown suggestion reads back as itself. */
  lemma DisplayRoundTrip(x: real)
    requires IsSuggestion(x)
    ensures ParseOffer(Display(x)) == Some(x)
  {
    if x == 2.5 {
      TwoFiftyReadsBack();
    } else {
      WholeReadsBack(x.Floor);
    }
  }

  /** The fare sent with Find Ride: 2.50 for offers in [2.50, 3), the
      offer rounded after raising it to 2.50 otherwise; none if unreadable. */
  function SentFare(parsed: real): (r: real)
    ensures 2.5 <= parsed < 3.0 ==> r == 2.5
    ensures parsed < 2.5 ==> r == 3.0
    ensures parsed >= 3.0 ==> r == Suggested(parsed)
  {
    if 2.5 <= parsed < 3.0 then 2.5 else Round(Max(2.5, parsed)) as real
  }

  /** What the offer field is reset to on Find Ride: the offer snapped as
      the suggestion is, and raised to 2.50 when that falls below. */
  function NormalizedOffer(parsed: real): (r: real)
    ensures IsSuggestion(r)
    ensures parsed >= 2.5 ==> r == Suggested(parsed)
    ensures parsed < 2.5 ==> r == 2.5
  {
    var n := if 2.5 <= parsed < 3.0 then 2.5 else Round(parsed) as real;
    if n < 2.5 then 2.5 else n
  }

  /** The `fareOffer` navigation parameter for an offer text. */
  function FareOffer(text: string): (r: Option<real>)
    ensures r.None? <==> ParseOffer(text).None?
    ensures r.Some? ==> r.value >= 2.5 && r == Some(SentFare(ParseOffer(text).value))
  {
    var parsed := ParseOffer(text);
    if parsed.Some? then Some(SentFare(parsed.value)) else None
  }

  /** Pressing Find Ride again leaves a normalised offer as it is. */
  lemma NormalizedOfferIdempotent(parsed: real)
    ensures NormalizedOffer(NormalizedOffer(parsed)) == NormalizedOffer(parsed)
  {
    var n := NormalizedOffer(parsed);
    if n != 2.5 {
      RoundOfInteger(n.Floor);
    }
  }

  /** Leaving the prefilled field alone sends exactly the suggested fare. */
  lemma UntouchedOfferSendsSuggestion(fare: real)
    requires fare >= 2.5
    ensures FareOffer(Display(Suggested(fare))) == Some(Suggested(fare))
  {
    DisplayRoundTrip(Suggested(fare));
    RoundOfInteger(Suggested(fare).Floor);
  }

  /** For offers of 2.50 and above, the value sent is the value shown. */
  lemma SentFareMatchesFieldFromMinimum(parsed: real)
    requires parsed >= 2.5
    ensures SentFare(parsed) == NormalizedOffer(parsed)
  {
  }

  /** Below 2.50 they part ways: an offer of 1 is shown as "2.50" but sent
      as 3, because the sent fare rounds 2.5 half-up. */
  lemma SentFareDisagreesWithField()
    ensures NormalizedOffer(1.0) == 2.5 && Display(NormalizedOffer(1.0)) == "2.50"
    ensures SentFare(1.0) == 3.0
  {
  }

  /** The fare evidently meant to be sent: the value the field is reset to. */
  function CorrectedSentFare(parsed: real): (r: real)
    ensures IsSuggestion(r) && r >= 2.5
    ensures ParseOffer(Display(r)) == Some(r)
    ensures parsed >= 2.5 ==> r == SentFare(parsed)
  {
    var r := NormalizedOffer(parsed);
    DisplayRoundTrip(r);
    if parsed >= 2.5 then SentFareMatchesFieldFromMinimum(parsed); r else r
  }

  /** The `fareOffer` with the corrected fare: always the value the field shows. */
  function CorrectedFareOffer(text: string): (r: Option<real>)
    ensures r.None? <==> ParseOffer(text).None?
    ensures r.Some? ==> IsSuggestion(r.value) && ParseOffer(Display(r.value)) == r
    ensures r.Some? && ParseOffer(text).value >= 2.5 ==> r == FareOffer(text)
  {
    var parsed := ParseOffer(text);
    if parsed.Some? then Some(CorrectedSentFare(parsed.value)) else None
  }

  /** Find Ride is enabled only once both ends have coordinates. */
  predicate FindRideEnabled(pickup: Option<Coord>, dest: Option<Coord>) {
    pickup.Some? && dest.Some?
  }

  /** Whenever Find Ride is enabled, the screen has a fare of at least 2.50
      to suggest, whether or not the directions API answered. */
  lemma FindRideEnabledHasFare(apiMeters: Option<real>, apiSeconds: Option<real>,
                               pickup: Option<Coord>, dest: Option<Coord>, haversine: Distance)
    requires FindRideEnabled(pickup, dest)
    ensures var fare := FareUsd(EffectiveKm(apiMeters, pickup, dest, haversine), DurationMinutes(apiSeconds));
      fare.Some? && fare.value >= 2.5
  {
  }
}
