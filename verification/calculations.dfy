/** The backend's pricing arithmetic: `calculateFare`,
    `calculateEstimatedDuration` and `calculateSurgeMultiplier`, over exact
    reals (floating-point error is not modelled). */
module Calculations {
  import opened Common
  import opened Numbers
  import Constants

  /** The three rate tables, one row per known ride type. */
  datatype Rates = Rates(base: real, perKm: real, perMinute: real)

  const Standard := Rates(5.00, 2.50, 0.30)
  const Premium := Rates(8.00, 3.75, 0.45)

  /** `table[rideType] || table.standard` for all three tables: a missing
      (`undefined`, the default) or unknown ride type prices as standard. */
  function RatesFor(rideType: Option<string>): (r: Rates)
    ensures rideType == Some("premium") ==> r == Premium
    ensures rideType != Some("premium") ==> r == Standard
  {
    match rideType
    case Some("standard") => Standard
    case Some("premium") => Premium
    case _ => Standard
  }

  /** The fare before rounding: base + distance * perKm + duration * perMinute. */
  function RawFare(distance: real, duration: real, rates: Rates): real {
    rates.base + distance * rates.perKm + duration * rates.perMinute
  }

  /** `calculateFare`: the raw fare rounded to the nearest cent. */
  function CalculateFare(distance: real, duration: real, rideType: Option<string>): (fare: real)
    ensures var raw := RawFare(distance, duration, RatesFor(rideType));
      raw - 0.005 < fare <= raw + 0.005
    ensures (fare * 100.0).Floor as real == fare * 100.0
  {
    Round(RawFare(distance, duration, RatesFor(rideType)) * 100.0) as real / 100.0
  }

  /** With no distance and no time the fare is exactly the base fare. */
  lemma FareAtZeroIsBase()
    ensures CalculateFare(0.0, 0.0, Some("standard")) == 5.00
    ensures CalculateFare(0.0, 0.0, None) == 5.00
    ensures CalculateFare(0.0, 0.0, Some("premium")) == 8.00
  {
    RoundOfInteger(500);
    RoundOfInteger(800);
  }

  lemma FareMonotoneInDistance(d1: real, d2: real, duration: real, rideType: Option<string>)
    requires 0.0 <= d1 <= d2
    ensures CalculateFare(d1, duration, rideType) <= CalculateFare(d2, duration, rideType)
  {
    var rates := RatesFor(rideType);
    RoundMonotone(RawFare(d1, duration, rates) * 100.0, RawFare(d2, duration, rates) * 100.0);
  }

  lemma FareMonotoneInDuration(distance: real, t1: real, t2: real, rideType: Option<string>)
    requires 0.0 <= t1 <= t2
    ensures CalculateFare(distance, t1, rideType) <= CalculateFare(distance, t2, rideType)
  {
    var rates := RatesFor(rideType);
    RoundMonotone(RawFare(distance, t1, rates) * 100.0, RawFare(distance, t2, rates) * 100.0);
  }

  /** For non-negative distance and duration premium never costs less. */
  lemma PremiumNotCheaper(distance: real, duration: real)
    requires distance >= 0.0 && duration >= 0.0
    ensures CalculateFare(distance, duration, Some("standard"))
         <= CalculateFare(distance, duration, Some("premium"))
  {
    RoundMonotone(RawFare(distance, duration, Standard) * 100.0, RawFare(distance, duration, Premium) * 100.0);
  }

  /** The fare tables agree with PRICING in the constants file. */
  lemma RatesMatchPricing()
    ensures Standard == Rates(Constants.BaseFareStandard, Constants.PerKmStandard, Constants.PerMinuteStandard)
    ensures Premium == Rates(Constants.BaseFarePremium, Constants.PerKmPremium, Constants.PerMinutePremium)
  {
  }

  const AverageSpeedKmh: real := 30.0
  const DefaultTrafficFactor: real := 1.2

  /** `calculateEstimatedDuration`: minutes at 30 km/h, scaled by the
      traffic factor (default 1.2) and rounded to a whole minute. */
  function EstimatedDuration(distance: real, trafficFactor: Option<real>): (minutes: int)
    ensures var exact := distance / AverageSpeedKmh * 60.0 * trafficFactor.GetOr(DefaultTrafficFactor);
      exact - 0.5 < minutes as real <= exact + 0.5
  {
    Round(distance / AverageSpeedKmh * 60.0 * trafficFactor.GetOr(DefaultTrafficFactor))
  }

  lemma EstimatedDurationFacts(distance: real, trafficFactor: Option<real>)
    ensures EstimatedDuration(0.0, trafficFactor) == 0
    ensures EstimatedDuration(distance, None) == Round(distance * 2.4)
    ensures EstimatedDuration(30.0, None) == 72
  {
    RoundOfInteger(0);
    RoundOfInteger(72);
  }

  lemma EstimatedDurationMonotone(d1: real, d2: real, factor: real)
    requires 0.0 <= d1 <= d2 && factor >= 0.0
    ensures EstimatedDuration(d1, Some(factor)) <= EstimatedDuration(d2, Some(factor))
  {
    assert d1 * factor <= d2 * factor;
    RoundMonotone(d1 / AverageSpeedKmh * 60.0 * factor, d2 / AverageSpeedKmh * 60.0 * factor);
  }

  /** `calculateSurgeMultiplier`: the multiplier for a known demand level,
      and the "low" multiplier otherwise. */
  function SurgeMultiplier(demandLevel: string): (m: real)
    ensures 1.0 <= m <= 2.0
    ensures demandLevel !in {"medium", "high", "very_high"} ==> m == 1.0
  {
    match demandLevel
    case "low" => 1.0
    case "medium" => 1.2
    case "high" => 1.5
    case "very_high" => 2.0
    case _ => 1.0
  }

  lemma SurgeMultiplierTable()
    ensures SurgeMultiplier("low") == 1.0 && SurgeMultiplier("medium") == 1.2
    ensures SurgeMultiplier("high") == 1.5 && SurgeMultiplier("very_high") == 2.0
  {
  }
}
