/** The backend's shared constants file: ride statuses, pricing tables
    and the OTP configuration. */
module Constants {

  /** RIDE_STATUS, in declaration order. */
  const RideStatusNames: seq<string> :=
    ["requested", "accepted", "driver_en_route", "arrived", "in_progress", "completed", "cancelled"]

  const PassengerType := "passenger"
  const DriverType := "driver"

  /** PRICING. */
  const BaseFareStandard: real := 5.00
  const BaseFarePremium: real := 8.00
  const PerKmStandard: real := 2.50
  const PerKmPremium: real := 3.75
  const PerMinuteStandard: real := 0.30
  const PerMinutePremium: real := 0.45

  /** OTP_CONFIG. MaxAttempts is declared here but no code enforces it. */
  const OtpLength: nat := 6
  const OtpExpiryMinutes: nat := 10
  const OtpMaxAttempts: nat := 3
}
