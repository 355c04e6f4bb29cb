# Ride-hailing core in Dafny

This project models the decision logic of a ride-hailing platform. The
platform has an Express back end over a Supabase database and a React
Native mobile app. The model covers:

- **OTP service.** An in-memory map from phone number to a six-digit
  code with a ten-minute lifetime. There is a send, a single-use verify
  and a sweep of expired entries.
- **Pricing.** The back end's fare, trip duration and surge functions,
  and the app's fare estimate, with its suggested fare and the
  normalisation of the rider's offer.
- **Helpers.** Phone-number formatting and OTP generation.
- **Route handlers.** The guards and record updates of the auth, rides,
  drivers and payments routes. These are the 400/403/404 decisions, the
  rows written, pagination and the earnings arithmetic.
- **Request schemas.** The Joi schemas of the validation middleware.
  Each schema is stated as "accepts exactly these bodies".
- **Mobile logic.** The contact search of the Choose Rider screen and
  the six-box code entry of the rider and driver OTP screens.

Each source file is one module. Supabase tables are maps keyed by id. A
query whose order the database decides is a `seq` parameter. Every
route returns a `Reply`: either `Success(data)` or
`Failure(status, error)`, carrying the message the handler sends. The
clock (`Date.now`), `Math.random` and the Haversine distance are
parameters too. JavaScript numbers are exact reals. `Math.round` is
modelled as floor(x + 0.5) and `Math.ceil` as the ceiling. JavaScript
truthiness is written out: a string is truthy when present and
non-empty, and a number when present and non-zero.

The rides route imports `calculateFare` from
`mobile/assets/apps/backend/utils/calculations.js`. That file is not
part of this model. The model uses `calculateFare` from
`apps/backend/utils/calculations.js`, which has the same signature.

## Model

| member | source | states |
|---|---|---|
| Helpers.FormatPhoneNumber | mobile/assets/apps/backend/utils/helpers.js:17-29 | the result is '+' followed only by the input's digits; ten digits get the "+1" country code, and any other count is kept as it is |
| Helpers.FormatPhoneNumberIdempotent | mobile/assets/apps/backend/utils/helpers.js:17-29 | formatting an already formatted number changes nothing |
| Helpers.FormatPhoneNumberIgnoresNonDigits | mobile/assets/apps/backend/utils/helpers.js:19 | inserting non-digit characters anywhere leaves the formatted number unchanged |
| Helpers.ElevenDigitBranchIsPlain | mobile/assets/apps/backend/utils/helpers.js:22-28 | an eleven-digit number starting with 1 gets the same "+"-prefixed result as the general case |
| Helpers.GenerateOtp | mobile/assets/apps/backend/utils/helpers.js:32-38 | the code has the requested length (default 6), and each character is the digit floor(10·r) of the matching random draw |
| Helpers.GenerateOtpAllowsLeadingZero | mobile/assets/apps/backend/utils/helpers.js:32-38 | a draw of 0 yields the digit '0', so a code may start with zero |
| OtpService.IssuedCode | apps/backend/services/otpService.js:12 | the issued code is exactly six digits with no leading zero, so its value is in [100000, 999999] |
| OtpService.SendOtp | apps/backend/services/otpService.js:10-28 | afterwards the phone maps to the returned code, expiring 600000 ms after now, and every other phone's entry is unchanged |
| OtpService.VerifyOtp | apps/backend/services/otpService.js:30-50 | no entry gives "OTP not found or expired"; a passed expiry deletes the entry with "OTP expired"; a wrong code keeps the entry with "Invalid OTP"; the right code deletes it and is the only valid outcome |
| OtpService.Sweep | apps/backend/services/otpService.js:53-60 | keeps exactly the entries that are not yet expired, unchanged |
| OtpService.OperationsPreserveWellFormed | apps/backend/services/otpService.js:10-60 | send, verify and sweep keep every stored code exactly six digits |
| OtpService.SentCodeAcceptedUntilExpiry | apps/backend/services/otpService.js:37-49 | a code just sent verifies at any time up to its expiry |
| OtpService.ResendInvalidatesPreviousCode | apps/backend/services/otpService.js:15-18 | after a second send, the first code is refused unless both draws gave the same code |
| OtpService.VerifiedCodeIsSingleUse | apps/backend/services/otpService.js:46-49 | once a code verifies, verifying it again reports "OTP not found or expired" |
| OtpService.WrongGuessesDoNotLockOut | apps/backend/services/otpService.js:42-44 | any number of wrong guesses before expiry leaves the store unchanged, so the right code still verifies |
| OtpService.SweepDoesNotChangeVerdict | apps/backend/services/otpService.js:53-60 | sweeping before a verify never changes whether it succeeds |
| OtpService.MaxAttemptsNotEnforced | apps/backend/utils/constants.js:61-65 | one wrong guess more than the configured attempt limit still leaves the entry in place |
| OtpService.ConfigurationAgrees | apps/backend/utils/constants.js:61-65 | the code length (6) and lifetime (10 minutes) the service hard-codes agree with the OTP configuration |
| Calculations.RatesFor | apps/backend/utils/calculations.js:3-20 | "premium" selects the premium rates; any other or missing type selects the standard rates |
| Calculations.CalculateFare | apps/backend/utils/calculations.js:2-28 | the fare is within half a cent of base + distance·perKm + duration·perMinute, and is a whole number of cents |
| Calculations.FareAtZeroIsBase | apps/backend/utils/calculations.js:3-27 | a zero-length, zero-minute ride costs 5.00 as standard or untyped and 8.00 as premium |
| Calculations.FareMonotoneInDistance | apps/backend/utils/calculations.js:22-27 | a longer ride never costs less |
| Calculations.FareMonotoneInDuration | apps/backend/utils/calculations.js:22-27 | a longer trip time never costs less |
| Calculations.PremiumNotCheaper | apps/backend/utils/calculations.js:3-27 | for the same distance and duration, premium costs at least as much as standard |
| Calculations.RatesMatchPricing | apps/backend/utils/constants.js:42-55 | the fare tables equal the pricing constants of the constants file |
| Calculations.EstimatedDuration | apps/backend/utils/calculations.js:31-35 | the duration is distance / 30 km/h · 60 · traffic factor rounded half up to whole minutes, default factor 1.2 |
| Calculations.EstimatedDurationFacts | apps/backend/utils/calculations.js:31-35 | zero distance takes zero minutes; at the default factor a ride takes 2.4 minutes per km, so 30 km takes 72 |
| Calculations.EstimatedDurationMonotone | apps/backend/utils/calculations.js:31-35 | a longer distance never gets a shorter estimate |
| Calculations.SurgeMultiplier | apps/backend/utils/calculations.js:38-47 | the multiplier is between 1 and 2; an unknown level gives 1 |
| Calculations.SurgeMultiplierTable | apps/backend/utils/calculations.js:38-47 | low 1.0, medium 1.2, high 1.5 and very_high 2.0 |
| Tables.StatusNamesRoundTrip | apps/backend/utils/constants.js:2-10 | each ride status's name parses back to it, and exactly the seven names of the constants file parse |
| Validation.Validate | apps/backend/middleware/validation.js:69-79 | calls the next handler exactly when the body has no violation; otherwise answers 400 with the first violation |
| Validation.SendOtpSchemaAccepts | apps/backend/middleware/validation.js:4-6 | accepts exactly a body whose only key is a phone of 10–15 digits |
| Validation.VerifyOtpSchemaAccepts | apps/backend/middleware/validation.js:8-17 | accepts exactly the phone, a six-digit otp and an optional well-formed userData, with no other keys |
| Validation.RequestRideSchemaAccepts | apps/backend/middleware/validation.js:21-33 | accepts exactly a pickup and a destination, each with a non-empty address and in-range coordinates, plus an optional rideType of standard or premium, and no other keys |
| Validation.UpdateStatusSchemaAccepts | apps/backend/middleware/validation.js:35-45 | accepts exactly a body whose only key is a status naming one of the seven ride statuses |
| Validation.StatusValuesAreRideStatuses | apps/backend/middleware/validation.js:36-44 | the schema's status list is exactly the seven ride statuses of the constants file |
| Validation.UpdateLocationSchemaAccepts | apps/backend/middleware/validation.js:49-54 | accepts exactly in-range coordinates, with an optional heading in [0, 360] and an optional is_online flag, and no other keys |
| Validation.AcceptRideSchemaAccepts | apps/backend/middleware/validation.js:56-58 | accepts exactly a body whose only key is a uuid rideId |
| Validation.ProcessPaymentSchemaAccepts | apps/backend/middleware/validation.js:62-66 | accepts exactly a uuid rideId, an amount of at least 0 and an optional commission rate in [0, 1], and no other keys |
| AuthRoutes.SendOtpRoute | apps/backend/routes/auth.js:8-34 | a missing phone gives 400 "Phone number is required"; fewer than 10 or more than 15 digits gives 400 "Invalid phone number format"; otherwise a code is stored under the phone as given |
| AuthRoutes.UserByPhone | apps/backend/routes/auth.js:53-57 | when phones are unique and the phone is registered, returns a user of the table with that phone |
| AuthRoutes.NewUser | apps/backend/routes/auth.js:67-76 | the new user carries the request's phone, names and type, the given email when one is present and none otherwise, and is verified |
| AuthRoutes.InsertUser | apps/backend/routes/auth.js:67-85 | a phone already registered gives 400 "User with this phone already exists"; otherwise the table gains exactly the new row |
| AuthRoutes.VerifyOtpRoute | apps/backend/routes/auth.js:37-106 | a missing phone or otp gives 400; a failed OTP check gives 400 "Invalid OTP"; the OTP store is updated as the OTP service does; success means a valid code and either a known phone (that user is returned, unchanged) or userData for a new user |
| AuthRoutes.VerifyOtpRoutePreservesUniquePhones | apps/backend/routes/auth.js:67-89 | verify-otp never creates a second user with the same phone |
| AuthRoutes.MissingUserDataStillConsumesCode | apps/backend/routes/auth.js:46-65 | a new user who omits userData gets 400 "User data required for new users", and because the code was consumed, retrying with userData fails |
| RideRoutes.RequestRide | mobile/assets/apps/backend/routes/rides.js:8-74 | a missing pickup or destination gives 400; otherwise the new ride belongs to the caller, is requested, has no driver, and is priced by the fare function for the measured distance, 15 minutes and the given ride type |
| RideRoutes.RequestedFareAtLeastBase | mobile/assets/apps/backend/routes/rides.js:18-25 | a ride requested without a type over a non-negative distance costs at least the 5.00 standard base fare |
| RideRoutes.GetRide | mobile/assets/apps/backend/routes/rides.js:77-111 | an unknown id gives 404; a caller who is neither passenger nor driver gives 403; otherwise the ride |
| RideRoutes.ValidStatusesAreRideStatuses | mobile/assets/apps/backend/routes/rides.js:120-123 | the route's status list is exactly the seven ride statuses, and a name is on it exactly when it parses to a status |
| RideRoutes.ApplyStatus | mobile/assets/apps/backend/routes/rides.js:143-157 | sets the status; stamps startedAt on in_progress and completedAt on completed; every other field is unchanged |
| RideRoutes.UpdateStatus | mobile/assets/apps/backend/routes/rides.js:114-170 | an unknown status gives 400, an unknown ride 404 and a non-party 403; otherwise only that ride is replaced by its updated copy; a failure changes nothing |
| RideRoutes.AnyTransitionAllowed | mobile/assets/apps/backend/routes/rides.js:143-157 | a party may move a ride from any status to any status; no transition order is enforced |
| RideRoutes.History | mobile/assets/apps/backend/routes/rides.js:173-203 | another user's history gives 403; otherwise the first 50 of the user's rides, as passenger or driver, in query order: all of them when there are fewer, and the 50 newest when the query is newest first |
| RideRoutes.HistoryNewestFirst | mobile/assets/apps/backend/routes/rides.js:178-191 | when the rides come newest first, the history is newest first |
| DriverRoutes.UpdateLocation | apps/backend/routes/drivers.js:7-40 | a missing or zero coordinate gives 400; otherwise the driver's one location row holds the new coordinates, online unless told otherwise |
| DriverRoutes.OmittedOnlineMeansOnline | apps/backend/routes/drivers.js:16-25 | a location update without isOnline marks the driver online |
| DriverRoutes.FirstRequested | apps/backend/routes/drivers.js:68-75 | the scan reads at most 20 rides, all requested and all from the table |
| DriverRoutes.NearbyRides | apps/backend/routes/drivers.js:43-98 | missing coordinates give 400; an offline or unlocated driver gets an empty list; otherwise a ride is listed exactly when it is among the first 20 requested rides scanned and within the radius (default 5 km), in scan order |
| DriverRoutes.NearbyRidesWhenAllNear | apps/backend/routes/drivers.js:68-88 | the 20-row cap applies before the distance test: when every ride is near, an online driver gets exactly the first 20 requested rides |
| DriverRoutes.AcceptRide | apps/backend/routes/drivers.js:101-151 | a missing id gives 400; a ride that is unknown or no longer requested gives 404; otherwise exactly that ride gets the caller as driver and the accepted status |
| DriverRoutes.SecondAcceptFails | apps/backend/routes/drivers.js:111-131 | once a ride is accepted, a second accept by anyone gets 404 and changes nothing |
| PaymentRoutes.Window | mobile/assets/apps/backend/routes/payments.js:10-13 | a page spans exactly limit rows (default 10), and the first page (the default) starts at row 0 |
| PaymentRoutes.WindowsTile | mobile/assets/apps/backend/routes/payments.js:10-13 | each page starts right after the previous one ends, so pages neither overlap nor leave a gap |
| PaymentRoutes.Pages | mobile/assets/apps/backend/routes/payments.js:44 | the page count is the least number of pages that holds all rows, and there is none for a limit of 0 |
| PaymentRoutes.NetOfEachIsTotalLessCommission | mobile/assets/apps/backend/routes/payments.js:28-30 | the sum of each payment's net earnings equals total earnings minus total commission |
| PaymentRoutes.DriverPayments | mobile/assets/apps/backend/routes/payments.js:7-51 | the listed payments are exactly the caller's payments in rows from..to of the page window, in query order; the totals cover that page; the pagination total counts all of the caller's payments and the page count is their ceiling over the limit |
| PaymentRoutes.DriverPaymentsPageRows | mobile/assets/apps/backend/routes/payments.js:10-23 | on page p of size n, entry k is the caller's payment at offset (p−1)·n + k whenever the caller has that many |
| PaymentRoutes.ProcessPayment | mobile/assets/apps/backend/routes/payments.js:54-111 | a missing ride or amount gives 400; a ride that does not exist or is not the caller's gives 404; a ride with exactly one payment gives 400 "Payment already processed for this ride"; in every other case the route succeeds and adds exactly one "paid" payment, at 15% commission unless another rate is given |
| PaymentRoutes.OnePaymentMeansSingleton | mobile/assets/apps/backend/routes/payments.js:76-84 | when every ride has at most one payment, a paid ride has exactly one |
| PaymentRoutes.ProcessKeepsOnePaymentPerRide | mobile/assets/apps/backend/routes/payments.js:76-96 | processing a payment keeps every ride at no more than one payment |
| PaymentRoutes.SecondPaymentRefused | mobile/assets/apps/backend/routes/payments.js:76-84 | paying the same ride twice is refused |
| PaymentRoutes.PeriodSummary | mobile/assets/apps/backend/routes/payments.js:146-160 | the summary's totals equal the sums over the period's payments, and the ride count is their number |
| SearchDestination.EffectiveKm | apps/mobile/screens/ride/SearchDestinationScreen.tsx:176-177 | the routing distance in km when known, else the straight-line distance when both ends are known, else none |
| SearchDestination.FareUsd | apps/mobile/screens/ride/SearchDestinationScreen.tsx:178-188 | the fare is max(2.5, 1.5 + 0.6·km + 0.1·min), without the minutes term when the duration is unknown, and none without a distance |
| SearchDestination.Suggested | apps/mobile/screens/ride/SearchDestinationScreen.tsx:190-192 | fares below 3 are suggested as 2.50; higher fares as the nearest whole number, which is at least 3 |
| SearchDestination.Display | apps/mobile/screens/ride/SearchDestinationScreen.tsx:196-200 | 2.50 is shown as "2.50"; a whole suggestion as its decimal digits without a leading zero, whose value is the suggestion |
| SearchDestination.DisplayRoundTrip | apps/mobile/screens/ride/SearchDestinationScreen.tsx:194-202 | the text the offer field is prefilled with parses back to the suggestion |
| SearchDestination.ParseFloat | apps/mobile/screens/ride/SearchDestinationScreen.tsx:377 | on a string of digits and dots, the result is none exactly when there is no digit before the first dot and none right after it |
| SearchDestination.ParseOfferOfCleanText | apps/mobile/screens/ride/SearchDestinationScreen.tsx:377 | the offer text is read as parseFloat reads it once everything but digits and dots is removed, and unchanged when nothing needs removing |
| SearchDestination.FareOffer | apps/mobile/screens/ride/SearchDestinationScreen.tsx:383-384 | an unreadable offer sends no fare; a readable one sends the snapped fare of the value read, which is at least 2.50 |
| SearchDestination.SentFare | apps/mobile/screens/ride/SearchDestinationScreen.tsx:384 | offers in [2.50, 3) are sent as 2.50, offers of 3 or more as their suggestion, and offers below 2.50 as 3 |
| SearchDestination.UntouchedOfferSendsSuggestion | apps/mobile/screens/ride/SearchDestinationScreen.tsx:194-202 | a rider who leaves the field alone sends exactly the suggested fare |
| SearchDestination.SentFareMatchesFieldFromMinimum | apps/mobile/screens/ride/SearchDestinationScreen.tsx:376-384 | for offers of 2.50 and up, the fare sent equals the value the field is reset to |
| SearchDestination.NormalizedOffer | apps/mobile/screens/ride/SearchDestinationScreen.tsx:377-381 | an offer of 2.50 or more is reset to its suggestion; a lower offer is reset to 2.50 |
| SearchDestination.NormalizedOfferIdempotent | apps/mobile/screens/ride/SearchDestinationScreen.tsx:377-381 | normalising an offer a second time leaves it as it is |
| SearchDestination.SentFareDisagreesWithField | apps/mobile/screens/ride/SearchDestinationScreen.tsx:376-384 | an offer of 1 is shown as "2.50" but sent as 3 |
| SearchDestination.CorrectedSentFare | apps/mobile/screens/ride/SearchDestinationScreen.tsx:377-381 | the corrected fare is the value the field shows, reads back from its text, and agrees with the original from 2.50 up |
| SearchDestination.CorrectedFareOffer | apps/mobile/screens/ride/SearchDestinationScreen.tsx:376-384 | the corrected fare parameter always reads back from the field's text |
| SearchDestination.FindRideEnabledHasFare | apps/mobile/screens/ride/SearchDestinationScreen.tsx:374-375 | whenever Find Ride is enabled, there is a fare estimate of at least 2.50, whether or not the directions API answered |
| ChooseRider.Search | apps/mobile/screens/ride/ChooseRiderScreen.tsx:36-47 | an empty query shows every contact; otherwise exactly the contacts whose lower-cased name contains the lower-cased query, or whose phone contains it, in the original order |
| ChooseRider.HandleSearch | apps/mobile/screens/ride/ChooseRiderScreen.tsx:36-47 | the screen keeps the query and shows that query's search result |
| ChooseRider.ClearingRestoresAll | apps/mobile/screens/ride/ChooseRiderScreen.tsx:44-46 | clearing the query brings back every contact |
| ChooseRider.NameMatchIgnoresQueryCase | apps/mobile/screens/ride/ChooseRiderScreen.tsx:40 | retyping one letter of the query in the other case never changes whether a name matches |
| ChooseRider.NameMatchIsCaseInsensitiveSubstring | apps/mobile/screens/ride/ChooseRiderScreen.tsx:40 | a name matches exactly when some stretch of it equals the query up to letter case |
| OtpEntry.Empty | apps/mobile/screens/ride/RiderOTPConfirmationScreen.tsx:31 | the entry starts as six empty boxes |
| OtpEntry.Write | apps/mobile/screens/ride/RiderOTPConfirmationScreen.tsx:53-58 | text longer than one character is ignored; otherwise the chosen box takes the text and every other box is unchanged |
| OtpEntry.WritePreservesWellFormed | apps/mobile/screens/ride/RiderOTPConfirmationScreen.tsx:53-65 | writing keeps six boxes of at most one character each |
| OtpEntry.KeyPress | apps/mobile/screens/ride/RiderOTPConfirmationScreen.tsx:67-71 | Backspace on an empty box after the first moves focus back one box; any other key does nothing |
| OtpEntry.JoinFullIffComplete | apps/mobile/screens/ride/RiderOTPConfirmationScreen.tsx:34-36 | for boxes of at most one character, the joined code has six characters exactly when every box holds one |
| OtpEntry.Replay | mobile/screens/OTPConfirmationScreen.tsx:52-62 | any sequence of writes from the empty entry leaves six boxes of at most one character each |
| RiderOtpScreen.HandleCodeChange | apps/mobile/screens/ride/RiderOTPConfirmationScreen.tsx:53-65 | a change writes into the code; a single character moves focus to the next box, or dismisses the keyboard after the last box; anything else leaves focus where it is |
| RiderOtpScreen.HandleVerify | apps/mobile/screens/ride/RiderOTPConfirmationScreen.tsx:34-51 | the screen is replaced with Home exactly when the Verify button is enabled; otherwise it only warns |
| RiderOtpScreen.VerifyEnabled | apps/mobile/screens/ride/RiderOTPConfirmationScreen.tsx:126-135 | on reachable boxes, the Verify button is enabled exactly when all six boxes are filled |
| DriverOtpScreen.HandleChange | mobile/screens/OTPConfirmationScreen.tsx:52-62 | a change writes into the code, as on the rider screen |
| DriverOtpScreen.IsOtpComplete | mobile/screens/OTPConfirmationScreen.tsx:50 | on reachable boxes, the code is complete exactly when the joined code has six characters |
| DriverOtpScreen.HandleVerify | mobile/screens/OTPConfirmationScreen.tsx:70-74 | verify always navigates to driver sign-up, whatever was entered |
| DriverOtpScreen.PressVerify | mobile/screens/OTPConfirmationScreen.tsx:147-150 | pressing the button navigates exactly when the code is complete, and otherwise does nothing |
| DriverOtpScreen.ScreensAgreeOnCompleteness | mobile/screens/OTPConfirmationScreen.tsx:147-150 | for the same boxes, pressing the driver screen's button navigates exactly when the rider screen would go Home |

## Left out

- The Haversine distance and Google's routing distance are parameters. Their trigonometry is floating point and is not modelled.
- Supabase. Tables are maps, and rows whose order the database decides are sequences the caller passes in. Database errors other than "no row" are not modelled. These are the 500 branches, whose catch-alls answer with the thrown error's message.
- The nearby-drivers lookup that the ride-request route runs for notifications. It changes no data in the model.
- Socket broadcasts, push notifications, rate limiting, migrations, server bootstrap and JWT issuing. These are I/O or library code.
- Concurrency. Two drivers accepting the same ride at once is not modelled. Each route is one atomic step.
- The clock and `Math.random` are inputs. Every draw is assumed to lie in [0, 1).
- Floating point. Numbers are exact reals, so binary rounding error in the fare formulas is not modelled. The same goes for `toFixed` display text other than the fare field.
- Joi's error messages, type coercion and the uuid and email formats. The formats are predicates passed in. Only accept or refuse, and the first failing path, are modelled.
- Validation.Validate: it refuses unknown keys, as Joi does by default, but it does not model Joi's conversion of the validated value. The route handlers shown never see that value, so the default rideType is never applied.
- PaymentRoutes.DriverPayments: page and limit are numbers. The string concatenation that query-string values undergo in `from + limit` is not modelled. A window past the end is empty.
- The period summary's date arithmetic (`setDate`, `setMonth`) is not modelled. The caller passes the payments that fall in the period.
- AuthRoutes.UserByPhone: requires unique phones. The source's `.single()` fails on duplicates, and the model instead proves that verify-otp never creates one.
- ChooseRider.NameMatchIgnoresQueryCase: lower-casing is ASCII only, whereas `toLowerCase` also folds other scripts.
- String lengths. JavaScript counts UTF-16 code units, while the model counts characters. The checks affected are the one-character OTP boxes, the 10–15 digit phone check and the Joi length limits. They agree for the ASCII digits and letters these fields hold.
- Calculations.RatesFor: a `rideType` that names an Object prototype property, such as "constructor", finds that property, which is a truthy function. The fare then comes out as NaN, whereas the model gives such a type the standard rates.
- Calculations.SurgeMultiplier: the same applies to `demandLevel`. A prototype key returns a function instead of a number, whereas the model returns 1.
- DriverRoutes.NearbyRides: the query strings are taken as already parsed. `parseFloat` returning NaN for garbage is not modelled.
- DriverRoutes.UpdateLocation: `heading` is stored as given. The upsert's conflict handling is modelled as "one row per driver".
- The remaining screens: login, profile, fleet, settings, trips and the others. They are presentation without decision logic of their own.

## Findings

| source | as written | input that shows it | evidently intended | confidence | as-written member | corrected member |
|---|---|---|---|---|---|---|
| apps/mobile/screens/ride/SearchDestinationScreen.tsx:376-384 | an offer below 2.50 resets the field to "2.50", but the fare sent is Math.round(max(2.5, offer)), which is 3 | offer text "1" | send 2.50, the value the field now shows | medium; not executed | SearchDestination.SentFareDisagreesWithField | SearchDestination.CorrectedSentFare |
