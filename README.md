# Land-payment bookkeeping of RealEstateManager, in Dafny

This project models the rules by which the RealEstateManager back end moves
its land-sale records between statuses. The records are:

- a `LandPurchase` (draft, reserved, down payment paid, completed);
- the `LandPayment` rows that pay for it (pending, processing, completed,
  failed, expired);
- the `PaymentAttempt` rows made against the Flutterwave gateway for each
  payment (initiated, processing, completed, failed);
- the `Land` plot itself (available, sold);
- the instalment `PaymentSchedule` rows.

Around these sit the following parts, all of which are modelled:

- the validators, retry loop and webhook dispatch of the Flutterwave client;
- the instalment and reservation arithmetic;
- the status roll-up, stale-payment sweep and receipt tasks;
- the three payment views (initiate, redirect-verify and pay-an-instalment)
  and schedule generation;
- the one-time-password records, the 2FA flags of a user and soft deletion.

Layout, one module per file:

| file | module | models |
|---|---|---|
| wrappers.dfy | Wrappers | `Option` and `Result` |
| json.dfy | Json | JSON values with Python truthiness, `in` and indexing |
| text.dfy | Text | `strip`, `lower`, slicing, `str(int)` and `float(str)` |
| gateway.dfy | Gateway | the pure part of `FlutterwaveService` and the retry loop |
| properties.dfy | Properties | `Land`, `LandInstallmentPlan`, `LandReservation`, soft delete |
| payments.dfy | Payments | `LandPurchase`, `LandPayment`, `PaymentAttempt` |
| ledger.dfy | Ledger | the tables, with their uniqueness constraints, and `create_new_attempt` |
| webhooks.dfy | Webhooks | `handle_webhook` and the two settlement handlers |
| users.dfy | Users | `User.enable_2fa` / `disable_2fa` |
| auth.dfy | Auth | `TwoFactorAuth` and `TwoFactorService.generate_otp` |
| tasks.dfy | Tasks | status roll-up, pending sweep, receipt |
| views.dfy | Views | initiate, verify, pay instalment, schedule generation |

Records that the source updates in place are classes. Each class has a
`State()` snapshot datatype, and each method states its new snapshot as a
pure function of the old one (for example `PaymentSaved` or
`MarkedCompleted`); lemmas then state the properties of those functions.
The database is a `Database` class whose tables are sequences of these
objects. Its `Valid()` invariant carries what the schema promises:

- distinct references;
- unique `(payment, attempt_number)` pairs;
- unique `(purchase, installment_number)` pairs.

It adds one fact that `LandPayment.save` provides: every payment row has
both references filled in. That every payment has a `land_` transaction
reference is a separate predicate, `LandReferences()`. It holds for every
payment the core creates, but a row may be created with a reference of its
own, as the test suite does.

Amounts are exact `real`s. Time is a `Clock`: seconds since the epoch, the
two formatted stamps the reference generators use, and the random suffix.
The calendar day is the second count divided by 86400. The gateway is a
script of at most three request outcomes. The HMAC digest is a parameter.

## Model

| member | source | states |
|---|---|---|
| Json.IsSubstring | Backend/services/flutterwave_service.py:88 | for a one-character needle, Python's `in` on strings is membership of that character |
| Json.Contains | Backend/services/flutterwave_service.py:378-384 | Python `key in value`: membership for a dict; undefined (TypeError) for None, booleans and numbers |
| Json.Index | Backend/services/flutterwave_service.py:198-205 | `value[key]` is defined exactly when the value is a dict holding the key, and is then that entry |
| Json.GetOr | Backend/services/flutterwave_service.py:327-328 | `dict.get(key, default)`: the entry when present, the default otherwise |
| Text.TrimStart | Backend/services/flutterwave_service.py:92 | the left half of `str.strip`: a suffix of the input, everything dropped is white space, and it starts with non-space |
| Text.TrimEnd | Backend/services/flutterwave_service.py:92 | the right half of `str.strip`: a prefix, everything dropped is white space, and it ends with non-space |
| Text.LowerChar | Backend/services/flutterwave_service.py:92 | `lower` on one character: only capitals change, and they become lower case |
| Text.Lower | Backend/services/flutterwave_service.py:92 | `str.lower`: same length, character by character, and no capital remains |
| Text.LowerCharKeepsSpace | Backend/services/flutterwave_service.py:92 | lower-casing a character neither creates nor removes white space |
| Text.LowerKeepsEnds | Backend/services/flutterwave_service.py:92 | lower-casing keeps a string free of white space at both ends |
| Text.Take | Backend/services/flutterwave_service.py:93-94 | `s[:n]`: a prefix of at most n characters, the whole string when it is short enough |
| Text.StripKeepsNonSpace | Backend/services/flutterwave_service.py:92 | `strip` keeps every non-space character, and its result has no space at either end |
| Text.StripEnds | Backend/services/flutterwave_service.py:92 | a stripped string has no white space at either end |
| Text.Strip | Backend/services/flutterwave_service.py:92 | `strip` never lengthens a string, and a non-empty result starts and ends with a non-space character |
| Text.BlankStripsToEmpty | Backend/services/flutterwave_service.py:92-93 | a string of white space strips to the empty string |
| Text.AtSignSurvivesNormalising | Backend/services/flutterwave_service.py:88-92 | an e-mail that passed the '@' test still contains '@' after stripping and lower-casing |
| Text.DigitChar | Backend/payments_app/models.py:146 | a digit below ten becomes the decimal character of that value |
| Text.Pow10 | Backend/auth_app/services.py:32 | powers of ten are at least one |
| Text.DecimalString | Backend/payments_app/models.py:146 | `str(n)` for a natural number is a non-empty string of digits |
| Text.DigitsValueOfDecimalString | Backend/payments_app/models.py:146 | reading the decimal string of n back gives n |
| Text.DecimalStringLength | Backend/auth_app/services.py:32 | a number in [10^(k-1), 10^k) is written with exactly k digits |
| Text.DotIndex | Backend/services/flutterwave_service.py:71 | the position of the first '.' in a string, or none when there is none |
| Text.ParseUnsigned | Backend/services/flutterwave_service.py:71 | `float` on an unsigned numeral (digit groups with single underscores, an optional point) gives a non-negative value |
| Text.Ungrouped | Backend/services/flutterwave_service.py:71 | dropping the underscores of a digit part leaves only digits, and leaves a digit string as it is |
| Text.ExponentIndex | Backend/services/flutterwave_service.py:71 | the position of the first 'e' or 'E', or none when there is none |
| Text.Scaled | Backend/services/flutterwave_service.py:71 | scaling a non-negative mantissa by a power of ten keeps it non-negative |
| Text.ParseNumber | Backend/services/flutterwave_service.py:71 | `float` on a number with an optional exponent gives a non-negative value |
| Text.ParseAbsFloat | Backend/services/flutterwave_service.py:71 | `float` on an unsigned body is a non-negative finite value, plus infinity or NaN |
| Text.ParseFloatOfMinus | Backend/services/flutterwave_service.py:71 | `float` of a string with a leading minus is NaN, minus infinity or at most zero |
| Text.ParseFloatOfUnsigned | Backend/services/flutterwave_service.py:71 | `float` of a string with no surrounding white space and no sign reads the whole string as an unsigned value |
| Text.ParseFloatOfNegative | Backend/services/flutterwave_service.py:71 | `float` of '-' followed by a readable body is the negation of that body's value |
| Text.DigitsArePart | Backend/services/flutterwave_service.py:71 | a non-empty string of digits is a digit part (a numeral without underscores) |
| Text.DigitsNumber | Backend/services/flutterwave_service.py:71 | a non-empty string of digits reads as the number its digits denote |
| Text.ParseFloatForms | Backend/services/flutterwave_service.py:71 | `float` reads 'nan' and '-nan' as NaN, '-Infinity' as minus infinity, '1e3' as 1000 and '1_0' as 10 |
| Text.ParseFloatOfDigits | Backend/services/flutterwave_service.py:71 | `float` of a string of digits is the finite number the digits denote |
| Text.ParseFloatOfDecimalString | Backend/services/flutterwave_service.py:71 | `float(str(n)) == n` for every natural n |
| Text.ParseFloat | Backend/services/flutterwave_service.py:71 | `float` of a blank string raises; a negative number or minus infinity comes only from a string whose first non-space character is '-' |
| Gateway.ValidateAmount | Backend/services/flutterwave_service.py:68-78 | the intended check: accepted iff the amount converts to a finite number in (0, 100000000]; that number is returned; every refusal is "Invalid amount format" |
| Gateway.ValidateAmountAsWritten | Backend/services/flutterwave_service.py:68-78 | the check as written: accepted iff the amount converts and fails both `<= 0` and `> 100000000`; the converted value is returned; every refusal is "Invalid amount format" |
| Gateway.BoundsMissOnlyNan | Backend/services/flutterwave_service.py:72-75 | the two bound tests let through exactly the finite amounts in (0, 100000000] and NaN |
| Gateway.AmountCheckMissesOnlyNan | Backend/services/flutterwave_service.py:68-78 | the written and intended checks agree on every amount except one that converts to NaN, which only the written one accepts |
| Gateway.NanAmountIsAccepted | Backend/services/flutterwave_service.py:68-78 | as written, 'nan' and '-nan' are accepted as NaN; the intended check refuses both |
| Gateway.NanAmountRead | Backend/services/flutterwave_service.py:68-78 | any string that converts to NaN passes the written check and fails the intended one |
| Gateway.NanAmount | Backend/services/flutterwave_service.py:68-78 | any amount that converts to NaN is returned as NaN by the written check and refused by the intended one |
| Gateway.NegativeAmount | Backend/services/flutterwave_service.py:68-78 | an amount that converts to NaN, minus infinity or a number at most zero is refused by the intended check, and only NaN passes the written one |
| Gateway.FiniteAmountAccepted | Backend/services/flutterwave_service.py:68-78 | an amount that converts to a finite number in (0, 100000000] is accepted as that number |
| Gateway.ValidateAmountAcceptsNumericString | Backend/services/flutterwave_service.py:68-78 | the string "50000000" is accepted as 50000000 |
| Gateway.ValidateAmountRefusesNegative | Backend/services/flutterwave_service.py:71-78 | with the intended check, any string starting with '-' is refused with "Invalid amount format"; with the check as written, only NaN gets through |
| Gateway.SanitizeCustomerData | Backend/services/flutterwave_service.py:80-95 | refused, with the source's message, when the e-mail is missing or empty, the name is missing or empty, or the e-mail lacks '@'; an accepted input had a string e-mail containing '@' and a non-empty string name |
| Gateway.SanitizePresent | Backend/services/flutterwave_service.py:87-95 | with e-mail and name present: an e-mail string without '@' is refused; an accepted customer is the stripped, lower-cased e-mail, the name cut to 200 and the phone cut to 20 |
| Gateway.NormalisedEmailShape | Backend/services/flutterwave_service.py:92 | the stored e-mail keeps its '@', has no capitals and no white space at either end |
| Gateway.LoweredShape | Backend/services/flutterwave_service.py:92 | lower-casing a stripped string that holds '@' gives the normalised-e-mail shape |
| Gateway.SanitizeAccepts | Backend/services/flutterwave_service.py:80-95 | string fields, an e-mail holding '@' and a non-empty name are accepted |
| Gateway.SanitizedCustomerShape | Backend/services/flutterwave_service.py:91-95 | the stored e-mail is the stripped, lower-cased input; the name is at most 200 characters and the phone at most 20, each a prefix of the stripped input |
| Gateway.BlankNameIsAccepted | Backend/services/flutterwave_service.py:83-93 | a name of only spaces passes the emptiness check and is stored as the empty string |
| Gateway.ValidateWebhookData | Backend/services/flutterwave_service.py:374-384 | false when 'event' or 'data' is missing; when 'data' is a dict, true iff it holds 'tx_ref' |
| Gateway.ValidateTransactionData | Backend/services/flutterwave_service.py:386-401 | the intended check: true iff the data is a dict with every required field and an amount that converts to a finite number in (0, 100000000]; an exception for None, booleans and numbers |
| Gateway.ValidateTransactionDataAsWritten | Backend/services/flutterwave_service.py:386-401 | the check as written: true iff the data is a dict with every required field and an amount that converts and fails both `<= 0` and `> 100000000`; an exception for None, booleans and numbers |
| Gateway.TransactionCheckMissesOnlyNan | Backend/services/flutterwave_service.py:394-399 | the written and intended checks agree except on an amount that converts to NaN; a complete transaction with amount 'nan' passes only the written one |
| Gateway.VerifyWebhookSignature | Backend/services/flutterwave_service.py:351-372 | accepted iff a non-empty signature is given and equals the expected HMAC digest |
| Gateway.RouteOf | Backend/services/flutterwave_service.py:337-346 | 'charge.completed' goes to the success handler, 'charge.failed' to the failure handler, the two transfer events to the transfer handler, anything else is acknowledged |
| Gateway.SecureReference | Backend/services/flutterwave_service.py:62-66 | `prefix_timestamp_random`: the prefix and an underscore first, an underscore and the random part last |
| Gateway.MakeSecureRequest | Backend/services/flutterwave_service.py:97-142 | the retry loop gives exactly the calls, sleeps and result of the reference run `SecureRequest` |
| Gateway.RunFrom | Backend/services/flutterwave_service.py:105-139 | from try a (a < 3) the loop makes between 1 and 3-a calls and sleeps once before each call but the first; past the third try it makes none |
| Gateway.SecureRequest | Backend/services/flutterwave_service.py:97-142 | a request makes one to three calls and sleeps exactly once between two of them |
| Gateway.AfterTransient | Backend/services/flutterwave_service.py:105-139 | a transient failure costs one request and the delay before the next try, and the run continues from that try |
| Gateway.Delays | Backend/services/flutterwave_service.py:132-133 | the k-th sleep lasts (k+1) seconds |
| Gateway.RunFromFirstStop | Backend/services/flutterwave_service.py:105-139 | from try a, when every try before i fails transiently and try i does not, the run makes i-a+1 calls, sleeps (a+k+1) before each retry and ends with try i's result |
| Gateway.FirstNonTransientDecides | Backend/services/flutterwave_service.py:105-139 | the first non-transient outcome decides: its response is returned, an SSL error aborts, another error is raised; i+1 calls and i sleeps |
| Gateway.AllTransientExhausts | Backend/services/flutterwave_service.py:130-142 | three transient failures give "Max retries exceeded" after three calls and sleeps of 1 and 2 seconds |
| Gateway.RequestBounds | Backend/services/flutterwave_service.py:97-142 | between one and three calls, one sleep fewer than calls with the (k+1)-second delays, and a returned response is the one the last call got |
| Gateway.InitFailure | Backend/services/flutterwave_service.py:216-229 | a raised error becomes a failure without gateway response; the code is 'validation_error' exactly for a ValueError |
| Gateway.BuildPayload | Backend/services/flutterwave_service.py:161-185 | the request body carries the caller's tx_ref; 'payment_options' is present iff the requested method is card, banktransfer or mobilemoney, and is then that method |
| Gateway.PrepareInitialization | Backend/services/flutterwave_service.py:150-185 | with the amount check as written or as intended: a missing tx_ref, an amount that check refuses or bad customer data is refused with a ValueError before any request; an accepted input yields a payload with the input tx_ref and the checked amount |
| Gateway.InitializeWith | Backend/services/flutterwave_service.py:144-229 | a payload exists exactly when input validation passes; without one no request is made and the result is a failure; with one the payload is the prepared one and the requests are those of the retry loop |
| Gateway.InitializePaymentAsWritten | Backend/services/flutterwave_service.py:144-229 | as written, a successful initialisation had an amount that passed the written check, and its link is '***REDACTED***' |
| Gateway.InitializePayment | Backend/services/flutterwave_service.py:144-229 | as intended, a successful initialisation had an amount in (0, 100000000], and any payload sent carries that amount as a JSON number |
| Gateway.CheckedAmount | Backend/services/flutterwave_service.py:153-163 | the amount passes iff the chosen check accepts it; it is then sent as a value that `float` reads as the input's value (as intended, the finite amount itself); a refusal is 'Invalid amount format' |
| Gateway.FloatJson | Backend/services/flutterwave_service.py:163 | the JSON form of a float reads back as that float |
| Gateway.LogRedaction | Backend/services/flutterwave_service.py:192-194 | the logged copy has the link replaced by '***REDACTED***'; a body without a data dict is not touched |
| Gateway.ReadInitResponse | Backend/services/flutterwave_service.py:196-214 | success iff HTTP 200 and status 'success', returning the link, the caller's tx_ref and the flw_ref; otherwise the gateway's message and response are reported |
| Gateway.InitializeValidatesFirst | Backend/services/flutterwave_service.py:150-158 | with either amount check, invalid input gives `validation_error` and makes no request (as written, a NaN amount is not invalid) |
| Gateway.InitializeSuccess | Backend/services/flutterwave_service.py:188-205 | with either amount check, a success came from valid input and a 200 'success' response, and echoes the input tx_ref |
| Gateway.InitializeReturnsLink | Backend/services/flutterwave_service.py:192-205 | with the log copy taken deeply, the checkout link the gateway returns reaches the caller |
| Gateway.InitializeReadsResponse | Backend/services/flutterwave_service.py:186-214 | with either amount check, once the input is valid, the result is read off the gateway's reply for the input tx_ref |
| Gateway.SuccessResponseRead | Backend/services/flutterwave_service.py:198-205 | a 200 'success' reply gives the link (redacted when the log copy aliases it), the input tx_ref, the gateway's flw_ref and the token |
| Gateway.FailureResponseRead | Backend/services/flutterwave_service.py:206-214 | any other reply is a failure with the gateway's message and status, or the defaults |
| Gateway.AsWrittenLinkIsRedacted | Backend/services/flutterwave_service.py:192-205 | as written, every successful initialisation hands back '***REDACTED***' as the payment link |
| Gateway.AsWrittenSuccessIsRedacted | Backend/services/flutterwave_service.py:150-205 | as written, any successful initialisation, whatever the reply, had an amount that passed the written check and hands back '***REDACTED***' as the payment link |
| Gateway.LoggedLinkIsRedacted | Backend/services/flutterwave_service.py:192-205 | a reply read through the aliased log copy, once successful, carries the redacted link |
| Gateway.NanAmountInitialization | Backend/services/flutterwave_service.py:150-185 | an amount that converts to NaN: the intended client refuses it with no request; the written one builds a payload whose amount is NaN and hands it to the transport, making one to three scripted requests |
| Gateway.InitializeReportsGatewayFailure | Backend/services/flutterwave_service.py:206-214 | a non-200 reply is a failure carrying the gateway's message and response |
| Gateway.ReadVerification | Backend/services/flutterwave_service.py:250-263 | a verification is read iff every required field is present, and carries those fields |
| Gateway.VerifyResponseResult | Backend/services/flutterwave_service.py:241-282 | verified exactly when the reply is an HTTP 200 JSON body with status 'success' whose transaction data passes the check (as written or as intended) and holds every field read, and then with those fields |
| Gateway.VerifyWith | Backend/services/flutterwave_service.py:231-282 | no request and 'temporarily unavailable' without a transaction id; otherwise exactly the retry loop's requests are made |
| Gateway.VerifyPaymentAsWritten | Backend/services/flutterwave_service.py:231-282 | as written, a verified amount converts to a float in (0, 100000000] or to NaN; whenever the intended client verifies, the written one gives the same outcome |
| Gateway.VerifyPayment | Backend/services/flutterwave_service.py:231-282 | as intended, a verified amount converts to a float in (0, 100000000] |
| Gateway.VerifyResponseRefines | Backend/services/flutterwave_service.py:243-263 | a reply the intended check verifies is read identically by the written check |
| Gateway.PassedAmount | Backend/services/flutterwave_service.py:394-399 | transaction data that passed either check has an amount converting to a float in (0, 100000000], or NaN under the written check |
| Gateway.VerifiedMeansValidated | Backend/services/flutterwave_service.py:236-266 | a verified result had an id, a 200 'success' reply and transaction data whose amount is in (0, 100000000], or NaN when the check is the one written; the verification's fields are that data's |
| Gateway.VerifiedResponse | Backend/services/flutterwave_service.py:243-263 | a reply read as verified is a 200 'success' reply whose transaction data has an amount in (0, 100000000], or NaN when the check is the one written, and the verification's status, reference and amount are that data's |
| Gateway.NanTransactionVerification | Backend/services/flutterwave_service.py:243-263 | a 200 'success' reply with complete transaction data whose amount converts to NaN is verified as written and refused as intended |
| Gateway.VerifyPaymentByReference | Backend/services/flutterwave_service.py:284-310 | with either transaction check, a lookup request that raises is reported as the service being unavailable |
| Gateway.ByReferenceVerifiesReturnedId | Backend/services/flutterwave_service.py:292-296 | a found reference is verified through the id the lookup returned |
| Gateway.ByReferenceNotFound | Backend/services/flutterwave_service.py:297-302 | a non-200 lookup means the transaction is not found |
| Properties.Power | Backend/properties_app/models.py:99-101 | a positive base has positive powers |
| Properties.PowerAboveOne | Backend/properties_app/models.py:99-101 | (1+r)^n > 1 for r > 0 and n > 0 |
| Properties.IntPowerIsOneOnlyAtZero | Backend/properties_app/models.py:99-101 | (1+r)^n = 1 only for n = 0, so the annuity denominator is non-zero |
| Properties.MonthlyPayment | Backend/properties_app/models.py:97-103 | defined iff the plan has months (zero months divides by zero) |
| Properties.DownPayment | Backend/properties_app/models.py:94-95 | for a non-negative price and a percentage in [0, 100], the down payment lies between 0 and the price; at 100% it is the whole price |
| Properties.ZeroInterestRepaysPrice | Backend/properties_app/models.py:94-103 | at zero interest, down payment plus months times monthly payment is the price |
| Properties.GeometricSumIdentity | Backend/properties_app/models.py:99-101 | x^n - 1 = (x-1)(1 + x + ... + x^(n-1)) |
| Properties.GeometricSumAtMost | Backend/properties_app/models.py:99-101 | for x >= 1 the geometric sum is at most n x^(n-1) |
| Properties.GeometricSumBelow | Backend/properties_app/models.py:99-101 | for x > 1 the geometric sum is below n x^n |
| Properties.MultiplyStrict | Backend/properties_app/models.py:99-101 | multiplying by a positive factor keeps a strict order |
| Properties.PositiveInterestCostsMore | Backend/properties_app/models.py:97-101 | with positive interest, the instalments together cost more than the principal |
| Properties.AnnuityExceedsPrincipal | Backend/properties_app/models.py:99-101 | n annuity payments exceed the principal when (1+r)^n - 1 = r·S and S < n(1+r)^n |
| Properties.SixMonthPlanExample | Backend/properties_app/tests.py:145-151 | 30% of 50,000,000 is 15,000,000 and the six-month interest-free instalment is 35,000,000/6 |
| Properties.LandSaved | Backend/properties_app/models.py:71-80 | the intended save (the acre factor as a Decimal): the total price is size times unit price only when unset and both factors are set; the acreage is derived only when unset; nothing else changes |
| Properties.LandSavedAsWritten | Backend/properties_app/models.py:71-80 | the save as written: it raises exactly when the size is a Decimal, nonzero, and the acreage is unset; otherwise it stores what the intended save stores |
| Properties.DecimalSizeWithoutAcresNeverSaves | Backend/properties_app/models.py:77-78 | a plot with a Decimal size and no acreage is never saved as written; with an int size, or with the intended save, its acreage is the size times 0.000247105 |
| Properties.LandSavedIdempotent | Backend/properties_app/models.py:71-80 | saving a plot twice is saving it once |
| Properties.SoftDeleted | Backend/core/models.py:19-22 | a soft-deleted plot is inactive, stamped with the deletion instant, and keeps its status and pricing |
| Properties.SoftDeleteTwice | Backend/core/models.py:19-22 | deleting twice equals deleting once at the later instant |
| Properties.Land.constructor | Backend/core/models.py:16-17 | a new plot is available, active and not deleted, and is saved once |
| Properties.Land.Save | Backend/properties_app/models.py:71-80 | the stored state is `LandSaved` of the old one (the intended save) |
| Properties.Land.SoftDelete | Backend/core/models.py:19-22 | the stored state is `SoftDeleted` of the old one |
| Properties.LandReservation.constructor | Backend/properties_app/models.py:108-123 | a new reservation is active with the given fee, duration and expiry |
| Properties.LandReservation.Save | Backend/properties_app/models.py:128-133 | the expiry becomes today plus the duration only when unset; nothing else changes |
| Properties.LandReservation.IsExpired | Backend/properties_app/models.py:135-137 | expired iff today is strictly after the expiry date; undefined without one |
| Payments.PurchaseReference | Backend/payments_app/models.py:58-60 | 'LAND-' + stamp + '-' + suffix |
| Payments.PaymentReference | Backend/payments_app/models.py:140-142 | 'LAND-PAY-' + stamp + '-' + suffix |
| Payments.PaymentTxRef | Backend/payments_app/models.py:144-145 | 'land_' + payment reference + '_' + the second count |
| Payments.AttemptTxRef | Backend/payments_app/models.py:245-247 | 'myhouse_attempt_' + the second count + '_' + the random part |
| Payments.GeneratedReferencesNeverMatch | Backend/payments_app/models.py:144-145 | a payment's tx_ref can never equal an attempt's tx_ref |
| Payments.PurchaseSaved | Backend/payments_app/models.py:57-67 | a reference is generated only when empty; with a plan and a zero down payment, the down payment and instalment count come from the plan; nothing else changes |
| Payments.PurchaseSavedIdempotent | Backend/payments_app/models.py:57-67 | a second save changes nothing |
| Payments.LandPurchase.constructor | Backend/payments_app/models.py:8-67 | a new purchase is a saved draft with a 'LAND-' reference |
| Payments.LandPurchase.Save | Backend/payments_app/models.py:57-67 | the stored state is `PurchaseSaved` of the old one |
| Payments.LandPurchase.NextInstallmentAmount | Backend/payments_app/models.py:73-76 | zero unless there is a plan and the down payment is paid; undefined only for a zero-month plan |
| Payments.InterestFreeInstalmentsPayThePrice | Backend/payments_app/models.py:62-76 | after an interest-free down payment, the down payment plus all instalments is the price |
| Payments.SumAppend | Backend/payments_app/models.py:70 | summing is additive over concatenation |
| Payments.SumPermutation | Backend/payments_app/models.py:70 | a sum does not depend on the order of its terms |
| Payments.CompletedAmounts | Backend/payments_app/models.py:70 | the amounts of the purchase's completed payments, no more of them than payments |
| Payments.LandPurchase.RemainingBalance | Backend/payments_app/models.py:69-71 | with no completed payment of this purchase, the remaining balance is the whole price |
| Payments.CompletedAmountsAppend | Backend/payments_app/models.py:70 | the completed amounts of a concatenation are the concatenation of the completed amounts |
| Payments.CompletedAmountsPermutation | Backend/payments_app/models.py:70 | permuting the payments permutes their completed amounts |
| Payments.RemainingBalanceIgnoresOrder | Backend/payments_app/models.py:69-71 | the remaining balance depends only on the multiset of payments |
| Payments.RemainingBalanceAfterPayment | Backend/payments_app/models.py:69-71 | another completed payment of this purchase lowers the balance by its amount; any other payment leaves it unchanged |
| Payments.PaymentSaved | Backend/payments_app/models.py:139-147 | references are filled only when empty (tx_ref from the final payment reference); nothing else changes; both end non-empty |
| Payments.PaymentSavedKeepsReferences | Backend/payments_app/models.py:139-147 | saving a payment that has its references changes nothing |
| Payments.LandPayment.constructor | Backend/payments_app/models.py:83-147 | a new payment is saved once and gets fresh 'LAND-PAY-' and 'land_' references |
| Payments.LandPayment.Save | Backend/payments_app/models.py:139-147 | the stored state is `PaymentSaved` of the old one |
| Payments.NewPayment | Backend/payments_app/views.py:69-84 | a new payment row: no references, the given amount, type and status, not an instalment, unpaid |
| Payments.AttemptSaved | Backend/payments_app/models.py:243-257 | failed or cancelled forces the failure flag and stamps completion; completed clears the flag and stamps; the tx_ref is generated only when empty |
| Payments.MarkedProcessing | Backend/payments_app/models.py:263-267 | processing, stamped with its start; failure flag, completion and response kept |
| Payments.MarkedCompleted | Backend/payments_app/models.py:269-275 | completed, not failed, stamped; the gateway response is replaced only when data is given |
| Payments.MarkedFailed | Backend/payments_app/models.py:277-285 | failed, flagged, stamped, with the error message; the response is replaced only when data is given |
| Payments.AttemptStatusFlow | Backend/properties_app/tests.py:125-143 | initiated, then processing, then completed gives a completed, unflagged attempt; a failure gives a failed, flagged one with the message |
| Payments.NewAttempt | Backend/payments_app/models.py:243-257 | a new attempt is initiated, unflagged, with a fresh 'myhouse_attempt_' tx_ref |
| Payments.PaymentAttempt.constructor | Backend/payments_app/models.py:165-173 | the created attempt has the given payment and number and is `NewAttempt` |
| Payments.PaymentAttempt.Save | Backend/payments_app/models.py:243-257 | the stored state is `AttemptSaved` of the old one |
| Payments.PaymentAttempt.MarkProcessing | Backend/payments_app/models.py:263-267 | the stored state is `MarkedProcessing` of the old one |
| Payments.PaymentAttempt.MarkCompleted | Backend/payments_app/models.py:269-275 | the stored state is `MarkedCompleted` of the old one |
| Payments.PaymentAttempt.MarkFailed | Backend/payments_app/models.py:277-285 | the stored state is `MarkedFailed` of the old one |
| Ledger.FindPayment | Backend/services/flutterwave_service.py:418 | the payment with that tx_ref, or none exactly when no payment has it |
| Ledger.FindAttempt | Backend/services/flutterwave_service.py:421 | an attempt of that payment with that tx_ref, or none exactly when there is none |
| Ledger.AttemptCount | Backend/payments_app/models.py:160-163 | the number of attempts of a payment, at most the table size |
| Ledger.AttemptCountAppend | Backend/payments_app/models.py:160-173 | a new row adds one to its own payment's count and nothing to the others |
| Ledger.UniqueAttemptsAppend | Backend/payments_app/models.py:236-238 | appending an attempt with a fresh tx_ref and a fresh number keeps both uniqueness constraints |
| Ledger.Database.constructor | Backend/payments_app/models.py:83-238 | an empty database is valid and has only `land_` transaction references |
| Ledger.Database.InsertPayment | Backend/payments_app/models.py:139-147 | a payment is inserted iff its generated references are not taken; the database stays valid and keeps only `land_` transaction references if it had only those |
| Ledger.Database.InsertAttempt | Backend/payments_app/models.py:236-257 | an attempt is inserted iff its tx_ref and number are free; attempt numbering stays 1..count |
| Ledger.Database.AppendAttempt | Backend/payments_app/models.py:236-257 | appending an attempt with a free reference and number keeps the tables valid, and keeps numbering 1..count when it is numbered count + 1 |
| Ledger.NumberedAppend | Backend/payments_app/models.py:165-173 | appending the attempt numbered one past its payment's count keeps every payment's attempts numbered 1..count |
| Ledger.Database.CreateNewAttempt | Backend/payments_app/models.py:165-173 | the new attempt is numbered count + 1 and is refused only when its tx_ref is taken |
| Ledger.Database.InsertScheduleRow | Backend/payments_app/models.py:181-191 | a row is inserted iff its (purchase, number) pair is free |
| Ledger.NextNumberFree | Backend/payments_app/models.py:161-169 | number count + 1 is never taken when numbers run 1..count |
| Ledger.AttemptReferenceFindsNoPayment | Backend/services/flutterwave_service.py:418 | where every payment has a `land_` transaction reference, no payment is found under an attempt's tx_ref |
| Webhooks.TxRefKey | Backend/services/flutterwave_service.py:415 | the string tx_ref of the event data, when it is one |
| Webhooks.PaymentFor | Backend/services/flutterwave_service.py:415-418 | the payment whose tx_ref the data names, or none exactly when no payment matches |
| Webhooks.Settled | Backend/services/flutterwave_service.py:426-431 | completed, paid now, with the gateway's id, method and data; nothing else changes |
| Webhooks.Declined | Backend/services/flutterwave_service.py:456-458 | failed with the data as response; nothing else changes |
| Webhooks.FailureMessage | Backend/services/flutterwave_service.py:451-454 | the processor response, or "Payment failed" when absent |
| Webhooks.AttemptFor | Backend/services/flutterwave_service.py:421 | the payment's attempt under the payment's own tx_ref, or null when there is none |
| Webhooks.StoreSettlement | Backend/services/flutterwave_service.py:426-431 | the stored payment is `Settled` |
| Webhooks.StoreDecline | Backend/services/flutterwave_service.py:457-459 | the stored payment is `Declined` |
| Webhooks.RecordSettlement | Backend/services/flutterwave_service.py:420-431 | the attempt (if any) is completed and the payment settled; nothing else changes and the tables stay valid |
| Webhooks.RecordDecline | Backend/services/flutterwave_service.py:449-459 | the attempt (if any) is failed with the processor message and the payment declined; nothing else changes and the tables stay valid |
| Webhooks.SettlePayment | Backend/services/flutterwave_service.py:412-441 | found iff a payment has the tx_ref; that payment settles and its matching attempt completes; all else unchanged |
| Webhooks.HandleFailedPayment | Backend/services/flutterwave_service.py:443-466 | found iff a payment has the tx_ref; that payment is declined and its matching attempt failed with the processor message; all else unchanged |
| Webhooks.Classify | Backend/services/flutterwave_service.py:312-384 | rejected iff the signature fails or the payload lacks event, data or tx_ref; otherwise routed by event name |
| Webhooks.Dispatch | Backend/services/flutterwave_service.py:318-346 | a rejection changes nothing; settle and decline run their handler; other events change nothing |
| Webhooks.HandleWebhookAsWritten | Backend/services/flutterwave_service.py:433 | as written, a settled payment is stored but the call reports failure |
| Webhooks.HandleWebhook | Backend/services/flutterwave_service.py:312-349 | reports success iff the event was accepted and, for a charge event, the payment was found; the tables change as `Dispatch` says |
| Webhooks.RedeliveryRestampsPayment | Backend/services/flutterwave_service.py:418-431 | a redelivered success is applied again and moves the paid date |
| Webhooks.FailureAfterSettlement | Backend/services/flutterwave_service.py:443-458 | a failure notice after a settlement turns a completed payment into a failed one |
| Webhooks.AttemptReferenceSettlesNothing | Backend/services/flutterwave_service.py:418 | where every payment has a `land_` transaction reference, an event under an attempt's tx_ref finds no payment |
| Webhooks.InitiatedChargeIsIgnored | Backend/services/flutterwave_service.py:312-441 | where every payment has a `land_` transaction reference, the completion of a charge that initiation opened reports failure and changes nothing |
| Users.Enabled | Backend/users_app/models.py:44-48 | 2FA on with the given method; role and phone kept |
| Users.Disabled | Backend/users_app/models.py:50-54 | 2FA off with no method; role and phone kept |
| Users.DisableUndoesEnable | Backend/users_app/models.py:44-54 | enabling then disabling returns the default state |
| Users.User.constructor | Backend/users_app/models.py:18-26 | a new user has 2FA off and no method |
| Users.User.EnableTwoFactor | Backend/users_app/models.py:44-48 | the stored state is `Enabled` |
| Users.User.DisableTwoFactor | Backend/users_app/models.py:50-54 | the stored state is `Disabled` |
| Auth.TwoFactorAuth.constructor | Backend/auth_app/models.py:11-12 | a new code is unused with no attempts |
| Auth.TwoFactorAuth.IncrementAttempts | Backend/auth_app/models.py:24-27 | attempts go up by exactly one; nothing else changes |
| Auth.TwoFactorAuth.MarkUsed | Backend/auth_app/models.py:29-32 | used; nothing else changes; a second call changes nothing |
| Auth.ExpiryIsStrict | Backend/auth_app/models.py:20-22 | expired iff now is strictly after the expiry: live at the expiry instant, expired one second later |
| Auth.TwoFactorAuth.IsExpired | Backend/auth_app/models.py:20-22 | a code is not expired up to its expiry instant and is expired from the next second on |
| Auth.EmailOtp | Backend/auth_app/services.py:31-33 | six digits, no leading zero, denoting the drawn number |
| Auth.LeadingDigitNonZero | Backend/auth_app/services.py:32 | the decimal string of a positive number does not start with '0' |
| Auth.TwoFactorService.GenerateOtp | Backend/auth_app/services.py:14-43 | retires exactly the user's live codes, leaves other rows alone, adds an unused code expiring in 10 minutes, with a secret for 'app' only; afterwards it is the user's only live code |
| Tasks.RolledUp | Backend/payments_app/tasks.py:126-147 | completed and dated iff the purchase is cleared; otherwise down-payment-paid, reserved or unchanged by type; the down-payment flag records a settled down payment; nothing else changes |
| Tasks.TotalPaid | Backend/payments_app/tasks.py:120-124 | with no completed payment of the purchase, the total paid is 0 |
| Tasks.LandAfterRollup | Backend/payments_app/tasks.py:130-147 | the land becomes sold when the purchase is cleared, otherwise unchanged |
| Tasks.UpdateLandPurchaseStatus | Backend/payments_app/tasks.py:112-159 | the total is the sum of completed payments; purchase and land end as the roll-up functions say |
| Tasks.ApplyTypeRule | Backend/payments_app/tasks.py:126-138 | the purchase takes the step its payment type calls for; the plot is sold only on a full payment that covers the price |
| Tasks.ApplyPlanRule | Backend/payments_app/tasks.py:140-147 | a purchase on a plan with its down payment paid and the price covered is completed and its plot sold; otherwise nothing changes |
| Tasks.SellsByEitherRule | Backend/payments_app/tasks.py:127-147 | the plot is sold exactly when the full-payment rule or the completed-plan rule fires |
| Tasks.LandRollupTwice | Backend/payments_app/tasks.py:130-147 | the two marking steps together mark the plot as one step would when either of them sells |
| Tasks.SellLand | Backend/payments_app/tasks.py:130-131 | the land is marked sold |
| Tasks.RollupIsIdempotent | Backend/payments_app/tasks.py:126-149 | rolling up twice over the same payments gives the same status and flag |
| Tasks.LandRollupIsIdempotent | Backend/payments_app/tasks.py:130-147 | marking sold twice is marking sold once |
| Tasks.RollupIgnoresOrder | Backend/payments_app/tasks.py:120-124 | the total paid depends only on the multiset of payments |
| Tasks.ClearedBalanceCompletes | Backend/payments_app/tasks.py:126-147 | for a full payment or a plan with the down payment in, the purchase completes iff the remaining balance is not positive |
| Tasks.Swept | Backend/payments_app/tasks.py:351-363 | a pending payment older than a day becomes expired with an `auto_expired_at` stamp; anything else is unchanged; the result is never stale |
| Tasks.SweepIsIdempotent | Backend/payments_app/tasks.py:351-363 | sweeping twice is sweeping once |
| Tasks.StaleCount | Backend/payments_app/tasks.py:353-358 | the number of stale payments; zero iff none is stale |
| Tasks.CleanupOldPendingPayments | Backend/payments_app/tasks.py:346-370 | reports the number of stale payments, expires exactly those, and leaves none stale |
| Tasks.ExpireTable | Backend/payments_app/tasks.py:360-363 | every payment of the table is `Swept`, none stays stale, and the tables stay valid |
| Tasks.ExpireStale | Backend/payments_app/tasks.py:360-363 | each payment of the batch is `Swept`; none stays stale |
| Tasks.ExpireIfStale | Backend/payments_app/tasks.py:360-363 | one payment is `Swept` |
| Tasks.SweptKeepsReferences | Backend/payments_app/tasks.py:360-363 | expiring a payment keeps both of its references |
| Tasks.EncodeObject | Backend/payments_app/tasks.py:42-44 | a dict is JSON-encodable iff every value is; the encoding keeps keys and values |
| Tasks.ReceiptEntries | Backend/payments_app/tasks.py:26-39 | receipt number 'RCP-' + reference, the amount, currency and both references, and the method defaulting to 'Flutterwave' |
| Tasks.Wrapped | Backend/payments_app/tasks.py:42-44 | JSON values embedded as Python values, key by key |
| Tasks.EncodeWrapped | Backend/payments_app/tasks.py:42-44 | a dict of JSON values with one more JSON entry encodes to itself |
| Tasks.ReceiptFields | Backend/payments_app/tasks.py:26-39 | the receipt dict: the entries above plus the payment date as given |
| Tasks.MetadataWithReceipt | Backend/payments_app/tasks.py:42-45 | storable iff the receipt encodes; then only the receipt keys are written and every other key is kept |
| Tasks.ReceiptAsWrittenNeverStored | Backend/payments_app/tasks.py:26-45 | as written, a receipt carrying a datetime never encodes, so nothing is stored |
| Tasks.ReceiptJson | Backend/payments_app/tasks.py:26-39 | with the date as ISO text the receipt encodes, dated by the paid date or now |
| Tasks.GenerateReceipt | Backend/payments_app/tasks.py:18-54 | the payment's metadata gains the receipt; nothing else changes; the message names the reference |
| Views.IntString | Backend/payments_app/views.py:307 | `str(n)` of a non-negative integer is its decimal string |
| Views.InitiationAmount | Backend/payments_app/views.py:59-67 | the price for a full payment, the plan's down payment, the reservation fee (5% of the price by default), or the supplied amount |
| Views.InitiationAmountAsWritten | Backend/payments_app/views.py:59-67 | as written, a reservation fee never yields an amount (the default raises); every other type selects the same amount as intended |
| Views.ReservationFeeNeverInitiates | Backend/payments_app/views.py:59-67 | both versions agree except for reservations, where the written one never yields an amount and the corrected one does whenever the price is known |
| Views.InitiationRecord | Backend/payments_app/views.py:69-84 | a pending payment of the chosen amount and type, due today, without references |
| Views.ChargeData | Backend/payments_app/views.py:96-106 | the gateway request carries the given tx_ref and amount |
| Views.Charged | Backend/payments_app/views.py:110-134 | on gateway success the payment and attempt go to processing and the reply carries the link; on failure both fail with the gateway's message |
| Views.AttachPlan | Backend/payments_app/views.py:54-57 | the purchase gets the requested plan and is saved |
| Views.OpenCharge | Backend/payments_app/views.py:69-91 | inserts the payment, then attempt number 1, each only when its references are free |
| Views.InitiateLandPaymentAsWritten | Backend/payments_app/views.py:69-140 | as written, initiation always ends in the error reply, leaving a pending payment and an initiated attempt behind |
| Views.InitiateLandPayment | Backend/payments_app/views.py:29-140 | refuses a plot not on sale and an unknown amount; otherwise records the payment and attempt 1 and charges them through the client as written, as `Charged` says |
| Views.ChargeOnce | Backend/payments_app/views.py:69-133 | with both rows created, the attempt numbered 1 and the reply, payment and attempt are as `Charged` says for the answer of `Gateway.InitializePaymentAsWritten`; otherwise the failure reply and no attempt |
| Views.StartCharge | Backend/payments_app/views.py:110-134 | payment and attempt end as `Charged` says |
| Views.MarkAttempt | Backend/payments_app/views.py:112-126 | the attempt is marked processing or failed |
| Views.Store | Backend/payments_app/views.py:113-128 | the payment is stored with the given state; the database stays valid |
| Views.Assign | Backend/payments_app/views.py:113-127 | status, paid date, payment method and response are taken from the given state, which agrees with the payment on every other column |
| Views.ScheduleRows | Backend/payments_app/views.py:366-374 | row k is numbered k, due today + 30k days, for the monthly amount, unpaid |
| Views.RowAmounts | Backend/payments_app/views.py:371 | the amounts of the rows, in order |
| Views.ScheduleRowsTotal | Backend/payments_app/views.py:366-374 | the rows together ask for count times the monthly amount |
| Views.InterestFreeScheduleRepaysPrice | Backend/payments_app/views.py:366-374 | at zero interest, down payment plus the whole schedule is the price |
| Views.FreeRun | Backend/payments_app/views.py:367-374 | how many numbers 1, 2, ... are free before the first taken one |
| Views.Scheduled | Backend/payments_app/views.py:360-376 | no plan creates nothing; rows 1..n are added while their numbers are free; success iff all n were free |
| Views.GenerateInstallmentSchedule | Backend/payments_app/views.py:360-376 | the loop leaves the schedule and result that `Scheduled` gives |
| Views.NewRowsDoNotClash | Backend/payments_app/views.py:367-374 | after rows 1..i-1 are added, number i is free iff it was free before |
| Views.VerifyTarget | Backend/payments_app/views.py:159-162 | the transaction id when set, else the payment's tx_ref |
| Views.VerificationJson | Backend/services/flutterwave_service.py:250-263 | the stored verification carries success, status, method, amount and tx_ref |
| Views.VerifiedPayment | Backend/payments_app/views.py:165-171 | completed, paid now, with method and response; nothing else changes |
| Views.RejectedPayment | Backend/payments_app/views.py:202-206 | failed with the response; nothing else changes |
| Views.VerifiedPurchase | Backend/payments_app/views.py:174-190 | completed for a full payment, down-payment-paid with the flag for a down payment, reserved for a reservation, otherwise unchanged |
| Views.VerificationAndNotificationAgree | Backend/payments_app/views.py:165-171 | the verify path and the webhook both complete the payment at the same instant; only the webhook stores the transaction id |
| Views.VerifiedFullPaymentCompletesWhateverTheAmount | Backend/payments_app/views.py:174-178 | the verify path completes a full-payment purchase even where the roll-up, with nothing paid, would not |
| Views.VerifyLandPaymentAsWritten | Backend/payments_app/views.py:159-162 | as written, verification always ends in the error reply and changes nothing |
| Views.VerifyLandPayment | Backend/payments_app/views.py:146-229 | with the answer of `Gateway.VerifyPaymentAsWritten`: a gateway refusal changes nothing; another provider status fails the payment only; success completes it and advances purchase, land and schedule by type |
| Views.CompleteVerified | Backend/payments_app/views.py:164-201 | the successful branch as a whole |
| Views.SaveVerified | Backend/payments_app/views.py:174-190 | the purchase is stored as `VerifiedPurchase`, then saved |
| Views.SettleByType | Backend/payments_app/views.py:175-187 | a full payment sells the plot, a down payment generates the schedule and fails only when that does; nothing else changes |
| Views.FindRow | Backend/payments_app/views.py:284-288 | the schedule row with that number, or none exactly when it is absent |
| Views.InstallmentRecord | Backend/payments_app/views.py:297-312 | a pending instalment payment copying the row's amount, number and due date |
| Views.InstallmentCharged | Backend/payments_app/views.py:331-350 | on gateway success the payment stays initiated and the reply carries the link; otherwise it fails |
| Views.PayInstallment | Backend/payments_app/views.py:272-357 | refuses an unpaid down payment, a missing row and a paid row; otherwise records and charges the instalment through the client as written |
| Views.OpenInstallment | Backend/payments_app/views.py:296-350 | a reference clash leaves no payment; otherwise the new payment is charged through the client as written and ends as `InstallmentCharged` says |
| Views.InstallmentLinkRedacted | Backend/payments_app/views.py:314-338 | an instalment charge the gateway accepted replies with the '***REDACTED***' placeholder as its payment link |
| Views.ChargeInstallment | Backend/payments_app/views.py:329-350 | the payment ends as `InstallmentCharged` says |

## Left out

- The HTTP transport and the Flutterwave endpoints are not modelled. A
  request is a scripted outcome, and `time.sleep` appears only as its delay
  value.
- HMAC-SHA256, PBKDF2/Fernet encryption (`encrypt_sensitive_data`,
  `decrypt_sensitive_data`), `secrets`, `uuid4`, `random.randint` and the
  pyotp TOTP are parameters. Only the drawn ranges are kept.
- `get_transaction_history` is not modelled: it is an HTTP query with no
  state.
- `_check_webhook_rate_limit` is not modelled: it always returns true.
- `_handle_transfer_event` only logs, so it is not modelled.
- The Celery side is left out: `.delay`, `self.retry`,
  `send_land_payment_confirmation`, `notify_sales_team`,
  `process_failed_payment`, `send_installment_reminder` and
  `trigger_land_post_payment_actions`. These are e-mail and queue I/O. The
  receipt task's retry on error is also left out.
- The e-mail and SMS sending in `TwoFactorService` is left out.
- The Django ORM and the REST plumbing are glue and are not modelled:
  - the request serializers;
  - `get_or_create`, `get_object_or_404` and the `select_related` lookups;
  - the buyer foreign key and the response envelopes with their status codes.
  The views take the record they act on directly. The plan is given
  instead of being looked up by id.
- `get_installment_payment_schedule` and `payment_history` are read-only
  listings and are not modelled.
- Floating point is not modelled. Finite amounts are exact, so the
  rounding of `float` is not modelled. A numeral such as
  "100000000.000000001", which rounds to 100000000.0, is accepted by the
  source and refused by the model. "1e400" overflows to infinity in the
  source; the model keeps the exact value. Both are refused. The acres
  factor 0.000247105 is an exact constant. Decimal rounding in the interest
  formula is not modelled.
- Gateway.ValidateAmount: `float` of a string reads white space, a sign,
  digit groups, a point, an exponent, "inf", "infinity" and "nan". It does
  not read non-ASCII decimal digits, which Python's `float` accepts (for
  example Arabic-Indic digits); those strings are refused. The same holds
  for Gateway.ValidateAmountAsWritten.
- Gateway.ValidateTransactionData: the amount is read by the same `float`,
  so non-ASCII decimal digits are not read here either. The same holds for
  Gateway.ValidateTransactionDataAsWritten.
- Text.Lower: only the ASCII letters A-Z are lowered. Python's `str.lower`
  lowers every cased letter: 'É' becomes 'é', and 'İ' becomes two code
  points. Gateway.SanitizeCustomerData therefore stores an e-mail with a
  non-ASCII capital unchanged, where the source lowers it.
- Concurrency between the redirect-verify view and the webhook is not
  modelled. They are sequential calls in the model.
- Each call reads the clock once. The sweep calls `timezone.now()` again in
  every iteration; the model uses the one instant.
- `PaymentAttempt.flutterwave_transaction_id` is never set by the source, so
  it is not modelled.
- Webhooks.PaymentFor: a `tx_ref` that is not a string finds no payment.
  The ORM's coercion of other types is not modelled.
- Properties.MonthlyPayment: computed exactly, without the two-place
  Decimal quantisation of the stored field.
- Webhooks.Settled: `payment_method` is a NOT NULL column. A notification
  whose `payment_type` is null makes `payment.save()` raise IntegrityError
  after the attempt was saved completed, and `handle_webhook` then returns
  False. The model stores the null and reports success.
- Webhooks.RecordDecline: `error_message` is a NOT NULL column. A null
  `processor_response` makes the attempt's save in `mark_failed` raise before
  the payment is touched. The model stores the null and declines the payment.
- Views.VerifiedPayment: a verification whose `payment_type` is null makes
  the payment's save raise IntegrityError (`payment_method` is NOT NULL). The
  model stores the null and completes the payment.
- Views.VerifyLandPayment: the transaction id is not stored by the source's
  verify path, and the model does not store it either. The schedule rows
  are never marked paid by any core operation.
- Views.InitiateLandPayment: a `LandPayment.DoesNotExist` branch in the
  source cannot be reached and is not modelled. The 404 that
  `get_object_or_404` raises is caught by the view's own handler and
  answered with 500. The model covers this as the error reply.
- Gateway.NanAmountInitialization: as written, the client hands the
  transport a payload whose amount is NaN. Whether that body is serialised
  depends on the HTTP library: recent versions of `requests` refuse a NaN
  in `json=` and raise a RequestException. That would be a non-transient
  failure, which `initialize_payment` answers with `service_unavailable`.
  In the model it is one of the scripted outcomes; the model does not
  decide between them.

## Findings

| source | as written | input that shows it | evidently intended | confidence | as-written member | corrected member |
|---|---|---|---|---|---|---|
| Backend/services/flutterwave_service.py:192-205 | the log copy is `response_data.copy()`, a shallow copy, so redacting `log_data['data']['link']` also overwrites the caller's link | any 200 'success' reply with a `data.link` | only the logged copy is redacted and the real checkout link is returned | high, not executed | Gateway.AsWrittenLinkIsRedacted | Gateway.InitializeReturnsLink |
| Backend/payments_app/views.py:108 | `FlutterwaveService.initialize_payment(payment_data)` is called on the class, so `payment_data` binds to `self` and a TypeError is raised; the view answers 500, with the pending payment and initiated attempt left behind | any initiation of a plot on sale with a known amount | call the method on an instance; the client's code then runs as written, so a successful charge returns the redacted link (row above) | high, not executed | Views.InitiateLandPaymentAsWritten | Views.InitiateLandPayment |
| Backend/payments_app/views.py:159-162 | `FlutterwaveService.verify_payment(...)` is likewise called on the class and raises TypeError, so verification always fails | any verify request | call the method on an instance; the client's code then runs as written, so a NaN transaction amount is verified (row below) | high, not executed | Views.VerifyLandPaymentAsWritten | Views.VerifyLandPayment |
| Backend/payments_app/views.py:65 | the default `land.total_price * 0.05` multiplies a Decimal by a float. It is evaluated even when a fee is supplied, so it raises TypeError | any 'reservation_fee' initiation | a 5% default computed in Decimal | high, not executed | Views.ReservationFeeNeverInitiates | Views.InitiationAmount |
| Backend/services/flutterwave_service.py:433, 512-525 | `_trigger_secure_post_payment_actions` imports `notify_sales_team_secure`, which the tasks module does not define. The ImportError comes after `payment.save()`, so `handle_webhook` returns False for a payment it has completed | any 'charge.completed' event for a known tx_ref | import `notify_sales_team`, and report success | high, not executed | Webhooks.HandleWebhookAsWritten | Webhooks.HandleWebhook |
| Backend/payments_app/tasks.py:26-44 | `payment_date` is stored as a datetime in the JSON metadata, so encoding it fails and the receipt is never stored | any payment | store the ISO text of the date | medium, not executed | Tasks.ReceiptAsWrittenNeverStored | Tasks.GenerateReceipt |
| Backend/services/flutterwave_service.py:71-76 | NaN fails both `amount_float <= 0` and `amount_float > 100000000`, so the amount check returns NaN instead of refusing it | the amount "nan" or "-nan" | refuse anything but a finite amount in (0, 100 million] | high, not executed | Gateway.NanAmountIsAccepted | Gateway.ValidateAmount |
| Backend/services/flutterwave_service.py:395-397 | the same two tests let a NaN transaction amount pass validation | a transaction whose amount is "nan" | refuse anything but a finite amount in (0, 100 million] | high, not executed | Gateway.TransactionCheckMissesOnlyNan | Gateway.ValidateTransactionData |
| Backend/properties_app/models.py:77-78 | `size_square_meters` is a DecimalField, and a Decimal times the float 0.000247105 raises TypeError, so a save with a Decimal size and no acreage fails before anything is stored | a plot from a form or serializer (Decimal size) with `size_acres` blank | the acreage computed in Decimal | high, not executed | Properties.DecimalSizeWithoutAcresNeverSaves | Properties.LandSaved |
