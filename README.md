# Conference backend: payment reconciliation, credentials and check-in, in Dafny

This project models the service layer of a conference-management backend.
The backend runs on Node.js, Express and MongoDB. The model covers:

- **Payment reconciliation** with the OnePay gateway (`PaymentService`, `OnepayClient`):
  - initiating a checkout, reusing an open payment where one exists;
  - verifying a payment against the gateway's status API;
  - recording the gateway's callback for audit;
  - the bounded status poll of 12 checks that ends a payment PAID or FAILED, unless the gateway reports it paid with a `paid_on` that is not a date.
- **The QR credential** (`QrUtils`, `RegistrationQrService`, `RegistrationConfirmationService`):
  - issuing or reusing the credential of a paid registration, revoking the one it replaces;
  - mailing it once, guarded by the record's `emailSentAt`.
- **Check-in at the venue** (`CheckinService`):
  - the ordered chain of lifecycle checks on a scanned QR text or a typed registration id;
  - the one-way NOT_CHECKED_IN → CHECKED_IN transition, as an atomic compare-and-set.
- **Registrations** (`RegistrationHelper`, `RegistrationService`): pricing (income group, fee period, fee table), the public id, the update sanitizer, creation and repricing updates.
- **Abstract submission** (`AbstractHelper`, `AbstractService`, `AdminAbstractController`):
  - word count, keywords and co-author parsing;
  - the business rules, submission with its one confirmation mail, author and admin edits, attachments and paging;
  - the admin controller's id normaliser, status stripping and status colours.
- **Accounts** (`AuthService`, `ProfileService`): durations, register/login, refresh-token rotation, logout, password reset and profiles.
- **Small utilities** (`AdminService`, `Render`, `Server`): the admin date range, HTML escaping and `{{ key }}` templates, the CORS origin list and the error handler.

Shared modules:
- `Js`: the dynamic values the code handles (JSON bodies, gateway replies, token payloads) and JavaScript's coercions (truthiness, `String`, `Number`, `||`).
- `Common`: the thrown errors, as `HttpError(status, message, details)` and the runtime's and database's own errors.
- `Store`: the persisted Registration, Payment and RegistrationQr records, and the class `Database` whose fields the services' methods reassign.
  The payment, QR, confirmation and check-in services read and write only the fields a registration's schema names, so they use the typed record `Store.Registration`.
  `RegistrationService` creates and updates registrations from request bodies with arbitrary keys and update operators, so it works on `RegistrationService.Doc`, a dynamic document keyed by field name.
- `Runtime`: everything a call takes from its surroundings:
  - the environment variables;
  - signing, verification and SHA-256 as functions;
  - the random bytes each call draws;
  - date parsing;
  - the mail transport's verdict on each message.
- `Objects`: the sanitizers' copy loop.
- `Strings`: text utilities.
- `Wrappers`: `Option` and `Result`.

## How the model is built

- **Stateful operations.** Each one that changes stored documents is written twice:
  - a function over a snapshot of the tables, for example `PaymentService.VerifyOutcome`, returns the tables afterwards and the result or the thrown error;
  - a method on `Store.Database` performs the same steps in place, field by field, as the source does, for example `PaymentService.VerifyAndSync`;
  - the method's `ensures` ties its new state and result to the function. The lemmas state what the source promises about the function.
- **The poll loop** is a `while` loop over 12 checks (`PaymentService.RunChecks`, called by `PaymentService.PollChecksFrom`). The `i`-th status query is answered by `gateway(i)`. Check `i` happens `i · 5000` ms after the start: the sleep is replaced by arithmetic on an injected clock.
- **The gateway** is not called. Each operation receives the gateway's reply (`OnepayClient.FetchReply`). Of the checkout request, the model builds the JSON body with its rounded amount and hash (`OnepayClient.CheckoutBody`); the URLs and headers of the requests are not modelled.
- **Amounts** are exact rationals:
  - `Math.round(n·100)` is modelled as ⌊n·100 + ½⌋;
  - `toFixed(2)` rounds the magnitude half upwards.
- **Time** is an integer count of milliseconds passed in by the caller.
- **Flaws of the code** (listed under Findings) are kept: every operation does what the code does. Beside each affected operation, a definition whose name contains `Intended` applies the evident correction, and the promises the code's comments make are proved about that definition. The sanitizer corrections are the same operation applied to the body with its operator (`$…`) and dotted keys removed (`Objects.PlainBody`).

### Where the code and its own comments differ (the operations follow the code)

- **FAILED is not final.**
  - The comments at src/services/payment-service.js:24 and :290 say the poll ends by marking the payment "FAILED final".
  - The status endpoint returns early only for PAID (src/services/payment-service.js:306). So the next call verifies a FAILED payment with a transaction id again.
  - A reply that does not report payment moves it back to PENDING (src/services/payment-service.js:237-241).
  - See `PaymentService.PollRevivesFailed` and `PaymentService.VerifyUnpaidStaysPending`.
- **The callback does not always store its payload.**
  - The comments at src/services/payment-service.js:21 and :254 say every callback is stored for audit.
  - For an already-PAID payment the handler returns `alreadyProcessed` before the audit write (src/services/payment-service.js:267).
  - Otherwise it stores four fields and runs one verification (`PaymentService.CallbackOutcomes`).
- **A 409 amount or currency mismatch does not escape the poll.**
  - The comment at src/services/payment-service.js:334 says the catch is for transient gateway failures.
  - It catches the mismatch too and records it as `lastError`. The payment then ends FAILED with that message (`PaymentService.MismatchEndsFailed`).
- **A new registration is charged the test amount 1.**
  - The comment at src/services/registration-service.js:17 says the fee is calculated server-side.
  - The fee computed in `createRegistration` is not stored; `feeAmount` is 1 (src/services/registration-service.js:49).
  - Only an update that reprices stores the table amount (`RegistrationService.CreatedRegistration`, `RegistrationService.UpdateGuardsServerFields`).

### Other behaviour of the code the model keeps

- **The payment poll never sets FAILED from a gateway reply.** Only exhausting the 12 checks, or a missing transaction id, does (`PaymentService.PollFromEnds`).
- **A `paid_on` that is not a date stops the poll without a final status.**
  - `new Date(data.paid_on)` is then an Invalid Date, and `payment.save()` rejects with a cast error (src/services/payment-service.js:211-213). Nothing is written (`PaymentService.VerifyRefusesUndated`).
  - The loop's own copy of the payment already says PAID. Mongoose keeps a cast error on the document, so that copy's later saves fail too.
  - If a check is left, the next one returns the copy at once and the poll answers with the payment as stored, still PENDING or FAILED. After the last check only the registration is marked FAILED (`PaymentService.UndatedStopsPoll`).
- **The optional registration check at check-in does not apply to issued tokens.**
  - The check at src/services/checkin-service.js:61-64 is marked optional and reads a `registrationId` claim.
  - The issuer signs `rid` instead, so the check is skipped for every issued token (`CheckinService.MismatchNeedsRegistrationIdClaim`).
- **A missing required registration field is answered with 500.** `requireFields` throws a plain `Error`. The catch block of `createRegistration` turns it into a 500, not a 400 (`RegistrationService.MissingFieldIsServerError`).
- **Lookups by a request-supplied name see inherited names.**
  - The fee tables, the country table and the template variables are plain JavaScript objects, so a lookup also finds `Object.prototype`'s members.
  - Country "toString" is answered "Unable to calculate fee for this selection." (`RegistrationService.CreateUnpricedOnlyForInherited`).
  - Category "constructor" is priced with no amount (`RegistrationHelper.CalculateFee`).
  - `{{constructor}}` renders the function's text (`Render.RenderReplacesPlaceholder`).

## Model

| member | source | states |
|---|---|---|
| `PaymentService.SafeAlnumDash` | src/services/payment-service.js:33-35 | the result keeps only `[A-Za-z0-9-]`, is no longer than the input, is the input itself when every character is safe, and is "" when none is |
| `PaymentService.MakeReference` | src/services/payment-service.js:41-49 | a reference has 8 to 21 characters, all in `[A-Za-z0-9-]`; it reads back as the base taken from the registration id, a dash, and the 6-character suffix |
| `PaymentService.ReferenceKeepsId` | src/services/payment-service.js:41-49 | a short safe registration id is kept verbatim; one with no safe character becomes "REG"; a long one keeps its first 14 safe characters |
| `PaymentService.ReferenceSuffix` | src/services/payment-service.js:42 | the suffix has 6 characters, each an upper-case hex digit |
| `PaymentService.ToMinorUnits` | src/services/payment-service.js:51-55 | there is a value iff `Number(v)` is a number, and it is within half a unit of 100·n |
| `PaymentService.MinorUnitsOfCents` | src/services/payment-service.js:51-55 | an amount of whole cents converts to exactly that many minor units |
| `PaymentService.StatusMessage` | src/services/payment-service.js:182 | the message is the upper-cased `status_message`, else `message`, else ""; a chosen value that is not a string throws |
| `PaymentService.UnpaidMessageCountsAsPaid` | src/services/payment-service.js:184-189 | as written, status 0 with the message "unpaid" or "unsuccessful" counts as paid, because both contain PAID or SUCCESS |
| `PaymentService.UnpaidSplitsTests` | src/services/payment-service.js:184-189 | with any status other than `true`, `1` and `"1"`, the message "UNPAID" passes the code's test and fails the corrected one |
| `PaymentService.IntendedPaidTest` | src/services/payment-service.js:184-189 | the corrected test, which refuses a word preceded by "UN", accepts "PAID" and "PAYMENT SUCCESSFUL" and refuses "UNPAID" and "UNSUCCESSFUL" |
| `PaymentService.PaidTestCorrection` | src/services/payment-service.js:184-189 | whatever the corrected test accepts the code accepts too; where only the code accepts, every PAID or SUCCESS in the message is preceded by "UN" |
| `PaymentService.AffirmedFromAt` | src/services/payment-service.js:184-189 | the recursive search finds an affirmed word iff some position from the start on holds the word not preceded by "UN" |
| `PaymentService.LatestPayment` | src/services/payment-service.js:93-97 | the chosen payment belongs to the registration, is INITIATED or PENDING when only open ones are asked for, and no later-created one qualifies; none is chosen iff none qualifies |
| `PaymentService.PaymentWithTransaction` | src/services/payment-service.js:264 | the payment found carries that transaction id and no earlier one does; none is found iff none carries it |
| `PaymentService.FailureReason` | src/services/payment-service.js:64 | the reason is never empty, and a given reason wins over the stored error |
| `PaymentService.MarkedFailed` | src/services/payment-service.js:61-77 | the payment becomes FAILED and no payment is added |
| `PaymentService.MarkFailedFinal` | src/services/payment-service.js:61-77 | the database afterwards is `MarkedFailed` of the database before: the payment FAILED with its reason, and the registration FAILED with provider ONEPAY |
| `PaymentService.InitiateGuards` | src/services/payment-service.js:85-91 | an invalid id gives 400, a missing registration 404 and a PAID one 409, each with nothing written |
| `PaymentService.InitiateReusesOpenCheckout` | src/services/payment-service.js:93-119 | the result is reused iff the latest open payment is PENDING with a redirect; the checkout is then handed out again and nothing is written, attempts included |
| `PaymentService.InitiateCreatesOnlyWhenNoneOpen` | src/services/payment-service.js:99-109 | a payment is added iff the registration has no INITIATED/PENDING one; the new one has a reference of at most 21 characters, the configured currency (default USD) and the registration's fee |
| `PaymentService.CheckoutKeepsIdentity` | src/services/payment-service.js:112-159 | the checkout step writes only its payment, keeps its registration, reference, currency and amount, and never makes it PAID |
| `PaymentService.InitiateSuccess` | src/services/payment-service.js:121-153 | a new checkout leaves the payment PENDING with the gateway's transaction id and redirect as the schema's String cast gives them, attempts one higher and no error; the registration is PENDING with provider ONEPAY and the transaction id as reference |
| `PaymentService.LinkedOutcome` | src/services/payment-service.js:143-153 | a checkout succeeds only on a link whose transaction id and redirect cast to strings, and stores exactly those strings on the payment and the id on the registration |
| `PaymentService.InitiateFailure` | src/services/payment-service.js:154-159 | a failed checkout request leaves the payment FAILED with attempts one higher and the registrations unchanged; an HttpError is rethrown as it is, any other error becomes a 500 |
| `PaymentService.InitiateOnepayPayment` | src/services/payment-service.js:84-160 | the method's new database and result are those of `InitiateOutcome` |
| `PaymentService.Checkout` | src/services/payment-service.js:111-159 | the method's new database and result are those of `CheckoutOutcome` |
| `PaymentService.VerifyWritesOnlyItsPayment` | src/services/payment-service.js:169-250 | verification writes only its own payment, whose status stays as it was or becomes PAID or PENDING, so verification never marks it FAILED; identity, amount, currency and audit record are kept, the stored payment is returned, and an error writes nothing |
| `PaymentService.VerifyPaidIffConfirmed` | src/services/payment-service.js:170-235 | a payment becomes PAID iff it has a transaction id, its registration is stored, and the gateway reports it paid with no amount (minor units) or currency mismatch and with a `paid_on` that is absent or a date; the registration is then PAID with provider ONEPAY and the transaction id as reference |
| `PaymentService.SyncPaidIffConfirmed` | src/services/payment-service.js:195-235 | in the paid branch, PAID is reached iff neither the amount nor a given currency disagrees and a given `paid_on` is a date, and the registration then mirrors it |
| `PaymentService.SyncPaidIffAccepted` | src/services/payment-service.js:195-219 | for the status data itself: PAID is reached iff the data agrees with the payment and its `paid_on` is absent or a date; the registration is then PAID through ONEPAY with the transaction id |
| `PaymentService.SyncPaidRegistersPaid` | src/services/payment-service.js:209-219 | a paid branch that succeeds leaves the registration PAID with provider ONEPAY and the transaction id as reference |
| `PaymentService.SyncPaidRefusesUndated` | src/services/payment-service.js:195-213 | the paid branch is refused with the `paidAt` cast error iff the data agrees with the payment but its `paid_on` is given and is not a date |
| `PaymentService.VerifyRefusesUndated` | src/services/payment-service.js:169-213 | verification is refused with the `paidAt` cast error iff the payment is open, has a transaction id and a stored registration, and the gateway reports it paid with agreeing data and a `paid_on` that is not a date; the refusal writes nothing |
| `PaymentService.SyncPaidWritesOnlyItsPayment` | src/services/payment-service.js:195-235 | a mismatch writes nothing; success changes the payment only in status (PAID), paidAt and lastError, writes no other payment, and returns it as stored |
| `PaymentService.VerifyUnpaidStaysPending` | src/services/payment-service.js:237-249 | a readable reply that does not report payment leaves the payment and its registration PENDING, whatever the payment's status was |
| `PaymentService.VerifyOutcomeIntended` | src/services/payment-service.js:169-250 | verification with the corrected paid test adds and removes no payment |
| `PaymentService.VerifyIntendedPaidIffConfirmed` | src/services/payment-service.js:170-235 | with the corrected paid test, a payment becomes PAID iff it has a transaction id, its registration is stored and the gateway confirms it by a status code or an affirmed PAID or SUCCESS, with agreeing data and a `paid_on` that is absent or a date; the registration is then PAID with provider ONEPAY |
| `PaymentService.VerifyUnpaidMarksPaidAsWritten` | src/services/payment-service.js:184-235 | as written, a reply with message "UNPAID" and no amount or currency mismatch marks the payment PAID; with the corrected test it stays PENDING unless the status code reports payment |
| `PaymentService.VerifyAndSync` | src/services/payment-service.js:169-250 | the method's new database and result are those of `VerifyOutcome` |
| `PaymentService.RecordPaid` | src/services/payment-service.js:195-235 | the method's new database and result are those of `SyncPaid`, which refuses a `paid_on` that is not a date with the `paidAt` cast error and writes nothing (`SyncPaidRefusesUndated`) |
| `PaymentService.RecordNotPaid` | src/services/payment-service.js:237-249 | the method's new database and result are those of `SyncNotPaid` |
| `PaymentService.CallbackOutcomes` | src/services/payment-service.js:260-283 | a missing transaction_id gives 400 and an unknown one 404, with nothing written; an already-PAID payment gives alreadyProcessed with nothing written, audit included; otherwise the four callback fields are stored before the one verification |
| `PaymentService.HandleOnepayCallback` | src/services/payment-service.js:260-283 | the method's new database and result are those of `CallbackOutcome` |
| `PaymentService.PollFromStep` | src/services/payment-service.js:325-343 | one check of the loop: PAID ends the poll, anything else (errors included) moves on to the next check |
| `PaymentService.PollFromEnds` | src/services/payment-service.js:325-352 | from any check on, the poll returns its payment as stored and writes no other payment; unless a reply reports payment with a `paid_on` that is not a date, that payment is PAID or FAILED |
| `PaymentService.UndatedStopsPoll` | src/services/payment-service.js:209-352 | a check refused for its `paid_on` ends the poll with the payment as stored and no payment written; only if it was the last check is the registration marked FAILED |
| `PaymentService.PollEndsPaidOrFailed` | src/services/payment-service.js:294-353 | a poll that answers returns the registration's latest payment, which is PAID or FAILED unless a reply reports payment with a `paid_on` that is not a date |
| `PaymentService.SilentGatewayFails` | src/services/payment-service.js:325-352 | a gateway that never answers leaves the payment and its registration FAILED, with the transport error as lastError |
| `PaymentService.MismatchEndsFailed` | src/services/payment-service.js:324-352 | a gateway that always reports the wrong amount leaves the payment FAILED, with the 409 message as lastError and its amount unchanged, and its registration FAILED |
| `PaymentService.PollRevivesFailed` | src/services/payment-service.js:306-331 | a FAILED payment with a transaction id is verified again by a later poll and becomes PAID when the gateway confirms it (reports it paid with agreeing data and a readable or absent `paid_on`) |
| `PaymentService.GetPaymentStatusForRegistration` | src/services/payment-service.js:294-353 | the method's new database and result are those of `PollOutcome` |
| `PaymentService.PollChecksFrom` | src/services/payment-service.js:319-352 | the 12-check loop's new database and result are those of `PollFrom` from check 0 |
| `PaymentService.RunChecks` | src/services/payment-service.js:323-343 | the checks run until one finds the payment PAID, which is then returned as the whole poll returns it; otherwise all 12 run, and finishing from there with the last error gives the whole poll's outcome |
| `PaymentService.InitiateKeepsLinks` | src/services/payment-service.js:84-160 | initiation keeps every payment and QR record attached to a stored registration |
| `PaymentService.VerifyKeepsLinks` | src/services/payment-service.js:169-250 | verification keeps every link between records resolvable |
| `PaymentService.CallbackKeepsLinks` | src/services/payment-service.js:260-283 | callback handling keeps every link between records resolvable |
| `PaymentService.PollKeepsLinks` | src/services/payment-service.js:294-353 | the status poll keeps every link between records resolvable |
| `OnepayClient.To2dp` | src/utils/onepay-client.js:11-13 | the sign, then the magnitude rounded to hundredths, written with two decimals |
| `OnepayClient.NumberOfTo2dp` | src/utils/onepay-client.js:11-13 | the two-decimal text parses back to the rounded amount |
| `OnepayClient.Round2Idempotent` | src/utils/onepay-client.js:11-13 | rounding to hundredths twice is rounding once |
| `OnepayClient.HashPreimage` | src/utils/onepay-client.js:19-22 | the hashed text starts with app id and currency, ends with the salt, and what lies between reads back as the amount rounded to hundredths |
| `OnepayClient.CheckoutCredentials` | src/utils/onepay-client.js:5-9 | the checkout succeeds past configuration iff all four gateway variables are set and non-empty |
| `OnepayClient.CheckoutBodyAmount` | src/utils/onepay-client.js:42-50 | the body's amount and the hashed amount are the same rounded amount, whose text reads back as that amount |
| `OnepayClient.CheckoutBodyOptionalFields` | src/utils/onepay-client.js:61-67 | `items` is sent iff it is a non-empty array; `additional_data` defaults to "" |
| `OnepayClient.GatewayError` | src/utils/onepay-client.js:79-86 | a refused request is a 502 with the gateway's message or the default, and the gateway's JSON as details |
| `OnepayClient.CheckoutOutcomes` | src/utils/onepay-client.js:28-113 | the outcomes are missing configuration, 502 for a refused request, 502 when the id or redirect is missing, and success iff both are found through their fallbacks |
| `OnepayClient.CreateCheckoutLink` | src/utils/onepay-client.js:90-108 | a returned link always has a truthy transaction id and redirect URL; the gateway's reply without one is a 502 |
| `OnepayClient.StatusCredentials` | src/utils/onepay-client.js:115-121 | the status query needs the three gateway variables |
| `OnepayClient.GetTransactionStatus` | src/utils/onepay-client.js:115-144 | a non-OK reply gives 502 with the gateway's message or the default; an OK reply returns the raw JSON unchanged |
| `QrUtils.Prefix` | src/utils/qr/qr-utils.js:18-20 | the prefix is never empty and is "APSC2026" unless QR_PREFIX is set |
| `QrUtils.BuildQrText` | src/utils/qr/qr-utils.js:22-24 | the text starts with the prefix and a dot, followed by the token |
| `QrUtils.ParseQrText` | src/utils/qr/qr-utils.js:26-30 | there is a token iff the input is a string starting with the prefix and a dot, and the text is that start followed by the token |
| `QrUtils.ParseBuild` | src/utils/qr/qr-utils.js:22-30 | parsing the built text gives the token back |
| `QrUtils.ParseRejects` | src/utils/qr/qr-utils.js:26-29 | non-strings, "" and text without the prefix are refused |
| `QrUtils.MakeJti` | src/utils/qr/qr-utils.js:14-16 | a jti is 32 hexadecimal characters |
| `QrUtils.QrPayloadFields` | src/utils/qr/qr-utils.js:36-43 | sub, rid and ct are strings (ct "" without a conference type); iat is whole seconds; exp is present iff there is an expiry; there is no `registrationId` claim |
| `QrUtils.CreateQrJwtToken` | src/utils/qr/qr-utils.js:32-47 | the token fails iff the secret is unset, and otherwise depends only on the payload and the secret, so equal inputs give equal tokens |
| `QrUtils.VerifyQrJwtToken` | src/utils/qr/qr-utils.js:49-52 | a token verifies only when the secret is set, and only to the verifier's payload |
| `RegistrationQrService.GetExpiryDate` | src/services/registration-qr-service.js:12-15 | without configuration the expiry is now plus 30 days |
| `RegistrationQrService.ExpiryOfWholeDays` | src/services/registration-qr-service.js:12-15 | a configured whole number of days moves the expiry by exactly that many days |
| `RegistrationQrService.LinkedQr` | src/services/registration-qr-service.js:32-33 | the linked record is found iff `reg.qr` names an existing record |
| `RegistrationQrService.IssueRequiresPaid` | src/services/registration-qr-service.js:24-29 | a missing registration gives 404 and an unpaid one 409, with nothing written; a credential is issued only for a PAID registration |
| `RegistrationQrService.IssueReuse` | src/services/registration-qr-service.js:32-53 | reuse happens iff the linked record exists, is ACTIVE and is unexpired; nothing is then written, and the token is rebuilt from the stored jti, issuedAt and expiresAt |
| `RegistrationQrService.IssueNew` | src/services/registration-qr-service.js:58-91 | a new credential is an appended ACTIVE, NOT_CHECKED_IN record with a fresh jti, issuedAt now, the configured expiry, no emailSentAt and the token's hash; the previously linked record is REVOKED, the registration links to the new one, and nothing else changes |
| `RegistrationQrService.IssueIdempotent` | src/services/registration-qr-service.js:17-53 | issuing again at the same time returns the same record and token with reused=true and writes nothing |
| `RegistrationQrService.IssueKeepsLinks` | src/services/registration-qr-service.js:23-99 | issuing keeps every link between records resolvable |
| `RegistrationQrService.IssueQrForRegistration` | src/services/registration-qr-service.js:23-99 | the method's new database and result are those of `IssueOutcome` |
| `RegistrationConfirmationService.FillIfEmpty` | src/services/registration-confirmation-service.js:36-38 | a value already present is kept; an empty one takes the supplied value |
| `RegistrationConfirmationService.FinalizeGuards` | src/services/registration-confirmation-service.js:24-33 | an invalid id gives 400, a missing registration 404 and an unpaid one 409, before any write |
| `RegistrationConfirmationService.FinalizeFillsOnlyEmpty` | src/services/registration-confirmation-service.js:36-38 | provider and reference are filled only where they were empty |
| `RegistrationConfirmationService.FinalizeSendsIffNotYetSent` | src/services/registration-confirmation-service.js:56-71 | the mail goes out iff the issued record has no emailSentAt; sending appends exactly that mail, stamps the record and reports emailSent=true with `reused` from the issuer |
| `RegistrationConfirmationService.FinalizeSendsOnce` | src/services/registration-confirmation-service.js:17-79 | a second call after a successful one sends nothing, reports emailSent=false and writes nothing |
| `RegistrationConfirmationService.FinalizeKeepsPayments` | src/services/registration-confirmation-service.js:19-80 | finalizing never writes a payment |
| `RegistrationConfirmationService.FinalizeKeepsLinks` | src/services/registration-confirmation-service.js:19-80 | finalizing keeps every link between records resolvable |
| `RegistrationConfirmationService.FinalizeRegistrationAfterPayment` | src/services/registration-confirmation-service.js:19-80 | the method's new database and result are those of `FinalizeOutcome` |
| `CheckinService.EnsureAdmin` | src/services/checkin-service.js:8-12 | an admin passes iff it has a truthy `_id` or `id` (`_id` first); otherwise the answer is 401 |
| `CheckinService.FindQr` | src/services/checkin-service.js:41 | the record found matches the filter (token hash or registration id) and no earlier one does; none is found iff none matches |
| `CheckinService.ResolveOutcome` | src/services/checkin-service.js:25-67 | a resolved record carries a non-empty token from the text whose signature verifies and whose hash is stored, an ACTIVE unexpired record on a paid registration; resolution writes at most the EXPIRED mark on the record it found |
| `CheckinService.TokenChecksPrecedeDatabase` | src/services/checkin-service.js:25-31 | a missing text (400), a bad prefix or an empty token (400) and a bad signature (401) are answered the same whatever is stored |
| `CheckinService.EmptyTokenRefused` | src/services/checkin-service.js:29-30 | the bare prefix and dot parse to the empty token, which is answered 400 "Invalid QR format" with nothing written |
| `CheckinService.ResolveLifecycleOrder` | src/services/checkin-service.js:33-64 | for a known hash the checks run in order: not ACTIVE 409, expired (marked EXPIRED) 401, missing registration 404, not PAID 409, claimed id mismatch 409; only a record passing all of them resolves |
| `CheckinService.MismatchNeedsRegistrationIdClaim` | src/services/checkin-service.js:61-64 | the mismatch check needs a `registrationId` claim, which an issued token never carries |
| `CheckinService.PreviewWritesOnlyExpiry` | src/services/checkin-service.js:74-89 | previewing writes nothing except the EXPIRED mark |
| `CheckinService.CheckInIfStill` | src/services/checkin-service.js:113-128 | the conditional update applies iff the record still has the hash, is ACTIVE and is NOT_CHECKED_IN, and then sets CHECKED_IN with the time and the admin |
| `CheckinService.ConfirmOutcomes` | src/services/checkin-service.js:96-148 | a resolved record is checked in now iff it was NOT_CHECKED_IN, as the only write; one already in is reported with its stored time and nothing is written |
| `CheckinService.ConfirmIdempotent` | src/services/checkin-service.js:96-148 | a second confirmation reports the attendee as already in, at the first time, and writes nothing |
| `CheckinService.ScanKeepsCheckIns` | src/services/checkin-service.js:25-148 | scanning, previewing and confirming never take a check-in back |
| `CheckinService.LookupById` | src/services/checkin-service.js:154-181 | a successful lookup found an ACTIVE, unexpired record whose registration is stored, and wrote nothing; a failed one wrote at most an EXPIRED mark |
| `CheckinService.LookupByText` | src/services/checkin-service.js:158-170 | once the id is text, a successful lookup found an ACTIVE, unexpired record with that registration id whose registration is stored, and wrote nothing; a failed one wrote at most an EXPIRED mark |
| `CheckinService.ByIdOutcomes` | src/services/checkin-service.js:154-231 | check-in by id refuses an unpaid registration and checks in a NOT_CHECKED_IN record now; preview by id does not check payment |
| `CheckinService.ByIdKeepsCheckIns` | src/services/checkin-service.js:188-231 | lookup and check-in by id never take a check-in back |
| `CheckinService.IssueKeepsCheckIns` | src/services/registration-qr-service.js:74-91 | issuing a credential never takes a check-in back |
| `CheckinService.ResolveQrAndRegistration` | src/services/checkin-service.js:25-67 | the method's new database and result are those of `ResolveOutcome` |
| `CheckinService.ConfirmCheckIn` | src/services/checkin-service.js:96-148 | the method's new database and result are those of `ConfirmOutcome` |
| `CheckinService.CheckInByRegistrationId` | src/services/checkin-service.js:188-231 | the method's new database and result are those of `CheckInByIdOutcome` |
| `RegistrationHelper.RawIncomeGroup` | src/services/registration-service.js:26 | a listed country gives its table group; a country whose text names a member every object inherits ("toString", "constructor", …) gives that member; any other gives none |
| `RegistrationHelper.DetermineIncomeGroup` | src/helpers/registration-helper.js:237-240 | "Sri Lanka" is LOCAL; any other country keeps its table group |
| `RegistrationHelper.FeePeriod` | src/helpers/registration-helper.js:231-235 | the period is early iff now ≤ 2026-09-30T23:59:59Z |
| `RegistrationHelper.LateFeesNotLower` | src/helpers/registration-helper.js:242-260 | in every cell of the fee table the late fee is at least the early fee |
| `RegistrationHelper.CalculateFee` | src/helpers/registration-helper.js:262-279 | rehab costs `rehab.ALL[period]` whatever the group and category; a group without a table (an inherited member) gives no fee; a category that is neither priced nor an inherited name throws a TypeError; an inherited category gives an undefined amount; otherwise the fee is the group/category/period cell |
| `RegistrationHelper.FeeNeverDecreases` | src/helpers/registration-helper.js:231-279 | the same selection never costs less later than earlier, and a priced selection stays priced |
| `RegistrationHelper.DerivedGroupsArePriced` | src/helpers/registration-helper.js:237-279 | the derived group has a fee table iff the country is "Sri Lanka" or listed; it is an inherited member, with no table, iff the country's text names one and is neither |
| `RegistrationHelper.MissingKeepsOrder` | src/helpers/registration-helper.js:282 | the missing fields keep the order of the list |
| `RegistrationHelper.RequireFields` | src/helpers/registration-helper.js:281-286 | the check fails iff some field is falsy, and the message lists the missing ones in input order |
| `RegistrationHelper.GenerateRandomId` | src/helpers/registration-helper.js:288-295 | the id has 8 characters from the 31-character alphabet without I, L, O, 0 and 1 |
| `RegistrationHelper.SanitizeRegistrationUpdates` | src/helpers/registration-helper.js:296-323 | `null` throws a TypeError; otherwise the 12 listed top-level keys are dropped and every other entry, an operator key such as `$set` included, is kept with its value |
| `RegistrationService.NewRecord` | src/services/registration-service.js:45-54 | the payload may override the generated id but not incomeGroup, feePeriod, feeBreakdown or paymentStatus UNPAID; feeAmount is 1 |
| `RegistrationService.CreateFailure` | src/services/registration-service.js:56-70 | a duplicate key is a 409 carrying keyValue; an HttpError passes through; a validation failure is a 400; anything else is a 500 |
| `RegistrationService.CreatedRegistration` | src/services/registration-service.js:21-71 | a created registration had the four required fields, is UNPAID, is charged 1, carries the fee period of its creation time and passed the database's validation |
| `RegistrationService.MissingFieldIsServerError` | src/services/registration-service.js:24 | a missing required field is answered with 500, not 400 |
| `RegistrationService.CreateUnpricedOnlyForInherited` | src/services/registration-service.js:21-41 | create answers "Unable to calculate fee for this selection." iff the required fields are present, the programme is not rehab and the country names an inherited member such as "toString" |
| `RegistrationService.PricingChanges` | src/services/registration-service.js:135-168 | updates that touch no pricing input are kept as they are; otherwise the four fee fields are added and every other update is kept; the fee amount is undefined iff the effective programme is not rehab and the effective category is not a priced one (an inherited name), and is above 1 otherwise; failures are HTTP errors |
| `RegistrationService.UpdateOutcome` | src/services/registration-service.js:126-187 | an invalid id gives 400 and a missing registration 404; a success passes the database's validation and keeps every stored field that the sanitized update does not `$unset` |
| `RegistrationService.RepricingKeepsUnset` | src/services/registration-service.js:146-174 | repricing adds only plain fee fields, so the update removes exactly the paths the sanitized update unsets |
| `RegistrationService.UpdateOutcomeIntended` | src/services/registration-service.js:126-187 | with the corrected sanitizer (operator and dotted keys dropped too), a success keeps every stored field and passes the database's validation |
| `RegistrationService.IntendedUpdateIsMerge` | src/services/registration-service.js:171-174 | with the corrected sanitizer, a successful update stores the stored document overlaid with the sanitized, repriced changes |
| `RegistrationService.IntendedUpdateIgnoresSetOperand` | src/helpers/registration-helper.js:296-323 | with the corrected sanitizer, `{ $set: { paymentStatus: "PAID" } }` changes nothing, and succeeds iff the stored document passes validation |
| `RegistrationService.UpdateMarksPaidAsWritten` | src/helpers/registration-helper.js:296-323 | as written, `{ $set: { paymentStatus: "PAID" } }` on a stored registration succeeds iff the database accepts the document with paymentStatus PAID, and stores exactly that document |
| `RegistrationService.UpdateRegistrationById` | src/services/registration-service.js:126-187 | the method's result is that of `UpdateOutcome` |
| `RegistrationService.Reprice` | src/services/registration-service.js:146-168 | the repricing step's result is that of `PricingChanges` |
| `RegistrationService.UpdateGuardsServerFields` | src/services/registration-service.js:126-187 | with the corrected sanitizer, an update never writes or removes a guarded field (id, payment state and reference, bookkeeping); the fee fields change only when country, conference type or category is supplied, and then not to the test amount 1 |
| `RegistrationService.FeesAboveTestAmount` | src/helpers/registration-helper.js:242-260 | every amount the fee calculation yields is above the test amount 1 |
| `AbstractHelper.Words` | src/helpers/abstract-helper.js:5-7 | every word is non-empty and contains no whitespace |
| `AbstractHelper.WordsSpellText` | src/helpers/abstract-helper.js:5-7 | the words are the maximal runs of non-whitespace characters and, read in turn, spell exactly the non-whitespace characters, so the count is 0 iff the text is blank |
| `AbstractHelper.WordsAreRuns` | src/helpers/abstract-helper.js:5-7 | splitting at whitespace and dropping empty pieces gives exactly the maximal runs of non-whitespace characters |
| `AbstractHelper.NormalizeKeywords` | src/helpers/abstract-helper.js:9-16 | every keyword is non-empty and trimmed; a string gives its trimmed non-empty comma-separated pieces; a value that is neither array nor string gives none |
| `AbstractHelper.KeywordsOfArray` | src/helpers/abstract-helper.js:10-12 | an array element is a keyword iff it is not blank once trimmed |
| `AbstractHelper.KeywordsStable` | src/helpers/abstract-helper.js:9-16 | normalising stored keywords again changes nothing |
| `AbstractHelper.SplitLines` | src/helpers/abstract-helper.js:21 | there are as many lines as line-feed-separated pieces, and no line contains a line feed |
| `AbstractHelper.CoAuthorOf` | src/helpers/abstract-helper.js:24-33 | a co-author keeps its raw line, its name contains no field dash, and its email is lower-cased |
| `AbstractHelper.CoAuthorsOf` | src/helpers/abstract-helper.js:18-37 | there is one co-author per non-blank line |
| `AbstractHelper.ParseCoAuthors` | src/helpers/abstract-helper.js:18-37 | the parsing loop returns `CoAuthorsOf` |
| `AbstractHelper.BlockListsRawLines` | src/helpers/abstract-helper.js:19-36 | the raw block is the co-authors' own lines, in order |
| `AbstractHelper.SplitLinesOfJoin` | src/helpers/abstract-helper.js:21 | splitting lines joined by line feeds gives them back |
| `AbstractHelper.ReparseCoAuthors` | src/helpers/abstract-helper.js:18-37 | parsing the stored raw block again gives the same block |
| `AbstractHelper.EnsureAtLeastOne` | src/helpers/abstract-helper.js:39-41 | the check passes iff the value is a non-empty array |
| `AbstractHelper.ValidateDeclarations` | src/helpers/abstract-helper.js:43-52 | the declarations pass iff all three flags are strictly `true` |
| `AbstractHelper.SanitizeUserAbstractUpdates` | src/helpers/abstract-helper.js:54-74 | a falsy body gives no changes; otherwise the 9 listed top-level keys are dropped and every other entry, operator keys included, is kept with its value |
| `AbstractHelper.AttachmentView` | src/helpers/abstract-helper.js:76-78 | the view fails only for null or undefined; its url is `protocol://host/uploads/abstracts/<storedName>`, the stored name is hidden and the original name kept |
| `AbstractHelper.ToAbstractDto` | src/helpers/abstract-helper.js:80-124 | the DTO copies the listed fields, always has an attachments array, has nothing else, and includes the declarations iff they are asked for |
| `AbstractHelper.AssertUserCanModify` | src/helpers/abstract-helper.js:126-142 | an edit is allowed iff the lower-cased status is "submitted" |
| `AbstractService.ApplyBusinessValidation` | src/services/abstract-service.js:25-60 | the first missing required field gives 400; at least one presentation type and category are needed; OTHER needs its text; at most 300 words; 1 to 5 keywords; declarations only when required; success returns the normalised keywords |
| `AbstractService.DeclarationsOnlyOnSubmit` | src/services/abstract-service.js:56-57 | an edit accepts exactly what a submit accepts, less the declaration check |
| `AbstractService.NewSubmission` | src/services/abstract-service.js:97-113 | the stored document has status "submitted", all declarations accepted and no mail sent |
| `AbstractService.StoreAndMailOnce` | src/services/abstract-service.js:115-129 | on success the document records the mail time and the outbox gains exactly one mail |
| `AbstractService.MailFailureKeepsAbstract` | src/services/abstract-service.js:115-129 | when the mail fails the document stays stored, not marked as mailed |
| `AbstractService.CreateSubmitsOnce` | src/services/abstract-service.js:62-143 | a successful submit passed every check and stores exactly one abstract and sends one mail to the submitter |
| `AbstractService.CreateAbstract` | src/services/abstract-service.js:62-143 | the method's new store and result are those of `CreateOutcome` |
| `AbstractService.AuthorEditKeepsProtectedFields` | src/services/abstract-service.js:180-199 | with the corrected sanitizer, an author's edit keeps owner, profile, attachments and declarations, sets status "updated", and stores validated keywords and re-parsed co-authors |
| `AbstractService.AuthorEdit` | src/services/abstract-service.js:180-199 | an author's edit fails only with 400, and a success is stored with status "updated" |
| `AbstractService.AuthorEditIntended` | src/services/abstract-service.js:180-199 | the edit with the corrected sanitizer fails only with 400 |
| `AbstractService.IntendedAuthorEditIsMerge` | src/services/abstract-service.js:195-199 | with the corrected sanitizer, the merged document passes the rules, and the edit stores the stored document overlaid with the sanitized changes and then with status, keywords and co-authors |
| `AbstractService.IntendedAuthorEditKeepsOwner` | src/helpers/abstract-helper.js:54-74 | with the corrected sanitizer, `{ $set: { owner } }` leaves the stored owner |
| `AbstractService.RulesIgnoreOperatorKey` | src/services/abstract-service.js:25-60 | the business rules read named fields only, so an operator or dotted key does not change their verdict |
| `AbstractService.RulesIgnoreOtherKey` | src/services/abstract-service.js:25-60 | a key that is none of the fields the rules read, such as an array's index key, does not change their verdict |
| `AbstractService.AuthorSetsOwnerAsWritten` | src/helpers/abstract-helper.js:54-74 | as written, an author's edit with `{ $set: { owner } }` succeeds iff the stored document passes the rules, and then stores the owner given |
| `AbstractService.AuthorWriteSetsOwner` | src/services/abstract-service.js:195-199 | the database write of `{ $set: { owner } }` with the overrides laid over it stores the owner given |
| `AbstractService.UpdateChangesOnlyOwnAbstract` | src/services/abstract-service.js:171-212 | an author's edit changes only their own abstract |
| `AbstractService.UpdateOutcomeIntended` | src/services/abstract-service.js:171-212 | with the corrected sanitizer, a success edits an abstract the caller owns and changes only that abstract; a failure is an HTTP error with nothing written |
| `AbstractService.UpdateMovesOwnerAsWritten` | src/services/abstract-service.js:171-212 | as written, an author's successful `{ $set: { owner } }` update of their own abstract stores the owner given |
| `AbstractService.UpdateMyAbstract` | src/services/abstract-service.js:171-212 | the method's new store and result are those of `UpdateOutcome` |
| `AbstractService.AddAppends` | src/services/abstract-service.js:214-238 | new attachments go after the existing ones, one per file, and nothing else changes |
| `AbstractService.AddAttachments` | src/services/abstract-service.js:214-238 | the method's new store and result are those of `AddOutcome` |
| `AbstractService.WithoutKeepsOrder` | src/services/abstract-service.js:249 | removal keeps the order of what stays |
| `AbstractService.RemoveDeletesOnlyMatching` | src/services/abstract-service.js:240-260 | exactly the attachments with that id are removed, the others are kept, and no match gives 404 |
| `AbstractService.RemoveAttachment` | src/services/abstract-service.js:240-260 | the method's new store and result are those of `RemoveOutcome` |
| `AbstractService.Window` | src/services/abstract-service.js:284-290 | a skip past the end gives nothing; limit 0 gives everything from the skip; otherwise at most |limit| documents |
| `AbstractService.AdminListAbstracts` | src/services/abstract-service.js:264-302 | a listing holds only matching abstracts, its total is the number of matches, and a bad owner id gives 400 |
| `AbstractService.PagesTile` | src/services/abstract-service.js:284 | page p followed by page p+1 is the window of twice the size at page p |
| `AbstractService.AdminRechecksRedundant` | src/services/abstract-service.js:304-349 | once the merged document passes the rules, the admin path's repeated checks cannot fail |
| `AbstractService.AdminEditStores` | src/services/abstract-service.js:304-349 | a successful admin edit writes every path the update sets and removes every path it unsets, except keywords and co-authors, and keeps 1 to 5 keywords |
| `AbstractService.AdminOverrides` | src/services/abstract-service.js:318-336 | the admin edit overrides keywords always, and co-authors (raw and parsed) only when the raw block is supplied |
| `AbstractService.AdminUpdateAbstract` | src/services/abstract-service.js:304-349 | the method's new store and result are those of `AdminUpdateOutcome`: an object of updates is applied as an update document with the overrides written into it, an array is checked as the empty update and then run as the database's pipeline |
| `AbstractService.ArrayEditPasses` | src/services/abstract-service.js:311-341 | an array of updates whose spread over the stored abstract passes the rules reaches the database, and the edit is what the pipeline makes of the stored abstract |
| `AbstractService.ArrayRecheckPasses` | src/services/abstract-service.js:324-336 | for an array of updates, the repeated checks pass once the spread passes the rules |
| `AdminAbstractController.SendError` | src/controllers/admin-abstract-controller.js:12-19 | the status is the error's own, else 500; details are included only when present |
| `AdminAbstractController.SendErrorAgainstHandler` | src/controllers/admin-abstract-controller.js:12-19 | for a client error it answers as the application's error handler does; for a server error it shows the message the handler hides |
| `AdminAbstractController.ParseJsonIfString` | src/controllers/admin-abstract-controller.js:40-50 | non-strings and blank strings come back unchanged; a non-blank string is parsed once trimmed, and comes back unchanged when it does not parse |
| `AdminAbstractController.NormalizeRemoveAttachmentIds` | src/controllers/admin-abstract-controller.js:52-78 | null, undefined, a blank string and any other non-string non-array give []; an array gives its `ArrayIds`; a returned id is never empty |
| `AdminAbstractController.RemoveIdsOfString` | src/controllers/admin-abstract-controller.js:62-77 | a string that is, or decodes to, "ALL" or an array naming it asks for all; another non-array string is one trimmed id |
| `AdminAbstractController.RemoveIdsStable` | src/controllers/admin-abstract-controller.js:52-78 | normalising a normalised id list again gives the same ids |
| `AdminAbstractController.AdminEndpointKeepsStatus` | src/controllers/admin-abstract-controller.js:82-119 | with the corrected status strip, which also turns a body that is not an object into the empty update, the admin edit endpoint never changes an abstract's status and touches no other abstract |
| `AdminAbstractController.StripStatus` | src/controllers/admin-abstract-controller.js:88-91 | as written, an object body loses exactly its own `status` key and keeps every other entry; any other body is left as it is |
| `AdminAbstractController.StripStatusIntended` | src/controllers/admin-abstract-controller.js:88-91 | corrected: an object body keeps no `status` and no operator or dotted key, and keeps every other entry; any other body, an array included, becomes the empty update `{}` |
| `AdminAbstractController.StatusThroughSetAsWritten` | src/controllers/admin-abstract-controller.js:88-91 | as written, `{ $set: { status } }` gets past the strip, and the admin edit then stores that status |
| `AdminAbstractController.StatusThroughPipelineAsWritten` | src/controllers/admin-abstract-controller.js:88-91 | as written, an array `updates` body gets past the strip whole, and when the stored abstract passes the rules the stored abstract becomes what the database's pipeline makes of it, status included |
| `AdminAbstractController.ArrayEditIsPipeline` | src/services/abstract-service.js:304-349 | the admin edit of a one-stage array over an abstract that passes the rules is the database's pipeline result |
| `AdminAbstractController.AdminEditSetsStatus` | src/services/abstract-service.js:304-349 | the admin edit of `{ $set: { status } }` succeeds iff the stored document passes the rules, and then stores that status |
| `AdminAbstractController.AdminUpdateReply` | src/controllers/admin-abstract-controller.js:82-119 | the endpoint writes what the admin edit of the body's updates, less `status`, writes; an unreadable body writes nothing |
| `AdminAbstractController.AdminUpdateReplyIntended` | src/controllers/admin-abstract-controller.js:82-119 | the same endpoint with the corrected status strip |
| `AdminAbstractController.AdminEditKeepsStatus` | src/services/abstract-service.js:304-349 | an admin edit whose body is an object with no `status` and only plain keys keeps the stored status |
| `AdminAbstractController.AdminEditShape` | src/services/abstract-service.js:304-349 | a successful admin edit had an object or an array body: an object stores what the database's update makes of it with the overrides laid over it, an array is the database's pipeline result |
| `AdminAbstractController.AdminUpdateAbstractController` | src/controllers/admin-abstract-controller.js:82-119 | the method's new store and reply are those of `AdminUpdateReply` |
| `AdminAbstractController.StatusColoursIgnoreCase` | src/controllers/admin-abstract-controller.js:180-203 | case and surrounding blanks do not change the colours |
| `AdminAbstractController.StatusColoursOfMissing` | src/controllers/admin-abstract-controller.js:180-203 | a missing status gets the default colours |
| `AdminAbstractController.StatusColoursOfUpdated` | src/controllers/admin-abstract-controller.js:180-203 | an unknown status such as "updated" gets the default colours |
| `AuthService.MatchDurationIff` | src/services/auth-service.js:47-58 | the matcher accepts exactly `<digits><space>*<s/m/h/d>` in either case |
| `AuthService.ParseDurationToMs` | src/services/auth-service.js:47-58 | a non-string, empty or non-matching input gives the fallback |
| `AuthService.ParseDurationRoundTrip` | src/services/auth-service.js:47-58 | a count, optional blanks and a unit letter parse to that many units in ms |
| `AuthService.ParseDurationValue` | src/services/auth-service.js:47-58 | any text of the form digits, blanks, unit letter, with surrounding whitespace, parses to the value of its digits (leading zeros included) times the unit |
| `AuthService.CookieDefaultsAgree` | src/services/auth-service.js:60-69 | without either variable the access cookie lives 15 minutes and the refresh cookie 7 days |
| `AuthService.RegisterRefusals` | src/services/auth-service.js:77-91 | refusals come in order: missing field 400, mismatch 400, length < 8 UTF-16 units 400, taken email 409 |
| `AuthService.RegisterKeepsEmailsUnique` | src/services/auth-service.js:77-110 | registration keeps emails unique, and a granted account is found afterwards by its normalised email |
| `AuthService.LoginRefusalsAlike` | src/services/auth-service.js:112-136 | an unknown email and a wrong password get the same 401 and change nothing |
| `AuthService.RegisterThenLogin` | src/services/auth-service.js:77-136 | a just-registered account can log in with any spelling that normalises to its email |
| `AuthService.RefreshOutcome` | src/services/auth-service.js:148-180 | a refresh succeeds only for a verified token of an account whose stored hash matches; the stored hash becomes the new token's |
| `AuthService.RefreshRotates` | src/services/auth-service.js:148-180 | an exchanged refresh token is refused afterwards, and the new one is accepted |
| `AuthService.LogoutOutcome` | src/services/auth-service.js:182-186 | logout clears the stored refresh hash and is a no-op for a falsy id |
| `AuthService.LogoutEndsSession` | src/services/auth-service.js:182-186 | after logout no refresh token of that account is honoured |
| `AuthService.RequestResetOutcome` | src/services/auth-service.js:206-247 | success arms an existing account with the token's hash and expiry and mails the reset link once; an unknown email changes nothing |
| `AuthService.ResetRequestsAlike` | src/services/auth-service.js:206-247 | asking for an unknown and a known email give the same reply, and the unknown one changes nothing |
| `AuthService.ResetOutcome` | src/services/auth-service.js:255-293 | a reset needs matching passwords of at least 6 UTF-16 units and an unexpired, unused token whose hash matches, and then redeems it; a refusal writes nothing |
| `AuthService.RequestThenReset` | src/services/auth-service.js:206-293 | the mailed token resets that account's password until the expiry |
| `AuthService.ResetSingleUse` | src/services/auth-service.js:255-293 | a reset token works once |
| `AuthService.ResetRevokesSessions` | src/services/auth-service.js:281-290 | a password reset clears the refresh hash, so no refresh token is honoured afterwards |
| `AdminService.ToDateOrNull` | src/services/admin-service.js:8-14 | null, undefined and blank input give no date; anything else is parsed |
| `AdminService.BuildCreatedAtRange` | src/services/admin-service.js:16-34 | an invalid supplied bound gives 400, as does from > to; with no valid bound there is no filter; $gte and $lte are present iff their bound is valid |
| `AdminService.RangeAdmitsItsBounds` | src/services/admin-service.js:16-34 | an accepted range admits its own bounds and is never empty |
| `AdminService.RangeErrorOrder` | src/services/admin-service.js:20-25 | a bad from is reported before a bad to |
| `ProfileService.SanitizeProfileUpdates` | src/services/profile-service.js:5-26 | a falsy body gives no changes; otherwise the 10 listed top-level keys are dropped and every other entry, operator keys included, is kept unchanged |
| `ProfileService.EnsureAuthUser` | src/services/profile-service.js:28-32 | no user or no `_id` gives 401, and no email gives 400 |
| `ProfileService.NewProfile` | src/services/profile-service.js:69-76 | owner and email come from the authenticated user, the names, title and country from the payload, and city defaults to "" |
| `ProfileService.CreateMyProfile` | src/services/profile-service.js:49-96 | success needs an authenticated user, the required fields and no profile yet, and adds exactly the new profile; an existing profile gives 409 |
| `ProfileService.SecondCreateConflicts` | src/services/profile-service.js:54-58 | creating a second profile for the same user fails |
| `ProfileService.UpdateOutcome` | src/services/profile-service.js:98-129 | an unauthenticated user is refused as by `EnsureAuthUser`, no profile gives 404, and a falsy update or one whose sanitized keys are empty gives 400; otherwise the sanitized update, written over the stored profile, succeeds iff the database accepts it, a refusal is mapped as by `CatchFailure`, and a success stores exactly that profile under the caller's key |
| `ProfileService.UpdateOutcomeIntended` | src/services/profile-service.js:98-129 | with the corrected sanitizer, a success belongs to a stored profile and passes the database's validation |
| `ProfileService.IntendedUpdateApplies` | src/services/profile-service.js:98-129 | with the corrected sanitizer, the stored profile is `Apply` of the sanitized changes, and only the caller's profile changes |
| `ProfileService.IntendedUpdateRefusesSetOperand` | src/services/profile-service.js:5-26 | with the corrected sanitizer, `{ $set: { email } }` is an empty update, refused with 400 |
| `ProfileService.UpdateKeepsIdentity` | src/services/profile-service.js:98-129 | with the corrected sanitizer, an update changes only the caller's profile, never its owner, name, title, email or country, and a supplied city is stored |
| `ProfileService.Apply` | src/services/profile-service.js:112-116 | a sanitized update keeps owner, title, names, email and country, and sets the city iff supplied |
| `ProfileService.ApplyIsDatabaseWrite` | src/services/profile-service.js:112-116 | for corrected-sanitized changes, applying them field by field is what the database write stores |
| `ProfileService.WritePaths` | src/services/profile-service.js:112-116 | the database write leaves each schema path with the value the update sets, undefined where it unsets it, and as it was otherwise |
| `ProfileService.UpdateSetsEmailAsWritten` | src/services/profile-service.js:5-26 | as written, `{ $set: { email } }` succeeds iff the database accepts the profile with that email, and then stores exactly that profile |
| `ProfileService.UpdateMyProfile` | src/services/profile-service.js:98-129 | the method's result is that of `UpdateOutcome` |
| `Render.EscapeHtmlMarkupFree` | src/utils/email/render.js:1-8 | escaped text contains none of `<`, `>`, `"`, `'` |
| `Render.EscapeHtmlIsPerCharacter` | src/utils/email/render.js:3-7 | with "&" replaced first, each input character becomes exactly one chunk and nothing is escaped twice |
| `Render.UnescapeEscape` | src/utils/email/render.js:1-8 | decoding the entities gives the input back |
| `Render.PlaceholderMatch` | src/utils/email/render.js:16 | `{{`, blanks, a key of word characters and dots, blanks and `}}` match as one placeholder with that key, and the scan resumes right after it |
| `Render.RenderKeepsPlainText` | src/utils/email/render.js:15-20 | text without a `{` passes through unchanged |
| `Render.RenderReplacesPlaceholder` | src/utils/email/render.js:15-20 | a placeholder becomes the escaped value of the variable named by the whole key, dots included; null or undefined gives ""; a missing key gives "" unless it names an inherited member, which renders as that member's text (`{{constructor}}` gives "function Object() { [native code] }") |
| `Server.AllowedOrigins` | src/server.js:24-29 | every origin is non-empty, trimmed and free of commas |
| `Server.AllowedOriginsAreListed` | src/server.js:24-29 | exactly the non-blank entries are allowed; unset or empty allows only "http://localhost:4200" |
| `Server.CorsOrigin` | src/server.js:52-59 | no origin and a listed origin are allowed; any other gets a 403 |
| `Server.ErrorResponse` | src/server.js:101-113 | a status ≥ 500 or no status gives 500 "Server error" without details; otherwise the status and message, with details only if present |
| `Server.ErrorResponseShapes` | src/server.js:93-113 | unmatched routes get 404 "Not found", and a client error never leaks as a server error |
| `Objects.Entries` | src/helpers/registration-helper.js:296-323 | an object's entries are its own fields; an array's items sit under their decimal index; a boolean, number or nullish value has none |
| `Objects.Allowed` | src/helpers/registration-helper.js:296-323 | the sanitizer as written keeps exactly the entries whose key is not denied, values unchanged |
| `Objects.CopyAllowed` | src/helpers/abstract-helper.js:54-74 | the copy loop as written returns exactly `Allowed` of its entries |
| `Objects.Sanitized` | src/helpers/registration-helper.js:296-323 | the corrected sanitizer keeps exactly the entries whose key is neither denied nor an operator or dotted path, values unchanged |
| `Objects.SetOperandApplied` | src/services/registration-service.js:171-174 | `{ $set: { key: value } }` for a plain key stores the value under the key and changes nothing else |
| `Objects.PlainBody` | src/helpers/registration-helper.js:296-323 | the body with operator and dotted keys removed is truthy, or null, exactly when the body is, and has only plain keys |
| `Objects.PlainBodySanitized` | src/helpers/registration-helper.js:296-323 | the sanitizer as written applied to that body is the corrected sanitizer applied to the body |
| `Objects.ApplyUpdate` | src/services/registration-service.js:171-174 | the stored document has the set paths (the `$set` operand's plain paths, then the plain top-level keys) with their values, and keeps every other field except the `$unset` paths |
| `Objects.PlainUpdateIsMerge` | src/services/registration-service.js:171-174 | an update of plain keys only is a merge of the update over the document |
| `Objects.DenyListMissesOperators` | src/helpers/registration-helper.js:296-323 | a deny list that does not name `$set` lets `{ $set: { key: value } }` through, and the database then writes the value to the key |
| `Objects.SanitizedKeepsDenied` | src/helpers/registration-helper.js:296-323 | a corrected-sanitized update never writes or removes a denied field |
| `Js.StringToNumber` | src/services/payment-service.js:51-55 | `Number(s)`: blank text is 0; text with a `0x`, `0o` or `0b` prefix is read in that base; unsigned text is read as a decimal with an optional exponent |
| `Js.ExponentValue` | src/services/payment-service.js:51-55 | digits, `e`, digits is worth the first digits times ten to the power of the second |
| `Js.SignedWordIsNaN` | src/services/payment-service.js:51-55 | a word such as `Infinity`, with or without a sign, is not a number here |
| `Js.CastString` | src/models/Payment.js:27-38 | Mongoose's cast to a `String` path: text stays as it is, a number or boolean prints as `String` does, an object with a non-empty string `_id` gives that id, and an array or any other object is a cast error |
| `Strings.Utf16Length` | src/services/auth-service.js:86 | `.length` counts UTF-16 units: between one and two per character |
| `Common.CatchFailure` | src/services/registration-service.js:179-185 | a thrown HttpError passes through, a validation failure becomes 400 with its errors, anything else 500 |

## Left out

- Persistence (Mongoose), `fetch`, nodemailer, bcrypt, jsonwebtoken and SHA-256 are foreign calls:
  - signing, verification, hashing and password comparison are function parameters;
  - the gateway's reply and the mail transport's verdict are inputs;
  - a save can fail in these modelled cases:
    - a transaction id or redirect URL from the gateway that the schema cannot cast to a string (`PaymentService.LinkOutcome`);
    - the database's verdict on a new or changed registration, abstract or profile, given as a `Verdict` parameter (registration_service.dfy, abstract_service.dfy, profile_service.dfy);
    - an Invalid Date as the reset expiry (`AuthService.ExpiryCastFailure`);
    - an Invalid Date as a QR record's expiry, when `QR_TOKEN_EXPIRES_IN_DAYS` is not a number (`RegistrationQrService.GetExpiryDate`);
    - an Invalid Date as `paidAt` (`PaymentService.PaidAtRejected`).
  - A document whose save was refused for a cast keeps failing its later saves in the same call (`PaymentService.LinkOutcome`, `PaymentService.HeldPaid`).
  - Every other save is assumed to succeed.
- PollFromEnds: the promise that the payment ends PAID or FAILED holds only when no reply reports payment with a `paid_on` that is not a date. Otherwise the code itself answers with the stored, non-final payment (`PaymentService.UndatedStopsPoll`).
- PollEndsPaidOrFailed: as for `PollFromEnds`, PAID or FAILED is promised only when no reply reports payment with a `paid_on` that is not a date.
- TruncateMs, ArmReset, ExpiryAfter and GetExpiryDate: a JavaScript Date holds at most 8.64·10^15 ms either side of 1970. A later expiry, from a setting such as `1e12` minutes or days, is an Invalid Date whose save fails; here it is an exact, very late time.
- Which texts `new Date(paid_on)` reads as dates is not modelled. The reading is the parameter `parseDate` of `Runtime.Runtime`, and the model keeps only that an unreadable text is refused.
- Concurrency is not modelled. Each conditional `findOneAndUpdate` is one atomic compare-and-set step, and no concurrent writer is modelled.
- The unique index on `RegistrationQr.registration` is not modelled. The re-issue path's `create` would collide with it in the real database; the model keeps the service's steps.
- Floating point is not modelled; amounts are exact rationals. `toFixed` and `Math.round` are written out on them, so binary rounding artefacts do not appear.
- NumberToString: `String(n)` of a non-integral number prints at most 6 fractional digits, not the shortest round-trip form, and always in positional digits. JavaScript prints a magnitude of 1e21 or more, or a non-zero one below 1e-6, in exponent form ("1e+21", "1e-7"); the model prints the digits of 1e21, and a non-integral number whose first 6 fractional digits are zero as its integer part and a point (1e-7 prints as "0.").
- Wall clock and `sleep` are not modelled. Time is a parameter, and check `i` of the poll happens `i · 5000` ms after it starts.
- `CheckinService.MapAttendee` and the response objects are shaped as datatypes. The HTTP layer is left out: routes, middlewares, cookies and the thin controllers.
- Functions that the controllers import but `abstract-service.js` and `admin-abstract-controller.js` do not define are not modelled.
- The Excel export, `applyHeaderStyle`, `applyRowBandingAndGrid` and `applyGridBorder` are not modelled. Of the styling, only the colour choice of `styleStatusCell` is.
- The free-text RegExp search of `adminListAbstracts` is not modelled. Only the owner and status filters and paging are.
- The dashboard aggregations of `admin-service.js` are database counts and are not modelled.
- `CountryIncomeGroups` holds a representative part of the country table, with the same two group values.
- Email templates, `email-service.js`, `send-email.js`, the transporter and `qr-image.js` are constant text, rendering or I/O. A sent mail is a record of its fields (`Store.Mail`).
- The read-only and delete operations of the services (`getAllRegistrations`, `getMyAbstractById`, `deleteRegistrationById`, `getUserSafeById` and the like) are not modelled.
- ApplyUpdate: dotted paths, update operators other than `$set` and `$unset`, a path both set and unset, and operands that are not objects are not modelled. Every operator and dotted key is left out of the written document. Mongoose's strict mode drops paths outside the schema; the model stores them.
- AuthorEdit, StoreChanges and AdminEdit: what these store follows `ApplyUpdate`, so the gaps above apply to them too. The admin path's `$set` is not re-validated by the business rules (`AbstractService.RulesIgnoreOperatorKey`).
- CopyAllowed: assigning a `__proto__` key in the copy loop changes the copy's prototype rather than adding an entry. The model adds an entry.
- RegistrationService.UpdateOutcome: a success keeps every stored field except the paths the sanitized update `$unset`s. The sanitizer as written lets `$unset` through, so the stronger promise, that every stored field is kept, is made only for `RegistrationService.UpdateOutcomeIntended`.
- RegistrationService.UpdateFound: as for `UpdateOutcome`, the fields the update `$unset`s may be removed.
- RegistrationService.StoreChanges: as for `UpdateOutcome`, the fields the update `$unset`s may be removed.
- Js.StringToNumber: a literal beyond the range of a double, such as "1e400", is Infinity in JavaScript but an exact large value here. `Infinity` itself reads as no number, which is how every caller treats a non-finite value: `PaymentService.ToMinorUnits` returns null, and `RegistrationQrService.GetExpiryDate` and `AuthService.ExpiresMinutes` build an invalid date.
- NewRecord: payload keys outside the registration schema are stored. Mongoose's strict mode drops them on save; the model leaves them in.
- Ids that pass `Common.IsObjectId` may hold upper-case hex digits. Mongoose casts such an id to the same ObjectId as its lower-case form, but the model looks ids up as exact text, and the ids the database generates are lower-case. So for an upper-case id the model answers "not found" where the database would find the record. This affects the lookups below.
- PaymentService.InitiateOutcome: the registration lookup is by exact key (see the line on upper-case ids).
- PaymentService.PollOutcome: the registration lookup is by exact key.
- RegistrationService.UpdateOutcome: the registration lookup is by exact key.
- RegistrationConfirmationService.FinalizeOutcome: the registration lookup is by exact key.
- AuthService.FindSubject: the user lookup is by exact key.
- AuthService.LogoutOutcome: the user lookup is by exact key.
- AbstractService.UpdateOutcome: the abstract lookup is by exact key.
- AbstractService.AddOutcome: the abstract lookup is by exact key.
- AbstractService.RemoveOutcome: the abstract lookup is by exact key.
- AbstractService.AdminUpdateOutcome: the abstract lookup is by exact key.
- AbstractService.AdminListAbstracts: the owner filter compares ids as exact text.
- Js.Get: reads own keys only. Reads by request-supplied names consult `Js.ObjectPrototypeKeys` where they happen (`RegistrationHelper.RawIncomeGroup`, `RegistrationHelper.CalculateFee`, `Render.ValueText`).
- PricingChanges and NewRecord: when the amount is undefined, or the income group is an inherited function, what the database stores is not modelled. The database's verdict decides.
- CallbackOutcomes, HandleOnepayCallback, LookupById and CheckInByRegistrationId: a query value that is an object with operator keys is a Mongoose query condition, and an array is `$in`. The model casts the query value as the document's String field would be cast (`Js.CastString`): an array, or an object without a non-empty string `_id`, is a cast error, so these lookups match one value only.
- StatusMessage, NormalizeEmail, CoAuthorOf, RegisterRefusals, EditStatus, AssertUserCanModify, StatusKey and StatusColours: upper- and lower-casing is ASCII only. JavaScript maps the full Unicode range (for example `"ı".toUpperCase()` is "I").
- ErrorResponse: the body parser's own errors (400 for malformed JSON, 413 for an oversized body) come from the HTTP layer and are not modelled.
- NewProfile, WritePaths and UpdateKeepsIdentity: the profile schema's setters are not applied. Mongoose trims every string path, lower-cases the email and casts each value to a String before it stores it (src/models/PresentingAuthorProfile.js:14-29). The model stores the values as given, so a name with surrounding spaces is stored with them. The schema's validators (enum, maxlength, required) are the database's verdict.
- NewSubmission, AuthorEdit and AdminEdit: the abstract schema's setters are not applied either. Mongoose trims the author names, the title, the other-category text and the abstract text, lower-cases the corresponding author's email and casts them to String (src/models/AbstractSubmission.js:26-55). The model stores them as given; the business rules still read the untrimmed values, as the service does.
- AdminEdit: what the database makes of an array of updates, an aggregation pipeline, is the parameter `pipeline`. Mongoose passes the array's elements on as stages, so the keywords written onto the array are lost.
- CheckInIfStill and MarkedCheckedIn: `checkedInBy` holds the admin id's string form. The schema's cast of it to an ObjectId is not modelled.
- Store.Payment: the `provider` field is not a field of the record. It is the constant "ONEPAY" on every payment, and every payment query filters on it.

## Findings

| source | as written | input that shows it | evidently intended | confidence | as-written member | corrected member |
|---|---|---|---|---|---|---|
| src/services/payment-service.js:184-189 | the message is paid if it contains PAID or SUCCESS | status 0, message "unpaid" or "unsuccessful" | a negated word does not count as paid | not executed | `PaymentService.UnpaidMessageCountsAsPaid`, `PaymentService.VerifyUnpaidMarksPaidAsWritten` | `PaymentService.IntendedPaidTest`, `PaymentService.VerifyIntendedPaidIffConfirmed` |
| src/helpers/abstract-helper.js:54-74, src/services/abstract-service.js:195-199 | the author sanitizer drops only 9 top-level keys, and the body goes to the database as an update document | `{ "$set": { "owner": "<other id>" } }` | an author cannot change owner, profile, attachments, declarations or status | not executed | `AbstractService.AuthorSetsOwnerAsWritten`, `AbstractService.UpdateMovesOwnerAsWritten` | `AbstractService.AuthorEditKeepsProtectedFields`, `AbstractService.IntendedAuthorEditKeepsOwner` |
| src/helpers/registration-helper.js:296-323, src/services/registration-service.js:171-174 | the registration sanitizer drops only 12 top-level keys | `{ "$set": { "paymentStatus": "PAID" } }` | clients cannot tamper with pricing or payment | not executed | `RegistrationService.UpdateMarksPaidAsWritten` | `RegistrationService.UpdateGuardsServerFields`, `RegistrationService.IntendedUpdateIgnoresSetOperand` |
| src/services/profile-service.js:5-26, src/services/profile-service.js:112-116 | the profile sanitizer drops only 10 top-level keys | `{ "$set": { "email": "x" } }` | a profile update cannot change owner, names, title, email or country | not executed | `ProfileService.UpdateSetsEmailAsWritten` | `ProfileService.UpdateKeepsIdentity`, `ProfileService.IntendedUpdateRefusesSetOperand` |
| src/controllers/admin-abstract-controller.js:88-91 | only a top-level `status` key of an object is deleted | `{ "updates": { "$set": { "status": "approved" } } }`, or `{ "updates": [ { "$set": { "status": "approved" } } ] }`, which runs as a pipeline | the admin edit endpoint cannot set the status | not executed | `AdminAbstractController.StatusThroughSetAsWritten`, `AdminAbstractController.StatusThroughPipelineAsWritten` | `AdminAbstractController.StripStatusIntended`, `AdminAbstractController.AdminEndpointKeepsStatus` |
