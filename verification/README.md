# Phone PIN verification server — Dafny model

The server anchors a one-time PIN verification to a phone number. A merchant
creates a session (`POST /session`) with the phone, a callback url and a secret.
When the customer calls, the voice gateway posts to `/voice`, which looks the
session up by the caller's number and asks for the PIN. The keyed-in digits go
to `/verify`, which forwards them to the callback and, on HTTP 200, removes the
session. When nothing is keyed in, the gateway posts to `/timeout`. A timer-driven
clean-up evicts verified sessions and sessions older than one hour.

The model has five modules:

- `Values` (values.dfy): `Option` and the JavaScript truthiness of a request field.
- `Registry` (registry.dfy): the global `sessions` array as an immutable
  sequence of `Session` records. It covers creation with its validation,
  first-match lookup (`find` / `findIndex`), removal of one record (`splice`),
  the clean-up filter and the `/sessions` listing. It also states the invariants
  every reachable registry keeps: ids are unique, and every record is pending.
- `CallFlow` (callflow.dfy): the `/voice`, `/verify` and `/timeout` handlers.
  Each is a function from the registry and the request fields to the new
  registry and a `Directive`. A directive says a prompt, says a prompt and then
  captures digits, or is an HTTP error. The verify handler is split at its
  `await`. `BeginVerify` runs the guards and the lookup and builds the callback
  request. `CompleteVerify` takes the registry as it is when the callback
  returns, plus the callback's outcome. `Verify` composes the two in one atomic
  step.
- `Pin` (pin.dfy): the PIN clean-up (drop every non-digit) and the 4–8 digit
  validity test from the unit-test file.
- `ResponseCodes` (response_codes.dfy): the classifier of the merchant's
  (status, body) answer and the payment-error message builder from the same
  file.

As in the source, the two helper modules are not used by the handlers. `/verify`
forwards `Digits` verbatim and treats any 200 as success, whatever the body.
The `CallFlow` model does the same.

Parameters stand for what cannot be modelled:

- the clock is `now`, in milliseconds;
- `randomUUID()` is `freshId`, and freshness is stated by `FreshId`;
- `new URL(url)` is the predicate `urlParses`;
- the `axios.post` callback is a `CallbackOutcome`: a status, or a transport
  failure such as a connection error or the 10 s timeout.

## Model

| member | source | states |
|---|---|---|
| Registry.FindFirst | index.js:96 | the lookup answers None exactly when no record matches; otherwise it answers the position of a matching record with no match before it |
| Registry.FindFirstFinds | index.js:96 | whenever position i holds the first matching record, the lookup answers i |
| Registry.RemoveAt | index.js:146 | removing position i shortens the registry by one, keeps the records before i in place and shifts the later ones down by one |
| Registry.FindOwnId | index.js:144 | with unique ids, the id lookup of a record's own id finds that record's position |
| Registry.RemoveAtPreservesWellFormed | index.js:144-148 | removing a record keeps ids unique and every record pending |
| Registry.Create | index.js:56-86 | a missing or empty phone, url or secret gives 400 first; with all fields present, the phone is rejected exactly when it does not start with '+' or is shorter than 8; a url that does not parse is rejected next; a request passing all three checks is accepted, and only such a request; every rejection leaves the registry unchanged; a success appends exactly one pending record with the given fields, the fresh id and createdAt = now, and keeps every earlier record in order |
| Registry.CreatePreservesWellFormed | index.js:82-83 | creating with a fresh id keeps ids unique and every record pending |
| Registry.Cleanup | index.js:25-38 | the survivors are exactly the records that are not verified and were created after now − 1 h; none is added |
| Registry.CleanupAppend | index.js:25-35 | the filter works on each part of the registry separately, so survivors keep their relative order |
| Registry.CleanupKeepsSurvivors | index.js:25-38 | when every record survives, the clean-up leaves the registry as it is |
| Registry.CleanupLaterSubsumes | index.js:14-45 | a clean-up at t1 followed by one at t2 ≥ t1 equals the single clean-up at t2 |
| Registry.CleanupIdempotent | index.js:14-45 | two clean-ups at the same time equal one |
| Registry.CleanupPreservesWellFormed | index.js:25-38 | the clean-up keeps ids unique and every record pending |
| Registry.EvictionWindow | index.js:15-35 | a pending session created at t0 survives a clean-up at now exactly when now < t0 + 1 h: it is present at t0 + 59 min and gone at t0 + 61 min |
| Registry.ListSessions | index.js:52-54 | the listing has one entry per record, in order, with its id, phone, status and createdAt |
| Registry.ListingHidesCredentials | index.js:52-54 | registries that differ only in urls and secrets have the same listing |
| Registry.ListingAfterCreate | index.js:52-54 | after a successful creation the listing is the old listing plus the new pending summary |
| CallFlow.Voice | index.js:88-114 | the registry is never changed; a missing From gives 400; with no session for the caller the directive is only the no-active-transaction prompt; otherwise it is the welcome prompt followed by a capture posting to /verify, 30 s timeout, finish key '#', /timeout on empty input |
| CallFlow.BeginVerify | index.js:116-134 | a missing From or Digits gives 400; no session for the caller gives 404; otherwise the callback goes to the first session's url, carries that session and the Digits exactly as received, and uses the 10 s timeout |
| CallFlow.CompleteVerify | index.js:136-169 | on 200 the prompt is code-accepted and the first record with the session's id is removed, or nothing changes if it is gone; any other status leaves the registry unchanged and re-captures with the code-rejected prompt; a transport failure leaves it unchanged and re-captures with the verification-error prompt |
| CallFlow.Verify | index.js:116-173 | 400 and 404 guards leave the registry unchanged; otherwise the result is the completion for the first session with the caller's phone; on 200 the prompt is code-accepted and the first record with that session's id is removed, the others keeping their order; a non-200 status or a transport failure leaves the registry unchanged and captures the code again with the matching prompt |
| CallFlow.VerifySuccessRemovesSession | index.js:138-148 | with unique ids, a 200 removes exactly the first session with the caller's phone and keeps every other record in order |
| CallFlow.VerifyIgnoresDigits | index.js:119-134 | the handler's result does not depend on which non-empty Digits were keyed in: no PIN clean-up or length check happens |
| CallFlow.CompleteVerifyIdempotent | index.js:144-148 | completing the same successful verification a second time finds no record and changes nothing |
| CallFlow.CompleteVerifyPreservesWellFormed | index.js:138-148 | whatever the registry became during the callback, completing keeps ids unique and every record pending |
| CallFlow.VerifyPreservesWellFormed | index.js:116-173 | the verify handler keeps ids unique and every record pending |
| CallFlow.Timeout | index.js:176-194 | the registry is never changed; a missing From gives 400, no session gives 404, otherwise the only directive is the PIN-timeout prompt |
| CallFlow.TimeoutFollowsVoice | index.js:176-189 | for a caller with a From, the timeout handler speaks its prompt exactly when the voice handler would ask for the PIN, and answers an HTTP error exactly when the voice handler would say there is no active transaction |
| CallFlow.CreateThenVerifyRestores | index.js:82-148 | creating a session for a phone that had none, then a 200 verification from that phone, gives back the registry as it was before, with the code-accepted prompt |
| CallFlow.VerifyAfterSuccessNotFound | index.js:125-148 | for requests that do not overlap: after the only session for a phone is verified, a later verify from that phone gets 404 and a new call hears the no-active-transaction prompt |
| CallFlow.OverlappingSuccessesBothAccepted | index.js:125-148 | two verify requests for one phone that overlap across the callback both call the merchant endpoint for the same session; when both get 200, both callers hear code-accepted, while only the first completion removes the record |
| Pin.DigitsOf | test-response-codes-simple.js:37 | the cleaned string is no longer than the input and consists of digits only |
| Pin.DigitsOfMembers | test-response-codes-simple.js:37 | a character occurs in the cleaned string exactly when it is a digit occurring in the input |
| Pin.DigitsOfAppend | test-response-codes-simple.js:37 | cleaning a concatenation is concatenating the cleanings, so digits keep their order |
| Pin.DigitsOfDigits | test-response-codes-simple.js:37 | an input of digits only is left unchanged |
| Pin.DigitsOfIdempotent | test-response-codes-simple.js:37 | cleaning twice equals cleaning once |
| Pin.DropsSeparator | test-response-codes-simple.js:37 | a non-digit between two digit strings is dropped and the digits are joined |
| Pin.CleanPin | test-response-codes-simple.js:37 | a null or empty input cleans to the empty string; any other input cleans to its digits |
| Pin.IsValidPin | test-response-codes-simple.js:39 | a PIN is valid exactly when its cleaned length is between 4 and 8; the emptiness test is redundant |
| Pin.NormalizePin | test-response-codes-simple.js:37-39 | the normalised PIN exists exactly when the cleaned length is in [4, 8], and is then the cleaned, all-digit string |
| Pin.DigitsOnlyValidity | test-response-codes-simple.js:39 | a non-empty all-digit input is its own cleaning and is valid exactly when its length is in [4, 8] |
| Pin.PinExamplesDigitsOnly | test-response-codes-simple.js:20-25 | 1234, 123456 and 12345678 are valid; 123 and 123456789 are not |
| Pin.PinExamplesMixed | test-response-codes-simple.js:26-31 | "1234*" and "12#34" clean to 1234 and are valid; "abcd" cleans to empty and, like "" and null, is invalid |
| ResponseCodes.ErrorCode | test-response-codes-simple.js:102 | the error code is never empty; a present, non-empty body code is taken as it is; an absent body, or an absent or empty code, reads as UNKNOWN |
| ResponseCodes.Classify | test-response-codes-simple.js:94-121 | success iff status 200 and success === true; premium, amount or unknown payment error iff status 200, not success, and the code is the premium code, the amount code, or neither; invalid_pin iff status 400 whatever the code; internal_error iff 500; other_error iff any other status |
| ResponseCodes.MissingCodeIsUnknownPaymentError | test-response-codes-simple.js:98-110 | a 200 answer that is not a success and has no body or no code classifies as an unknown payment error |
| ResponseCodes.BodyMattersOnlyFor200 | test-response-codes-simple.js:111-121 | for any status other than 200 the body does not affect the category |
| ResponseCodes.ClassifyExamples | test-response-codes-simple.js:57-88 | the six test answers classify as the test table expects |
| ResponseCodes.PaymentErrorMessage | test-response-codes-simple.js:166-177 | the message is the fixed prefix followed by one of the three sentences; every code other than the premium and amount codes gets the try-later sentence |
| ResponseCodes.MessageMatchesCategory | test-response-codes-simple.js:98-177 | for a 200 answer that is not a success, the category is premium, amount or unknown exactly when the message's sentence is the premium, amount or try-later one |
| ResponseCodes.MessageExamples | test-response-codes-simple.js:139-160 | the four test codes give the expected messages |

## Intended behaviour the code does not implement

The model follows the code in each case.

- A 200 answer whose body reports a payment error (success is not true, with a
  premium-services or amount-limit code) would end the session with a specific
  message. `/verify` (index.js:138) treats every 200 as success: it removes the
  session and says the code was accepted. The classifier that knows about
  payment errors exists only in the unit-test file.
- The PIN would be cleaned and length-checked before the callback. `/verify`
  forwards `Digits` verbatim (`CallFlow.VerifyIgnoresDigits`).
- The callback would be bounded by 30 s. The code uses 10 s
  (`CallFlow.CallbackTimeoutMs`).
- `/timeout` for a phone without a session would still speak the timeout
  message. The code answers 404 (`CallFlow.Timeout`).
- Eviction would happen once a session is older than one hour. The code evicts
  when `createdAt <= now − 1 h`, so a session goes at exactly one hour
  (`Registry.EvictionWindow`).
- Spoken input would be rejected below a recognition confidence of 0.7. The
  code has no such check.
- Two overlapping verifications of one session would yield at most one
  success. In the code, two `/verify` requests for the same phone can both pass
  the lookup before either callback returns (index.js:125-131). The merchant
  endpoint is then called twice, and when both answer 200 both callers hear
  that the code was accepted. The prompt is spoken (index.js:139) whether or not
  the record is still there to remove (index.js:144-146)
  (`CallFlow.OverlappingSuccessesBothAccepted`).
- A transport failure would re-prompt the same way as a rejected code. The code
  uses a different sentence: an error-during-verification message
  (index.js:161) instead of the wrong-code message (index.js:150).
- Marking a session verified and deleting it would be separate registry
  operations. In the code they are the status assignment and `splice` inside
  `/verify`.

## Left out

- HTTP plumbing is not modelled: routing, body parsing, the `x-api-key` check,
  `/health` and `app.listen`. They hold no logic beyond a string comparison.
- TwiML rendering and the Polish prompt texts are not modelled. Prompts are
  tags in `CallFlow.Prompt`, and the `pl-PL` language option is omitted.
- Console logging is not modelled. This includes the clean-up's count of
  removed sessions, which is only logged.
- Cleanup — does not model the failure of a very large clean-up. The source
  empties the array first (index.js:37) and then re-inserts the survivors with a
  spread call (index.js:38). A JavaScript engine limits the number of arguments
  of one call, so with an estimated 10^5 survivors or more that call would throw.
  The registry would then stay empty, and the uncaught exception in the timer
  callback would end the Node process. This behaviour is not modelled: `Cleanup`
  always returns the survivors.
- The `setInterval` schedule of the clean-up is not modelled. `Cleanup` is one
  run; the period is recorded as `Registry.CleanupPeriodMs`.
- `randomUUID`, `new Date()` and `new URL()` are parameters, as described
  above.
- Interleavings across the `await` in `/verify` are modelled only through
  `CompleteVerify`. It accepts any registry at resume time, so the
  removed-meanwhile branch (index.js:145) is covered. There is no model of a
  scheduler.
- Records are identified by their id, not by JavaScript object identity. The
  status assignment at index.js:140 is therefore not a separate step: the record
  it marks is the one removed by id in the next lines. This is exact when ids
  are unique, which `WellFormed` states and fresh ids preserve.
- Request and body fields are modelled as strings, or as booleans for
  `success`. Numbers, arrays or other JSON values in those fields are not
  modelled. Neither is `parseInt` on a non-integer status.
- String lengths count Unicode characters. JavaScript counts UTF-16 code units,
  so the two differ for phone numbers containing characters outside the Basic
  Multilingual Plane.
- The remaining test scripts and mock servers are not modelled. They hold no
  logic of their own.
