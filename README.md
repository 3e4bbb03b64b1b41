# Donation site: OTP store, payment checks and donation records in Dafny

This project models the logic of a small donation website: an Express server
that issues and checks one-time passcodes (OTPs) sent by email and brokers
payment-provider orders and signature checks, and two browser scripts that
total the donations kept in local storage, validate a donation amount, record
a verified payment on the signed-in user, and show that user's dashboard.

- `js_values.dfy` (`JsValues`): the JavaScript semantics the code relies on:
  absent fields (`undefined`, here `None`), truthiness, `String(undefined)`,
  `Number.parseInt` (white space, sign, `0x` prefix, longest digit run) and
  first-occurrence `String.prototype.replace`.
- `otp_server.dfy` (`OtpServer`): the OTP store as a class (`OtpService`)
  holding a `map` from email to `{otp, expiresAt}`, with the `/send-otp` and
  `/verify-otp` handlers as methods. Each method is tied to a pure step
  function of the old store (`SendStep`, `IssueStep`, `VerifyStep`), and
  `Serve` runs a whole sequence of requests for the single-use theorem.
- `payment_server.dfy` (`PaymentServer`): the `/create-order` options and
  response, and the `/verify-payment` verdict. The provider's
  `orders.create` and HMAC-SHA256 (RFC 2104 over SHA-256, hex digest) are
  function parameters.
- `browser_data.dfy` (`BrowserData`): users and donations, `findIndex` by id,
  the first-match write-back, and the two local-storage entries
  (`currentUser`, `users`) as a class.
- `donation_page.dfy` (`DonationPage`): `calculateTotalDonations` (a method
  with the nested accumulation loops), the impact counters, amount choice and
  validation, the order request sent on submit, and `handlePaymentSuccess`.
- `dashboard.js` is modelled in `dashboard.dfy` (`Dashboard`): count, total
  and meals, the in-place newest-first sort on an array, the five most recent
  donations, the full list, and the profile form.

The clock (`now`), the generated code, mail delivery, the provider and the
HMAC are parameters. Dates are integer timestamps in milliseconds.

Facts about the code that the model keeps:
- A code is live up to and including `expiresAt`. The expiry test is a
  strict `Date.now() > expiresAt` (server.js:109), so only a later instant
  expires it.
- Codes are six characters of digits and lower-case letters (server.js:53).
  The model takes the code as an arbitrary string.
- The refusal for a missing amount reads "Amount is required" (server.js:133).
- Registered users have no `id` (auth.js:191, 218), and registration refuses
  an email that is already stored (auth.js:185). The write-back of the
  signed-in user is therefore modelled keyed by email; the lookup by id as
  written is kept beside it (see Findings).

## Model

| member | source | states |
|---|---|---|
| `JsValues.OrZero` | public/main.js:97 | `amount \|\| 0` is the amount when it is truthy and 0 when it is absent, NaN or zero |
| `JsValues.RemoveFirst` | public/main.js:173 | `replace("₹", "")` removes exactly the first occurrence: without one the label is unchanged; with one the result is the label with the character at the first `₹` position cut out |
| `JsValues.ParseDecimalRoundTrip` | public/main.js:173 | `parseInt` of a whole number written in decimal gives that number back |
| `OtpServer.IssueStep` | server.js:55-58 | issuing sets the email's record to the code with `expiresAt = now + 300000`, overwriting any previous record; every other email's record is unchanged |
| `OtpServer.SendStep` | server.js:83-93 | a falsy email gets 400 and leaves the store untouched; otherwise the code is stored, and the answer is success exactly when the mail was delivered |
| `OtpServer.VerifyStep` | server.js:103-124 | the four answers in source order, each as an if-and-only-if: no record; `now > expiresAt` (expired); live but a different code (invalid); live and equal (verified). The record is removed on expiry or success and kept otherwise; no other entry changes |
| `OtpServer.OtpService.constructor` | server.js:34 | the store starts empty |
| `OtpServer.OtpService.Issue` | server.js:52-58 | the store becomes `IssueStep` of the old store |
| `OtpServer.OtpService.SendOtp` | server.js:83-93 | answer and new store are `SendStep` of the old store; a falsy email leaves the store as it was |
| `OtpServer.OtpService.VerifyOtp` | server.js:96-125 | answer and new store are `VerifyStep` of the old store, keyed by the email as a property key (`"undefined"` when absent) |
| `OtpServer.VerifyAtExpiryInstant` | server.js:109-124 | a code verified at exactly `issuedAt + 300000` is accepted and consumed |
| `OtpServer.VerifyAfterExpiry` | server.js:109-113 | after `issuedAt + 300000` any submitted code gets "expired"; the record is deleted, so the right code then gets "No OTP request found" |
| `OtpServer.VerifySingleUse` | server.js:103-124 | after a success, the next verification of that email gets "No OTP request found", whatever code and time |
| `OtpServer.MismatchKeepsRecord` | server.js:115-118 | a wrong code gets "Invalid OTP" and leaves the store as it was, so the right code still succeeds at any time up to expiry |
| `OtpServer.ResendReplacesCode` | server.js:55-58 | after a resend, at any time up to the new code's expiry, the old code gets "Invalid OTP" and the new one is accepted |
| `OtpServer.SuccessesBoundedByIssues` | server.js:55-124 | over any request sequence, the successful verifications for an email plus its pending record never exceed the codes issued for it |
| `OtpServer.NoSuccessWithoutIssue` | server.js:103-105 | from an empty store, an email that was never issued a code is never verified |
| `OtpServer.IssueThenVerifyTwice` | server.js:83-124 | send, then verify twice with the right code in time: "OTP sent", "verified", then "No OTP request found" |
| `OtpServer.VerifyStepAsWritten` | server.js:103-118 | the lookup on a plain object: it agrees with `VerifyStep` on own keys and ordinary keys; for an inherited member name it succeeds exactly when no `otp` field is sent |
| `OtpServer.VerifyWithoutIssueAsWritten` | server.js:103-124 | with nothing issued, email `"constructor"` and no `otp` field is answered "OTP verified successfully"; the corrected step answers "No OTP request found" |
| `PaymentServer.OrderOptionsFor` | server.js:130-144 | a falsy amount builds no request. Otherwise the provider gets amount × 100 paise (non-zero, a multiple of 100), currency default "INR", receipt default "donation_receipt", notes default `{}`, and `payment_capture = 1` |
| `PaymentServer.CreateOrder` | server.js:128-160 | a falsy amount gets 400; otherwise the answer is the provider's order when it creates one, and 500 when it fails |
| `PaymentServer.RefusedOrderIgnoresProvider` | server.js:132-134 | a refused order does not depend on the provider: no call is made |
| `PaymentServer.VerifyPayment` | server.js:163-205 | verified, with the payment id, if and only if the key secret is set and the signature equals `Hmac(secret, orderId + "\|" + paymentId)`. The confirmation mail is requested only then, and only for a truthy email, with the caller's amount. A missing secret gives 500 |
| `PaymentServer.VerdictIgnoresUserAndAmount` | server.js:165-175 | the caller's user id and amount do not affect the verdict |
| `PaymentServer.SignedPayloadInjective` | server.js:172 | when neither order id contains `\|`, the signed message determines both ids |
| `PaymentServer.SignatureSharedAcrossSplits` | server.js:172 | the separator is not escaped: for all strings `o`, `m`, `p`, order `o\|m` with payment `p` and order `o` with payment `m\|p` give the same signed message and the same verdict |
| `BrowserData.FindIndexById` | public/main.js:319 | the lookup as written: the index is -1 exactly when no user has that id; otherwise it is the first user with that id (absent ids are equal, so an id-less user finds the first id-less record) |
| `BrowserData.ReplaceFirstById` | public/main.js:318-323 | the write-back as written: only the first user with a matching id is replaced; with no match the list is unchanged |
| `BrowserData.FindIndexByEmail` | public/main.js:319 | the corrected lookup: -1 exactly when no stored user has that email; otherwise the first user with that email |
| `BrowserData.ReplaceFirstByEmail` | public/main.js:318-323 | the corrected write-back: only the stored user with the same email is replaced, in place (the lookup then finds the new record at the same index); with no match the list is unchanged |
| `BrowserData.RegistrationKeepsSync` | auth.js:185-222 | registering a new email appends the user last, keeps emails unique, and leaves the signed-in user equal to its stored record |
| `BrowserData.WriteBackKeepsSync` | public/main.js:318-323 | after the write-back the written user is its stored record, and emails stay unique |
| `DonationPage.CalculateTotalDonations` | public/main.js:87-103 | the nested loops compute the sum of `amount \|\| 0` over every donation of every user that has a donations array |
| `DonationPage.TotalNonNegative` | public/main.js:92-102 | with no negative amount stored, the total is non-negative |
| `DonationPage.TotalAfterReplace` | public/main.js:92-102 | replacing one user changes the total by the difference between the two users' contributions |
| `DonationPage.ImpactFor` | public/main.js:53-55 | the three counters are the floors of total/50, total/100000 and total/15000; for a non-negative total they are non-negative and communities ≤ volunteers ≤ meals |
| `DonationPage.CounterTargets` | public/main.js:57-63 | slots 0-2 animate to meals, communities and volunteers; every further slot gets 0 |
| `DonationPage.AmountSource` | public/main.js:167-177 | with no active button, or "Custom" active, the amount is `parseInt` of the custom input; with any other active button the custom input does not affect the amount |
| `DonationPage.PresetButtonAmount` | public/main.js:168-177 | an active preset button labelled "₹" and a whole number submits that number, whatever the custom input holds |
| `DonationPage.ValidAmount` | public/main.js:180-183 | an amount is accepted exactly when it is a number above zero (NaN, absent, zero and negatives are refused) |
| `DonationPage.SubmitDonation` | public/main.js:154-199 | no signed-in user gives a login redirect; an invalid amount is refused before any order. Otherwise the order request carries the chosen amount and the user's notes, and the server turns it into a non-zero paise amount with the default currency and receipt |
| `DonationPage.NewDonation` | public/main.js:297-306 | the id is the first clock reading in decimal (it parses back to that reading); the date is the second clock reading; amount and payment ids are the given ones |
| `DonationPage.AddDonation` | public/main.js:309-312 | the user's donations now exist and grow by exactly one, the new donation at the end; earlier donations and all other fields are unchanged |
| `DonationPage.AddDonationContribution` | public/main.js:309-312 | the appended donation adds exactly its `amount \|\| 0` to the user's contribution to the total |
| `DonationPage.HandlePaymentSuccess` | public/main.js:295-323 | `currentUser` becomes the user with the donation appended; that user replaces the stored user with the same email (corrected write-back), and afterwards the two agree |
| `DonationPage.WriteBackByIdTotal` | public/main.js:318-323 | for the write-back by id as written, the total changes by the new record's contribution minus that of the record it overwrites, at whatever index the id lookup finds |
| `DonationPage.PaymentWriteBackAsWritten` | public/main.js:318-323 | with id-less users A (gave 100) and B (gave 50), B's payment of 30 overwrites A's record: the list becomes `[B', B]`, A's email is gone, and the total goes 150 → 130 |
| `DonationPage.PaymentRaisesTotal` | public/main.js:309-323 | with the email write-back, the total changes by the new record minus the overwritten one; when the signed-in user is in sync with its stored record, it rises by exactly the donation, and stays when no stored user has that email |
| `Dashboard.ReduceAmounts` | dashboard.js:52 | the sum is defined exactly when every donation has an amount; it is NaN otherwise. When defined it equals the landing page's sum |
| `Dashboard.LoadDashboardStats` | dashboard.js:45-53 | count = length of the donations (empty when absent). The total is the sum of the amounts, NaN if any amount is missing. Meals = floor(total/50). No donations gives 0, 0, 0 |
| `Dashboard.SortNewestFirst` | dashboard.js:78 | the array is sorted in place into non-increasing date order and is a permutation of the input |
| `Dashboard.RecentAreNewest` | dashboard.js:78-81 | the first k donations of the newest-first list are at least as recent as every donation left out |
| `Dashboard.LoadRecentActivities` | dashboard.js:68-86 | no donations gives the empty state. Otherwise 1 to 5 items are shown, a prefix of the newest-first permutation of the donations, and exactly 5 unless there are fewer |
| `Dashboard.LoadDonationsList` | dashboard.js:110-129 | no donations gives the empty state; otherwise every donation, newest first, as a permutation of the stored list |
| `Dashboard.EditProfile` | dashboard.js:169-176 | name, phone and address take the form values; email, id and donations are unchanged |
| `Dashboard.SubmitProfile` | dashboard.js:165-187 | `currentUser` becomes the edited user, who replaces the stored user with the same email (corrected write-back) and then agrees with it. With no signed-in user nothing changes |
| `Dashboard.ProfileWriteBackAsWritten` | dashboard.js:181-187 | with id-less users A (gave 100) and B (gave 50), B's profile edit overwrites A's record: the list becomes `[B', B]`, A's email is gone, and the total falls 150 → 100 |
| `Dashboard.ProfileEditKeepsTotals` | dashboard.js:174-187 | a profile edit never changes the dashboard figures. With the email write-back the total changes by the edited user minus the overwritten record, which is nothing when the signed-in user is in sync with its stored record |

## Findings

| source | as written | input that shows it | evidently intended | confidence | as-written member | corrected member |
|---|---|---|---|---|---|---|
| server.js:103-118 | `otpStore` is a plain object literal. `!otpStore[email]` finds inherited `Object.prototype` members, whose `otp` and `expiresAt` are `undefined`. `Date.now() > undefined` is false, and `undefined !== otp` is false when no `otp` is sent | `POST /verify-otp` with `{"email": "constructor"}`, no `otp` field, and no code ever issued: answered 200 "OTP verified successfully" | only codes actually issued are found: "No OTP request found for this email." | high; not executed | `OtpServer.VerifyWithoutIssueAsWritten` | `OtpServer.NoSuccessWithoutIssue` |
| public/main.js:318-323 | `users.findIndex((u) => u.id === user.id)`, but registered users have no `id` (auth.js:191, 218), so `undefined === undefined` matches the first stored user | users `[A, B]`, both registered, A gave 100 and B gave 50; B signs in and donates 30: `users` becomes `[B', B]`, A's account is lost, and the total shows 130 instead of 180 | the signed-in user's own record is updated, found by its email, which registration keeps unique (auth.js:185) | high; not executed | `DonationPage.PaymentWriteBackAsWritten` | `DonationPage.PaymentRaisesTotal` |
| dashboard.js:181-187 | the same id lookup in the profile form overwrites the first stored user | users `[A, B]` as above; B edits the profile: `users` becomes `[B', B]`, and the total falls from 150 to 100 | the edited user's own record is updated, found by its email | high; not executed | `Dashboard.ProfileWriteBackAsWritten` | `Dashboard.ProfileEditKeepsTotals` |

`OtpServer.OtpService` and `OtpServer.VerifyStep` look up own entries only,
as a `Map` or an `Object.hasOwn` check would. `OtpServer.VerifyStepAsWritten`
keeps the plain-object lookup for comparison. Likewise
`DonationPage.HandlePaymentSuccess` and `Dashboard.SubmitProfile` write back
by email (`BrowserData.ReplaceFirstByEmail`). `BrowserData.ReplaceFirstById`
keeps the lookup by id for comparison.

## Left out

- Email transport (nodemailer): delivering the OTP mail is the boolean `delivered`. The donation confirmation is the returned `ConfirmationEmail` request. Its delivery result is not modelled, since the verdict ignores it.
- Razorpay SDK: `orders.create` is the parameter `provider`. The constructor and the browser checkout widget (`initRazorpayPayment`) are foreign code.
- HMAC-SHA256 internals: `hmac` is an uninterpreted function parameter.
- OTP generation (`otp-generator`) and `Date.now()`: the code and the clock are parameters.
- Express plumbing: routing, CORS, JSON parsing, static files and the catch-all `index.html` fallback (server.js:20-32, 238-255) are HTTP plumbing.
- auth.js: DOM handlers and fetch calls. Only its registration rule (a stored email is refused, the new user is appended and signed in) enters the model, in `BrowserData.RegistrationKeepsSync`. Sign-in stores `users.find` by email as the current user, which is in sync by construction; when the email is not stored it stores `{ email }` alone (auth.js:158-159), which is why a user's name and phone are optional in the model, and which is in sync because no stored user has that email.
- DOM work, alerts, redirects, the header scroll effect, the mobile menu and the dashboard tabs: presentation only.
- `verifyPaymentWithServer` and the fetch/response glue of the submit handler (public/main.js:185-292): network glue. The model starts from a verified payment in `DonationPage.HandlePaymentSuccess` and ends at the order request in `DonationPage.SubmitDonation`.
- Floating point: the progress-bar percentage and its cap (public/main.js:113), and the `setInterval` counter animation (public/main.js:67-84). Amounts are integers (`parseInt` yields integers). `parseInt` precision above 2^53 is not modelled.
- `toLocaleString` and `toLocaleDateString` formatting.
- Date strings: dates are integer timestamps, so `new Date(...)` parsing and invalid dates (which make the sort comparator NaN) are not modelled.
- localStorage JSON serialisation: users and donations are in-memory values. A missing `users` entry is the empty list.
- async/await ordering: each handler's store change is synchronous and is modelled as one step.
- Request fields are modelled as a string (or a number for amounts) or absent. Other JSON values are not modelled: numbers where strings are expected, `null`, objects, and amounts sent as strings.
- An email of `"__proto__"` in `/send-otp` would replace the store object's prototype rather than add an entry. The store is modelled as an own-key map.
- Donation amounts of `null`, which `+` treats as 0 on the dashboard, are not modelled. An amount is a number or absent.
- A user whose `donations` is a truthy non-array: `donations` is an array or absent.
- `Dashboard.SortNewestFirst`: proves order and permutation but not the stability that `Array.prototype.sort` guarantees for equal dates.
