# Entitlement edge functions, modelled in Dafny

This project models the two Supabase edge functions that turn a payment signal into an
entitlement record:

- **stripe-owner-webhook** takes a Stripe webhook event that passed signature verification. It
  finds the restaurant owner in the event object's `metadata.owner_uid` and works out a paid-until
  instant and the linked Stripe ids from the object's `object` tag. It picks a plan (`starter`,
  `pro` or `plus`): the metadata `plan` first, otherwise an exact match of the price id against the
  configured `PRICE_*` ids. Finally it writes the `app_metadata` patch (`owner_paid`,
  `owner_paid_until`, and `owner_plan`, `owner_subscription_id`, `owner_customer_id` when known)
  on that Supabase Auth user.
- **iap-verify** runs a chain of request guards: method, service key, Bearer token, user, JSON
  body, `product_id` and the `IAP_BYPASS_VERIFY` gate. A product id containing "year" then gives a
  yearly plan for 365 days, any other a monthly plan for 30 days. The result is written to the
  caller's `user_profiles` row and echoed in the response.

Both handlers are pure functions. Their inputs are a configuration record (the environment
secrets), the request, the clock reading `now` in epoch seconds, and a record of functions that
stand for the outside calls: `stripe.webhooks.constructEvent`, `stripe.subscriptions.retrieve`,
`auth.admin.updateUserById`, `auth.getUser` and the `user_profiles` update. Each handler returns
the HTTP response (status and body) together with the write it issues, if any.

Loosely typed JavaScript data (Stripe objects, metadata, JSON bodies) is modelled as `JValue` in
module `JsValues`, together with the JavaScript semantics the code relies on: truthiness,
optional chaining (`Get`, `First`), `??` and `String(v)`. The tag dispatch of
`bestEffortPaidUntil` goes through `Kind(obj)`, which classifies the object as one of
`Subscription | CheckoutSession | Invoice | PaymentIntent | Charge | OtherKind`. Timestamps are
integer epoch seconds. `addDaysIso(d)` is `now + d * 86400`. `new Date(s * 1000).toISOString()`
succeeds exactly when `Clock.ValidInstant(s)` holds, that is within 8.64e15 ms of the epoch.
Outside that range it throws a `RangeError`, which the resolver's `try` catches. The
`app_metadata` value `MetaValue.Instant(s)` stands for the ISO string of `s`.

`toLowerCase` is modelled as ASCII lowering (`JsText.AsciiLower`). This is exact for the three
ways the code uses it: comparing with "true", testing whether the result contains "year", and
testing membership in {starter, pro, plus}. The reason is that no non-ASCII character lower-cases
to text containing any of the ASCII letters involved. The only non-ASCII characters that
lower-case to ASCII at all are the Kelvin sign (to "k") and the dotted capital I (to "i" followed
by a combining dot).

Files: `wrappers.dfy` (Option), `js_text.dfy` (decimal rendering, lowering, `startsWith`,
`includes`), `js_values.dfy` (JavaScript values), `clock.dfy` (time),
`stripe_owner_webhook.dfy` and `iap_verify.dfy` (the two functions), and
`stripe_owner_webhook_props.dfy` and `iap_verify_props.dfy` (lemmas about them).

## Model

| member | source | states |
|---|---|---|
| `StripeOwnerWebhook.ToStr` | supabase/functions/stripe-owner-webhook/index.ts:24-29 | A string comes back unchanged. A number comes back as its canonical decimal string (no leading zero, no "-0"), which reads back as the same number. A boolean comes back as "true" or "false". Every other value gives nothing, and only these three kinds give a result. |
| `JsText.NumberToString` | supabase/functions/stripe-owner-webhook/index.ts:26 | `String(n)` for an integral number is canonical: digits without a leading zero (a lone "0" excepted), with a minus sign exactly for negative numbers and never before a zero. |
| `JsText.CanonicalNumberUnique` | supabase/functions/stripe-owner-webhook/index.ts:26 | Two canonical decimal strings that read as the same number are the same string, so a number has exactly one rendering. |
| `JsText.NumberToStringRoundTrip` | supabase/functions/stripe-owner-webhook/index.ts:26 | `String(n)` for an integral number reads back as `n`, so numeric ids and metadata keep their value when turned into strings. |
| `StripeOwnerWebhook.GetMeta` | supabase/functions/stripe-owner-webhook/index.ts:31-37 | The result is the object's `metadata` exactly when that is present and a non-null object (arrays included). In every other case, including a non-object event object, it is the empty object. |
| `Clock.AddDays` | supabase/functions/stripe-owner-webhook/index.ts:39-43 | `addDaysIso(days)` is exactly `days` × 86400 seconds after `now`, and lies later than `now` for a positive count. The copy at iap-verify/index.ts:20-24 is the same function. |
| `StripeOwnerWebhook.InferPlanFromPriceId` | supabase/functions/stripe-owner-webhook/index.ts:45-54 | A falsy price id gives no plan. Otherwise a plan is found exactly when some configured, non-empty price id equals the price id. The plan found is the first such tier in the order starter, pro, plus. |
| `StripeOwnerWebhookProps.UnsetPriceNeverMatches` | supabase/functions/stripe-owner-webhook/index.ts:50-52 | A tier whose price setting is unset or empty is never inferred. |
| `StripeOwnerWebhookProps.NoSubstringFallback` | supabase/functions/stripe-owner-webhook/index.ts:45-54 | For every configuration, a price id that equals no configured id gives no plan, whatever it contains (a tier name, a configured id as a part). So does a price id that is not a string. |
| `StripeOwnerWebhookProps.StarterCheckedFirst` | supabase/functions/stripe-owner-webhook/index.ts:50-52 | When all three settings hold the same id, that id infers starter. |
| `StripeOwnerWebhook.ParseTier` | supabase/functions/stripe-owner-webhook/index.ts:186-187 | A plan string is accepted only when it is one of the three tier names, and the tier returned has that name. |
| `StripeOwnerWebhookProps.TierNameRoundTrip` | supabase/functions/stripe-owner-webhook/index.ts:186-187 | Each tier's name is accepted as exactly that tier. |
| `StripeOwnerWebhook.ChoosePlan` | supabase/functions/stripe-owner-webhook/index.ts:186-187 | A recognised metadata plan is chosen whatever the price id. Otherwise the choice is the plan inferred from the price id. |
| `StripeOwnerWebhook.Fallback` | supabase/functions/stripe-owner-webhook/index.ts:60-61 | The fallback is now + 30 days with no subscription, customer or price id. |
| `StripeOwnerWebhook.BestEffortPaidUntil` | supabase/functions/stripe-owner-webhook/index.ts:56-119 | Never fails. The paid-until is either now + 30 days or an instant `toISOString` can format. Tags other than subscription, checkout session and invoice always get now + 30 days with no subscription id and no price id. Outside the subscription branch, ids are strings or absent. |
| `StripeOwnerWebhookProps.SubscriptionPeriod` | supabase/functions/stripe-owner-webhook/index.ts:65-72 | A subscription with a numeric `current_period_end` within the JavaScript date range is paid until exactly that many seconds. Its `id`, `customer` and first item's price id are passed through. |
| `StripeOwnerWebhookProps.SubscriptionWithoutPeriod` | supabase/functions/stripe-owner-webhook/index.ts:65-118 | A subscription without a numeric period end falls through to the bare fallback. |
| `StripeOwnerWebhookProps.UnformattablePeriodEnd` | supabase/functions/stripe-owner-webhook/index.ts:63-118 | A subscription or invoice period end outside the JavaScript date range makes `toISOString` throw. The catch then returns the bare fallback. |
| `StripeOwnerWebhookProps.UnformattableCheckoutPeriodEnd` | supabase/functions/stripe-owner-webhook/index.ts:75-118 | A checkout session whose looked-up subscription has a numeric period end outside the JavaScript date range makes `toISOString` throw. The catch returns the bare fallback, so the session's ids are lost. |
| `StripeOwnerWebhookProps.CheckoutWithSubscriptionPeriod` | supabase/functions/stripe-owner-webhook/index.ts:75-88 | Applies to a checkout session with a non-empty subscription id whose lookup has a numeric period end within the JavaScript date range. The result uses that period end, the session's subscription id, its customer through `toStr`, and the looked-up price id. |
| `StripeOwnerWebhookProps.CheckoutWithoutPeriod` | supabase/functions/stripe-owner-webhook/index.ts:75-91 | Applies to a checkout session with no usable subscription id, or whose looked-up subscription has no numeric period end. The result is now + 30 days with the session's own ids through `toStr` and no price id. |
| `StripeOwnerWebhookProps.CheckoutLookupFailed` | supabase/functions/stripe-owner-webhook/index.ts:75-118 | A subscription lookup that throws leads to the bare fallback, so the session's ids are lost. |
| `StripeOwnerWebhookProps.InvoicePeriod` | supabase/functions/stripe-owner-webhook/index.ts:94-106 | An invoice whose first line has a numeric `period.end` within the JavaScript date range is paid until that instant, with that line's price id and the invoice's ids through `toStr`. |
| `StripeOwnerWebhookProps.InvoiceWithoutPeriod` | supabase/functions/stripe-owner-webhook/index.ts:94-108 | An invoice without one gets now + 30 days with only the subscription and customer ids. |
| `StripeOwnerWebhookProps.ExpandedCustomerDropped` | supabase/functions/stripe-owner-webhook/index.ts:95-107 | An object-valued (expanded) invoice customer is dropped by `toStr`. |
| `StripeOwnerWebhookProps.PaymentOrChargePeriod` | supabase/functions/stripe-owner-webhook/index.ts:111-113 | A payment intent or charge gets now + 30 days and its customer id only, never a subscription or price id. |
| `StripeOwnerWebhookProps.OtherTagPeriod` | supabase/functions/stripe-owner-webhook/index.ts:63-118 | Any other tag, or a missing object, gets the bare fallback. |
| `StripeOwnerWebhook.NextMeta` | supabase/functions/stripe-owner-webhook/index.ts:189-195 | The patch always holds `owner_paid = true` and `owner_paid_until`. It holds `owner_plan` exactly when a plan was chosen, and `owner_subscription_id` and `owner_customer_id` exactly when those values are truthy. Each entry holds that value. |
| `StripeOwnerWebhookProps.KeyNamesDistinct` | supabase/functions/stripe-owner-webhook/index.ts:189-195 | The five `app_metadata` keys have distinct names, so no entry of the patch overwrites another. |
| `StripeOwnerWebhook.BuildNextMeta` | supabase/functions/stripe-owner-webhook/index.ts:189-195 | Inserting the keys one by one, as the source does, builds exactly the patch `NextMeta` specifies. |
| `StripeOwnerWebhook.HandleWebhook` | supabase/functions/stripe-owner-webhook/index.ts:121-202 | The owner is updated exactly when the secrets and signature are present, the event verifies, its type is allowed and `owner_uid` is non-empty. The update goes to that owner with the patch computed from the event. A 200 answers "ok" or "ignored", and a non-OPTIONS "ok" means the update was issued. An issued update is answered 200 "ok" when `updateUserById` succeeds and 500 "Supabase update failed: " plus its message when it errs. |
| `StripeOwnerWebhookProps.EarlyGates` | supabase/functions/stripe-owner-webhook/index.ts:121-154 | OPTIONS gives 200, missing secrets give 500, a missing signature gives 400 and a failed verification gives 400, in that order, and none of them writes. |
| `StripeOwnerWebhookProps.UnsupportedEventIgnored` | supabase/functions/stripe-owner-webhook/index.ts:157-168 | A verified event whose type is outside the six-item allow-list gives 200 "ignored" and no update. |
| `StripeOwnerWebhookProps.CustomerCreatedIgnored` | supabase/functions/stripe-owner-webhook/index.ts:157-168 | A "customer.created" event gives 200 "ignored" and no update. |
| `StripeOwnerWebhookProps.MissingOwnerRejected` | supabase/functions/stripe-owner-webhook/index.ts:170-179 | A supported event without a usable `metadata.owner_uid` gives 400 and no update. |
| `StripeOwnerWebhookProps.MetadataPlanTakesPrecedence` | supabase/functions/stripe-owner-webhook/index.ts:176-187 | A metadata plan that lower-cases to a tier name is written as `owner_plan`, whatever the price id. |
| `StripeOwnerWebhookProps.PriceInferenceOtherwise` | supabase/functions/stripe-owner-webhook/index.ts:186-193 | Without a recognised metadata plan, `owner_plan` is written exactly when the resolved price id infers a tier, and it is that tier. |
| `StripeOwnerWebhookProps.PatchShape` | supabase/functions/stripe-owner-webhook/index.ts:181-195 | Every write marks the owner paid until the resolved instant. It carries the subscription and customer ids exactly when the resolver found truthy ones. |
| `StripeOwnerWebhookProps.CheckoutWithoutSubscriptionGrantsPro` | supabase/functions/stripe-owner-webhook/index.ts:170-202 | A completed checkout with owner metadata and plan "PRO" but no subscription writes plan pro, paid until now + 30 days, and answers 200 "ok". |
| `JsValues.JsString` | supabase/functions/iap-verify/index.ts:51-53 | `String(v)` throws exactly when `Throws(v)` holds: an object with its own `toString` property, or an array holding such a value other than `null`/`undefined`. Otherwise it gives "undefined", "null", "true"/"false", a number's canonical decimal that reads back as the number, a string unchanged, "[object Object]" for an object, "" for an empty array and a one-element array's own rendering. The result is empty only for the empty string or an array. |
| `IapVerify.BodyString` | supabase/functions/iap-verify/index.ts:51-52 | `String(body.<key> ?? "")` throws exactly when the property's value throws, and gives "" for a missing or null property. |
| `IapVerify.ReadBody` | supabase/functions/iap-verify/index.ts:51-53 | Reading the body aborts exactly when `String` throws on `platform`, on `product_id`, or on a truthy `verification_data`. Otherwise it yields the `platform` and `product_id` strings. |
| `IapVerify.BearerToken` | supabase/functions/iap-verify/index.ts:40-41 | A token exists exactly when the header starts with "Bearer ", and the header is then "Bearer " followed by the token. |
| `IapVerifyProps.TokenExtraction` | supabase/functions/iap-verify/index.ts:40-42 | "Bearer " + t yields t. A lower-case "bearer", another scheme or a missing header yields no token. A bare "Bearer " yields the empty token, which the handler refuses. |
| `JsText.Includes` | supabase/functions/iap-verify/index.ts:68 | `includes` is true exactly when the pattern occurs at some position of the string. |
| `IapVerifyProps.YearlyIffYearInProductId` | supabase/functions/iap-verify/index.ts:67-68 | The plan is yearly exactly when "year" occurs in the product id in some letter case, and monthly otherwise. |
| `IapVerify.PaidUntilFor` | supabase/functions/iap-verify/index.ts:69 | A yearly plan is paid until now + 365 days and a monthly plan until now + 30 days. |
| `IapVerifyProps.PaidUntilByPlan` | supabase/functions/iap-verify/index.ts:67-69 | For any product id, the paid-until is now + 365 × 86400 seconds when yearly and now + 30 × 86400 seconds when monthly. |
| `IapVerify.HandleIap` | supabase/functions/iap-verify/index.ts:26-85 | The profile is written exactly when every guard passes. The write goes to the token's user with the product id's plan, that plan's paid-until and `updated_at = now`. A successful write is answered 200 with the body's `platform`, the product id, and the plan and paid-until written, with `bypass: true`; a failed write is answered 500 "Failed to update profile: " plus its message. Conversely a non-OPTIONS 200 always comes from a successful write. The handler aborts, with the runtime's 500 and no write, exactly when every guard before line 51 passed and reading the body throws. |
| `IapVerifyProps.GuardOrder` | supabase/functions/iap-verify/index.ts:27-64 | The guards apply in source order: OPTIONS gives 200; any other non-POST method gives 405; a missing key gives 500; a missing token gives 401; an invalid user gives 401; a bad body gives 400; a `String` call that throws while reading the body aborts with 500; an empty `product_id` gives 400; no bypass gives 501. Each response is the source's, with no write. |
| `IapVerifyProps.FailsClosedWithoutBypass` | supabase/functions/iap-verify/index.ts:57-64 | Without the bypass flag, no request writes the profile, and no non-OPTIONS request gets 200, whatever the product id. |
| `IapVerifyProps.BypassSpellings` | supabase/functions/iap-verify/index.ts:57 | "true", "TRUE" and "True" turn the bypass on. An unset flag, "1", "yes" and " true" do not. |
| `IapVerifyProps.AbsentProductIdRejected` | supabase/functions/iap-verify/index.ts:51-55 | A missing or null `product_id` reads as "" and gives 400 "Missing product_id" with no write, unless `platform` or a truthy `verification_data` makes `String` throw, which aborts with 500 and no write. |
| `IapVerifyProps.ThrowingPlatformAborts` | supabase/functions/iap-verify/index.ts:51-55 | A `platform` object with its own `toString` aborts with 500 and no write, even with a valid product id and the bypass on. |
| `IapVerifyProps.ThrowingVerificationDataAborts` | supabase/functions/iap-verify/index.ts:53 | `verification_data` is never used, yet an array in it holding an object with its own `toString` aborts the request with 500 and no write. |
| `IapVerifyProps.PremiumYearIsYearly` | supabase/functions/iap-verify/index.ts:67-68 | The product id "com.app.premium_year" gives the yearly plan. |
| `IapVerifyProps.GrantsYearlyProduct` | supabase/functions/iap-verify/index.ts:66-85 | "com.app.premium_year" with the bypass on gives 200 with plan yearly, paid until now + 365 days. The same values are written for the token's user. |

## Left out

- HTTP framing is not modelled: `Deno.serve`, `Request`/`Response` objects and headers beyond the few fields read. The body is given already parsed, as `req.json()` would give it, or absent when that throws. The webhook's raw body is an opaque string.
- `stripe.webhooks.constructEvent` (signature cryptography), `stripe.subscriptions.retrieve`, `auth.getUser`, `auth.admin.updateUserById` and the `user_profiles` update are oracle functions. The model records which arguments they receive and what the handler does with their answer. It does not say whether the profile update matched a row.
- Creating the Stripe and Supabase clients is not modelled. The model assumes the client constructors return normally. A `PROJECT_URL` set to the empty string (the `??` default applies only when it is unset) makes the Supabase client constructor throw, and the runtime then answers 500 before the signature or token check; the model does not capture that. Only whether `STRIPE_SECRET_KEY` is present is modelled for the Stripe client.
- The 500 the runtime sends when the iap-verify handler throws is modelled as the response body `Uncaught`; its exact text is the runtime's and is not modelled.
- `Instant(s)` stands for the ISO string that `toISOString` produces. Calendar formatting and local-time or daylight-saving effects of `setDate` are not modelled: time is UTC seconds.
- One clock reading `now` serves each request. The source reads the clock separately in each `addDaysIso` and `new Date()`.
- A clock reading so close to the end of the JavaScript date range that `addDaysIso` itself throws is not modelled.
- Numbers are integers. Fractions, `NaN`, `Infinity`, `-0`, the exponent notation `String` uses from 1e21, and the loss of precision above 2^53 are not modelled.
- `Get` reads only an object's own properties. On an array or a primitive it gives `undefined`. No name the code reads is an inherited property or an array's `length`.
- The two functions do none of the following, so neither does the model: parse the description text, scan metadata for UUIDs, look accounts up by email, fall back to substring matching on plan names, read the metadata keys `uid`, `owner_plan` or `email`, or follow invoice indirections. In particular, a subscription event whose owner appears only in its description is refused with 400.
