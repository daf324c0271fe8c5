/**
 * The `stripe-owner-webhook` edge function: from a verified Stripe event to the `app_metadata`
 * patch written on the restaurant owner's Supabase Auth user.
 *
 * Secrets, the clock and the three outside calls (`stripe.webhooks.constructEvent`,
 * `stripe.subscriptions.retrieve`, `auth.admin.updateUserById`) are inputs: a configuration
 * record, `now` in epoch seconds, and the functions of a `StripeServices` record.
 */
module StripeOwnerWebhook {
  import opened Wrappers
  import opened JsText
  import opened JsValues
  import opened Clock

  // ---------------------------------------------------------------------------------------
  // Scalars and metadata

  /** `toStr`: strings as they are, numbers in decimal, booleans as "true"/"false", anything else absent. */
  function ToStr(v: JValue): (r: Option<string>)
    ensures v.JString? ==> r == Some(v.s)
    ensures v.JNumber? ==> r.Some? && CanonicalNumber(r.value) && ParseNumber(r.value) == Some(v.n)
    ensures v.JBool? ==> r == Some(if v.b then "true" else "false")
    ensures r.Some? <==> v.JString? || v.JNumber? || v.JBool?
  {
    match v
    case JString(s) => Some(s)
    case JNumber(_) => JsString(v)
    case JBool(b) => Some(if b then "true" else "false")
    case _ => None
  }

  /** The object's `metadata` is there and is a non-null object (arrays included, as `typeof` says). */
  predicate HasMetadataObject(obj: JValue) {
    obj.JObject? && "metadata" in obj.fields
    && (obj.fields["metadata"].JObject? || obj.fields["metadata"].JArray?)
  }

  /** `getMeta`: the object's metadata when it is a non-null object, the empty object otherwise. */
  function GetMeta(obj: JValue): (md: JValue)
    ensures HasMetadataObject(obj) ==> md == obj.fields["metadata"]
    ensures !HasMetadataObject(obj) ==> md == JObject(map[])
  {
    if obj.JObject? && "metadata" in obj.fields then
      var md := obj.fields["metadata"];
      if Truthy(md) && (md.JObject? || md.JArray?) then md else JObject(map[])
    else
      JObject(map[])
  }

  // ---------------------------------------------------------------------------------------
  // Plans

  datatype Tier = Starter | Pro | Plus

  function TierName(t: Tier): string {
    match t
    case Starter => "starter"
    case Pro => "pro"
    case Plus => "plus"
  }

  /** Position of a tier in the order the price ids are checked: starter, pro, plus. */
  function TierRank(t: Tier): nat {
    match t
    case Starter => 0
    case Pro => 1
    case Plus => 2
  }

  /** `["starter", "pro", "plus"].includes(s)`, giving the tier named. */
  function ParseTier(s: string): (r: Option<Tier>)
    ensures r.Some? ==> TierName(r.value) == s
    ensures r.None? ==> forall t: Tier :: TierName(t) != s
  {
    if s == "starter" then Some(Starter)
    else if s == "pro" then Some(Pro)
    else if s == "plus" then Some(Plus)
    else None
  }

  /** The `PRICE_STARTER`, `PRICE_PRO` and `PRICE_PLUS` settings. */
  datatype PriceConfig = PriceConfig(starter: Option<string>, pro: Option<string>, plus: Option<string>)

  function ConfiguredPrice(prices: PriceConfig, t: Tier): Option<string> {
    match t
    case Starter => prices.starter
    case Pro => prices.pro
    case Plus => prices.plus
  }

  /** The configured price id of tier `t` is set, non-empty, and strictly equal to `priceId`. */
  predicate PriceMatches(prices: PriceConfig, t: Tier, priceId: JValue) {
    Present(ConfiguredPrice(prices, t)) && priceId == JString(ConfiguredPrice(prices, t).value)
  }

  /**
   * `inferPlanFromPriceId`: the first tier, in the order starter, pro, plus, whose configured
   * price id equals the price id exactly; nothing when none does or the price id is falsy.
   */
  function InferPlanFromPriceId(prices: PriceConfig, priceId: JValue): (r: Option<Tier>)
    ensures !Truthy(priceId) ==> r.None?
    ensures r.Some? <==> exists t: Tier :: PriceMatches(prices, t, priceId)
    ensures r.Some? ==> PriceMatches(prices, r.value, priceId)
    ensures r.Some? ==> forall t: Tier :: TierRank(t) < TierRank(r.value) ==> !PriceMatches(prices, t, priceId)
  {
    if !Truthy(priceId) then None
    else if PriceMatches(prices, Starter, priceId) then Some(Starter)
    else if PriceMatches(prices, Pro, priceId) then Some(Pro)
    else if PriceMatches(prices, Plus, priceId) then Some(Plus)
    else None
  }

  /** Lines 186-187: a recognised metadata plan wins; otherwise the plan inferred from the price id. */
  function ChoosePlan(metaPlan: string, prices: PriceConfig, priceId: JValue): (r: Option<Tier>)
    ensures ParseTier(metaPlan).Some? ==> r == ParseTier(metaPlan)
    ensures ParseTier(metaPlan).None? ==> r == InferPlanFromPriceId(prices, priceId)
  {
    match ParseTier(metaPlan)
    case Some(t) => Some(t)
    case None => InferPlanFromPriceId(prices, priceId)
  }

  // ---------------------------------------------------------------------------------------
  // Period resolution

  /** What `stripe.subscriptions.retrieve` gives: the subscription object, or a thrown error. */
  datatype Lookup = Retrieved(subscription: JValue) | LookupFailed

  /** The `object` tags the resolver distinguishes. */
  datatype ObjectKind = Subscription | CheckoutSession | Invoice | PaymentIntent | Charge | OtherKind

  function Kind(obj: JValue): ObjectKind {
    var tag := Get(obj, "object");
    if tag == JString("subscription") then Subscription
    else if tag == JString("checkout.session") then CheckoutSession
    else if tag == JString("invoice") then Invoice
    else if tag == JString("payment_intent") then PaymentIntent
    else if tag == JString("charge") then Charge
    else OtherKind
  }

  /**
   * The result of `bestEffortPaidUntil`. `paidUntil` is in epoch seconds; an identifier that is
   * `undefined` is absent. Identifiers are JavaScript values because the subscription branch
   * passes `obj.id`, `obj.customer` and the price id through without `toStr`.
   */
  datatype PeriodInfo = PeriodInfo(paidUntil: int, subscriptionId: JValue, customerId: JValue, priceId: JValue)

  const FallbackDays: int := 30

  function Fallback(now: int): (p: PeriodInfo)
    ensures p.paidUntil == AddDays(now, 30)
    ensures p.subscriptionId == JUndefined && p.customerId == JUndefined && p.priceId == JUndefined
  {
    PeriodInfo(AddDays(now, FallbackDays), JUndefined, JUndefined, JUndefined)
  }

  /** `x?.items?.data?.[0]?.price?.id`. */
  function FirstItemPriceId(x: JValue): JValue {
    Get(Get(First(Get(Get(x, "items"), "data")), "price"), "id")
  }

  /** `obj?.lines?.data?.[0]`. */
  function FirstLine(obj: JValue): JValue {
    First(Get(Get(obj, "lines"), "data"))
  }

  /** An optional string as the value of a result field. */
  function StrField(v: JValue): (r: JValue)
    ensures r == JUndefined || r.JString?
  {
    FromOption(ToStr(v))
  }

  /** A period end that `toISOString` can format; a `RangeError` otherwise, caught by the `try`. */
  predicate Formattable(end: JValue) {
    end.JNumber? && ValidInstant(end.n)
  }

  /**
   * `bestEffortPaidUntil`: dispatch on the object's tag. A period end is read from the
   * subscription, the retrieved subscription of a checkout session, or the first invoice line;
   * every other case, and every error inside the `try`, falls back to now + 30 days.
   */
  function BestEffortPaidUntil(now: int, retrieve: string -> Lookup, obj: JValue): (p: PeriodInfo)
    ensures p.paidUntil == AddDays(now, 30) || ValidInstant(p.paidUntil)
    ensures Kind(obj) != Subscription && Kind(obj) != CheckoutSession && Kind(obj) != Invoice ==>
      p.paidUntil == AddDays(now, 30) && p.subscriptionId == JUndefined && p.priceId == JUndefined
    ensures Kind(obj) != Subscription ==>
      (p.subscriptionId == JUndefined || p.subscriptionId.JString?) && (p.customerId == JUndefined || p.customerId.JString?)
  {
    var fallback := Fallback(now);
    match Kind(obj)
    case Subscription =>
      var end := Get(obj, "current_period_end");
      if Formattable(end) then
        PeriodInfo(end.n, Get(obj, "id"), Get(obj, "customer"), FirstItemPriceId(obj))
      else
        fallback
    case CheckoutSession =>
      var subId := Get(obj, "subscription");
      var customerId := Get(obj, "customer");
      var withIds := PeriodInfo(fallback.paidUntil, StrField(subId), StrField(customerId), JUndefined);
      if subId.JString? && |subId.s| > 0 then
        match retrieve(subId.s)
        case LookupFailed => fallback
        case Retrieved(sub) =>
          var end := Get(sub, "current_period_end");
          if !end.JNumber? then withIds
          else if ValidInstant(end.n) then PeriodInfo(end.n, subId, StrField(customerId), FirstItemPriceId(sub))
          else fallback
      else
        withIds
    case Invoice =>
      var line := FirstLine(obj);
      var end := Get(Get(line, "period"), "end");
      if !end.JNumber? then
        PeriodInfo(fallback.paidUntil, StrField(Get(obj, "subscription")), StrField(Get(obj, "customer")), JUndefined)
      else if ValidInstant(end.n) then
        PeriodInfo(end.n, StrField(Get(obj, "subscription")), StrField(Get(obj, "customer")), Get(Get(line, "price"), "id"))
      else
        fallback
    case PaymentIntent =>
      PeriodInfo(fallback.paidUntil, JUndefined, StrField(Get(obj, "customer")), JUndefined)
    case Charge =>
      PeriodInfo(fallback.paidUntil, JUndefined, StrField(Get(obj, "customer")), JUndefined)
    case OtherKind =>
      fallback
  }

  // ---------------------------------------------------------------------------------------
  // The app_metadata patch

  /** A value written into `app_metadata`; `Instant` is the ISO timestamp of those epoch seconds. */
  datatype MetaValue = Flag(b: bool) | Instant(seconds: int) | Value(v: JValue)

  /** The keys `nextMeta` may hold. */
  datatype PatchKey = OwnerPaid | OwnerPaidUntil | OwnerPlan | OwnerSubscriptionId | OwnerCustomerId

  /** The name of each key in `app_metadata`. */
  function KeyName(k: PatchKey): string {
    match k
    case OwnerPaid => "owner_paid"
    case OwnerPaidUntil => "owner_paid_until"
    case OwnerPlan => "owner_plan"
    case OwnerSubscriptionId => "owner_subscription_id"
    case OwnerCustomerId => "owner_customer_id"
  }

  type Patch = map<PatchKey, MetaValue>

  /** The entry the patch holds under `key`, if any. */
  function PatchEntry(key: PatchKey, paidUntil: int, plan: Option<Tier>, subId: JValue, custId: JValue): Option<MetaValue> {
    match key
    case OwnerPaid => Some(Flag(true))
    case OwnerPaidUntil => Some(Instant(paidUntil))
    case OwnerPlan => if plan.Some? then Some(Value(JString(TierName(plan.value)))) else None
    case OwnerSubscriptionId => if Truthy(subId) then Some(Value(subId)) else None
    case OwnerCustomerId => if Truthy(custId) then Some(Value(custId)) else None
  }

  /** `nextMeta`, key by key: the two fixed entries and each optional entry whose value is truthy. */
  function NextMeta(paidUntil: int, plan: Option<Tier>, subId: JValue, custId: JValue): (p: Patch)
    ensures OwnerPaid in p && p[OwnerPaid] == Flag(true)
    ensures OwnerPaidUntil in p && p[OwnerPaidUntil] == Instant(paidUntil)
    ensures OwnerPlan in p <==> plan.Some?
    ensures plan.Some? ==> p[OwnerPlan] == Value(JString(TierName(plan.value)))
    ensures OwnerSubscriptionId in p <==> Truthy(subId)
    ensures Truthy(subId) ==> p[OwnerSubscriptionId] == Value(subId)
    ensures OwnerCustomerId in p <==> Truthy(custId)
    ensures Truthy(custId) ==> p[OwnerCustomerId] == Value(custId)
  {
    map k: PatchKey | PatchEntry(k, paidUntil, plan, subId, custId).Some?
      :: PatchEntry(k, paidUntil, plan, subId, custId).value
  }

  /** A patch that agrees with `PatchEntry` on every key is the one `NextMeta` specifies. */
  lemma NextMetaByEntries(p: Patch, paidUntil: int, plan: Option<Tier>, subId: JValue, custId: JValue)
    requires forall k: PatchKey :: k in p <==> PatchEntry(k, paidUntil, plan, subId, custId).Some?
    requires forall k: PatchKey :: k in p ==> p[k] == PatchEntry(k, paidUntil, plan, subId, custId).value
    ensures p == NextMeta(paidUntil, plan, subId, custId)
  {
    assert p.Keys == NextMeta(paidUntil, plan, subId, custId).Keys;
  }

  /** Lines 189-195 as written: start from the two fixed keys and insert each optional key in turn. */
  method BuildNextMeta(paidUntil: int, plan: Option<Tier>, subId: JValue, custId: JValue) returns (next: Patch)
    ensures next == NextMeta(paidUntil, plan, subId, custId)
  {
    next := map[OwnerPaid := Flag(true), OwnerPaidUntil := Instant(paidUntil)];
    if plan.Some? {
      next := next[OwnerPlan := Value(JString(TierName(plan.value)))];
    }
    if Truthy(subId) {
      next := next[OwnerSubscriptionId := Value(subId)];
    }
    if Truthy(custId) {
      next := next[OwnerCustomerId := Value(custId)];
    }
    forall k: PatchKey
      ensures k in next <==> PatchEntry(k, paidUntil, plan, subId, custId).Some?
      ensures k in next ==> next[k] == PatchEntry(k, paidUntil, plan, subId, custId).value
    {
    }
    NextMetaByEntries(next, paidUntil, plan, subId, custId);
  }

  // ---------------------------------------------------------------------------------------
  // The handler

  datatype WebhookConfig = WebhookConfig(
    stripeSecretKey: Option<string>,
    webhookSecret: Option<string>,
    serviceRoleKey: Option<string>,
    prices: PriceConfig)

  datatype WebhookRequest = WebhookRequest(httpMethod: string, signature: Option<string>, rawBody: string)

  datatype StripeEvent = StripeEvent(eventType: string, data: JValue)

  /** What `constructEvent` gives: the event, or the thrown error's message (absent for a non-Error). */
  datatype Verification = Verified(event: StripeEvent) | Rejected(message: Option<string>)

  datatype StripeServices = StripeServices(
    constructEvent: (string, string, string) -> Verification,
    retrieveSubscription: string -> Lookup,
    /** The error message of `updateUserById`, or nothing when it succeeds. */
    updateUserById: (string, Patch) -> Option<string>)

  datatype Response = Response(status: int, body: string)

  /** The user whose `app_metadata` is set to `patch`. */
  datatype UserUpdate = UserUpdate(userId: string, patch: Patch)

  datatype WebhookOutcome = WebhookOutcome(response: Response, update: Option<UserUpdate>)

  const SupportedEvents: set<string> := {
    "checkout.session.completed",
    "invoice.payment_succeeded",
    "payment_intent.succeeded",
    "charge.succeeded",
    "customer.subscription.created",
    "customer.subscription.updated"
  }

  function Reply(status: int, body: string): WebhookOutcome {
    WebhookOutcome(Response(status, body), None)
  }

  predicate SecretsPresent(cfg: WebhookConfig) {
    Present(cfg.stripeSecretKey) && Present(cfg.webhookSecret) && Present(cfg.serviceRoleKey)
  }

  /** `event.data?.object`. */
  function EventObject(event: StripeEvent): JValue {
    Get(event.data, "object")
  }

  /** `toStr(meta["owner_uid"])`. */
  function OwnerUid(event: StripeEvent): Option<string> {
    ToStr(Get(GetMeta(EventObject(event)), "owner_uid"))
  }

  /** `(toStr(meta["plan"]) ?? "").toLowerCase()`. */
  function MetaPlan(event: StripeEvent): string {
    AsciiLower(ToStr(Get(GetMeta(EventObject(event)), "plan")).GetOr(""))
  }

  /** The event `constructEvent` accepted, when the request gets that far. */
  function VerifiedEvent(cfg: WebhookConfig, req: WebhookRequest, svc: StripeServices): Option<StripeEvent> {
    if req.httpMethod != "OPTIONS" && SecretsPresent(cfg) && Present(req.signature) then
      match svc.constructEvent(req.rawBody, req.signature.value, cfg.webhookSecret.value)
      case Verified(e) => Some(e)
      case Rejected(_) => None
    else
      None
  }

  /** Every gate before the write passes: secrets, signature, allow-list and `owner_uid`. */
  predicate Admitted(cfg: WebhookConfig, req: WebhookRequest, svc: StripeServices) {
    var e := VerifiedEvent(cfg, req, svc);
    e.Some? && e.value.eventType in SupportedEvents && Present(OwnerUid(e.value))
  }

  /** The patch an admitted event leads to. */
  function PatchFor(cfg: WebhookConfig, now: int, svc: StripeServices, event: StripeEvent): Patch {
    var info := BestEffortPaidUntil(now, svc.retrieveSubscription, EventObject(event));
    NextMeta(info.paidUntil, ChoosePlan(MetaPlan(event), cfg.prices, info.priceId), info.subscriptionId, info.customerId)
  }

  /**
   * The request handler from the signature check on (lines 121-202). The user is updated
   * exactly when every gate passes, and then it is the owner named by the metadata; the
   * answer is 200 "ok" when that update succeeds and 500 with its error message when it fails.
   */
  function HandleWebhook(cfg: WebhookConfig, req: WebhookRequest, now: int, svc: StripeServices): (o: WebhookOutcome)
    ensures o.update.Some? <==> Admitted(cfg, req, svc)
    ensures o.update.Some? ==>
      var e := VerifiedEvent(cfg, req, svc).value;
      o.update.value == UserUpdate(OwnerUid(e).value, PatchFor(cfg, now, svc, e))
    ensures o.response.status == 200 ==> o.response.body in {"ok", "ignored"}
    ensures o.response.body == "ok" && req.httpMethod != "OPTIONS" ==> o.update.Some?
    ensures o.update.Some? && svc.updateUserById(o.update.value.userId, o.update.value.patch).None? ==>
      o.response == Response(200, "ok")
    ensures o.update.Some? && svc.updateUserById(o.update.value.userId, o.update.value.patch).Some? ==>
      o.response == Response(500, "Supabase update failed: "
                                  + svc.updateUserById(o.update.value.userId, o.update.value.patch).value)
  {
    if req.httpMethod == "OPTIONS" then Reply(200, "ok")
    else if !SecretsPresent(cfg) then Reply(500, "Missing required secrets.")
    else if !Present(req.signature) then Reply(400, "Missing Stripe-Signature header.")
    else
      match svc.constructEvent(req.rawBody, req.signature.value, cfg.webhookSecret.value)
      case Rejected(msg) => Reply(400, "Webhook signature verification failed: " + msg.GetOr("unknown"))
      case Verified(event) =>
        if event.eventType !in SupportedEvents then Reply(200, "ignored")
        else
          var owner := OwnerUid(event);
          if !Present(owner) then Reply(400, "Missing metadata.owner_uid")
          else
            var update := UserUpdate(owner.value, PatchFor(cfg, now, svc, event));
            match svc.updateUserById(update.userId, update.patch)
            case Some(err) => WebhookOutcome(Response(500, "Supabase update failed: " + err), Some(update))
            case None => WebhookOutcome(Response(200, "ok"), Some(update))
  }
}
