/** Properties of the `stripe-owner-webhook` model: plan inference, period resolution and the handler's gates. */
module StripeOwnerWebhookProps {
  import opened Wrappers
  import opened JsText
  import opened JsValues
  import opened Clock
  import opened StripeOwnerWebhook

  // ---------------------------------------------------------------------------------------
  // Plans

  /** A tier name reads back as that tier, so a metadata plan names exactly one tier. */
  lemma TierNameRoundTrip(t: Tier)
    ensures ParseTier(TierName(t)) == Some(t)
  {
  }

  /** A price setting that is unset or empty never matches any price id. */
  lemma UnsetPriceNeverMatches(prices: PriceConfig, t: Tier, priceId: JValue)
    requires !Present(ConfiguredPrice(prices, t))
    ensures InferPlanFromPriceId(prices, priceId) != Some(t)
  {
  }

  /**
   * Matching is exact: a price id equal to no configured id gives no plan, whatever it contains
   * (a tier's name, a configured id as a part), and so does a price id that is not a string.
   */
  lemma NoSubstringFallback(prices: PriceConfig, priceId: JValue)
    requires priceId.JString? ==> forall t: Tier :: ConfiguredPrice(prices, t) != Some(priceId.s)
    ensures InferPlanFromPriceId(prices, priceId).None?
  {
  }

  /** When all three settings hold the same id, starter, checked first, wins. */
  lemma StarterCheckedFirst(id: string)
    requires id != ""
    ensures InferPlanFromPriceId(PriceConfig(Some(id), Some(id), Some(id)), JString(id)) == Some(Starter)
  {
  }

  // ---------------------------------------------------------------------------------------
  // Period resolution, tag by tag

  /** A subscription with a numeric period end in the date range: that instant, with the object's own ids and first item price. */
  lemma SubscriptionPeriod(now: int, retrieve: string -> Lookup, obj: JValue)
    requires Kind(obj) == Subscription && Formattable(Get(obj, "current_period_end"))
    ensures BestEffortPaidUntil(now, retrieve, obj)
      == PeriodInfo(Get(obj, "current_period_end").n, Get(obj, "id"), Get(obj, "customer"), FirstItemPriceId(obj))
  {
  }

  /** A subscription without a numeric period end gets the bare fallback. */
  lemma SubscriptionWithoutPeriod(now: int, retrieve: string -> Lookup, obj: JValue)
    requires Kind(obj) == Subscription && !Get(obj, "current_period_end").JNumber?
    ensures BestEffortPaidUntil(now, retrieve, obj) == Fallback(now)
  {
  }

  /** A period end a JavaScript date cannot hold makes `toISOString` throw; the catch leaves the bare fallback. */
  lemma UnformattablePeriodEnd(now: int, retrieve: string -> Lookup, obj: JValue)
    requires Kind(obj) == Subscription || Kind(obj) == Invoice
    requires
      var end := if Kind(obj) == Subscription then Get(obj, "current_period_end") else Get(Get(FirstLine(obj), "period"), "end");
      end.JNumber? && !ValidInstant(end.n)
    ensures BestEffortPaidUntil(now, retrieve, obj) == Fallback(now)
  {
  }

  /**
   * A checkout session whose looked-up subscription has a numeric period end outside the
   * JavaScript date range: `toISOString` throws, the catch returns the bare fallback and the
   * session's ids are lost.
   */
  lemma UnformattableCheckoutPeriodEnd(now: int, retrieve: string -> Lookup, obj: JValue, sub: JValue)
    requires Kind(obj) == CheckoutSession
    requires Get(obj, "subscription").JString? && Get(obj, "subscription").s != ""
    requires retrieve(Get(obj, "subscription").s) == Retrieved(sub)
    requires Get(sub, "current_period_end").JNumber? && !ValidInstant(Get(sub, "current_period_end").n)
    ensures BestEffortPaidUntil(now, retrieve, obj) == Fallback(now)
  {
  }

  /** A checkout session whose subscription lookup gives a period end in the date range uses it and the looked-up price. */
  lemma CheckoutWithSubscriptionPeriod(now: int, retrieve: string -> Lookup, obj: JValue, sub: JValue)
    requires Kind(obj) == CheckoutSession
    requires Get(obj, "subscription").JString? && Get(obj, "subscription").s != ""
    requires retrieve(Get(obj, "subscription").s) == Retrieved(sub)
    requires Formattable(Get(sub, "current_period_end"))
    ensures BestEffortPaidUntil(now, retrieve, obj)
      == PeriodInfo(Get(sub, "current_period_end").n, Get(obj, "subscription"),
                    StrField(Get(obj, "customer")), FirstItemPriceId(sub))
  {
  }

  /**
   * A checkout session without a subscription id, or whose subscription has no numeric period
   * end, gets now + 30 days, keeps its own ids and has no price id.
   */
  lemma CheckoutWithoutPeriod(now: int, retrieve: string -> Lookup, obj: JValue)
    requires Kind(obj) == CheckoutSession
    requires var subId := Get(obj, "subscription");
      !(subId.JString? && subId.s != "")
      || (retrieve(subId.s).Retrieved? && !Get(retrieve(subId.s).subscription, "current_period_end").JNumber?)
    ensures BestEffortPaidUntil(now, retrieve, obj)
      == PeriodInfo(AddDays(now, 30), StrField(Get(obj, "subscription")), StrField(Get(obj, "customer")), JUndefined)
  {
  }

  /** A failed subscription lookup is caught: the bare fallback, without the session's ids. */
  lemma CheckoutLookupFailed(now: int, retrieve: string -> Lookup, obj: JValue)
    requires Kind(obj) == CheckoutSession
    requires Get(obj, "subscription").JString? && Get(obj, "subscription").s != ""
    requires retrieve(Get(obj, "subscription").s) == LookupFailed
    ensures BestEffortPaidUntil(now, retrieve, obj) == Fallback(now)
  {
  }

  /** An invoice whose first line has a numeric period end in the date range: that instant and that line's price id. */
  lemma InvoicePeriod(now: int, retrieve: string -> Lookup, obj: JValue)
    requires Kind(obj) == Invoice && Formattable(Get(Get(FirstLine(obj), "period"), "end"))
    ensures BestEffortPaidUntil(now, retrieve, obj)
      == PeriodInfo(Get(Get(FirstLine(obj), "period"), "end").n, StrField(Get(obj, "subscription")),
                    StrField(Get(obj, "customer")), Get(Get(FirstLine(obj), "price"), "id"))
  {
  }

  /** An invoice without it: now + 30 days with the subscription and customer ids only. */
  lemma InvoiceWithoutPeriod(now: int, retrieve: string -> Lookup, obj: JValue)
    requires Kind(obj) == Invoice && !Get(Get(FirstLine(obj), "period"), "end").JNumber?
    ensures BestEffortPaidUntil(now, retrieve, obj)
      == PeriodInfo(AddDays(now, 30), StrField(Get(obj, "subscription")), StrField(Get(obj, "customer")), JUndefined)
  {
  }

  /** Ids of invoices and sessions go through `toStr`: an expanded (object) customer is dropped. */
  lemma ExpandedCustomerDropped(now: int, retrieve: string -> Lookup, obj: JValue)
    requires Kind(obj) == Invoice && Get(obj, "customer").JObject?
    ensures BestEffortPaidUntil(now, retrieve, obj).customerId == JUndefined
  {
  }

  /** Payment intents and charges: now + 30 days and the customer id only. */
  lemma PaymentOrChargePeriod(now: int, retrieve: string -> Lookup, obj: JValue)
    requires Kind(obj) == PaymentIntent || Kind(obj) == Charge
    ensures BestEffortPaidUntil(now, retrieve, obj)
      == PeriodInfo(AddDays(now, 30), JUndefined, StrField(Get(obj, "customer")), JUndefined)
  {
  }

  /** Any other tag, or no object at all: the bare fallback. */
  lemma OtherTagPeriod(now: int, retrieve: string -> Lookup, obj: JValue)
    requires Kind(obj) == OtherKind
    ensures BestEffortPaidUntil(now, retrieve, obj) == Fallback(now)
  {
  }

  // ---------------------------------------------------------------------------------------
  // The patch

  /** Each `app_metadata` key has its own name, so no entry of the patch overwrites another. */
  lemma KeyNamesDistinct(a: PatchKey, b: PatchKey)
    ensures KeyName(a) == KeyName(b) ==> a == b
  {
  }

  // ---------------------------------------------------------------------------------------
  // The handler

  /** An event type outside the allow-list is acknowledged with 200 "ignored" and nothing is written. */
  lemma UnsupportedEventIgnored(cfg: WebhookConfig, req: WebhookRequest, now: int, svc: StripeServices)
    requires VerifiedEvent(cfg, req, svc).Some?
    requires VerifiedEvent(cfg, req, svc).value.eventType !in SupportedEvents
    ensures HandleWebhook(cfg, req, now, svc) == WebhookOutcome(Response(200, "ignored"), None)
  {
  }

  /** A supported event whose metadata has no usable `owner_uid` is refused with 400 and nothing is written. */
  lemma MissingOwnerRejected(cfg: WebhookConfig, req: WebhookRequest, now: int, svc: StripeServices)
    requires VerifiedEvent(cfg, req, svc).Some?
    requires VerifiedEvent(cfg, req, svc).value.eventType in SupportedEvents
    requires !Present(OwnerUid(VerifiedEvent(cfg, req, svc).value))
    ensures HandleWebhook(cfg, req, now, svc) == WebhookOutcome(Response(400, "Missing metadata.owner_uid"), None)
  {
  }

  /** Gates before the event: OPTIONS, missing secrets, missing or bad signature. None of them writes. */
  lemma EarlyGates(cfg: WebhookConfig, req: WebhookRequest, now: int, svc: StripeServices)
    ensures req.httpMethod == "OPTIONS" ==> HandleWebhook(cfg, req, now, svc) == Reply(200, "ok")
    ensures (req.httpMethod != "OPTIONS" && !SecretsPresent(cfg)) ==>
      HandleWebhook(cfg, req, now, svc) == Reply(500, "Missing required secrets.")
    ensures (req.httpMethod != "OPTIONS" && SecretsPresent(cfg) && !Present(req.signature)) ==>
      HandleWebhook(cfg, req, now, svc) == Reply(400, "Missing Stripe-Signature header.")
    ensures (req.httpMethod != "OPTIONS" && SecretsPresent(cfg) && Present(req.signature)
             && VerifiedEvent(cfg, req, svc).None?) ==>
      HandleWebhook(cfg, req, now, svc).response.status == 400 && HandleWebhook(cfg, req, now, svc).update.None?
  {
  }

  /** A metadata plan naming a tier, in any letter case, is written whatever the price id says. */
  lemma MetadataPlanTakesPrecedence(cfg: WebhookConfig, req: WebhookRequest, now: int, svc: StripeServices, t: Tier)
    requires Admitted(cfg, req, svc)
    requires MetaPlan(VerifiedEvent(cfg, req, svc).value) == TierName(t)
    ensures HandleWebhook(cfg, req, now, svc).update.Some?
    ensures HandleWebhook(cfg, req, now, svc).update.value.patch[OwnerPlan] == Value(JString(TierName(t)))
  {
  }

  /** Without a recognised metadata plan the plan comes from the price id, and is left out when none matches. */
  lemma PriceInferenceOtherwise(cfg: WebhookConfig, req: WebhookRequest, now: int, svc: StripeServices)
    requires Admitted(cfg, req, svc)
    requires ParseTier(MetaPlan(VerifiedEvent(cfg, req, svc).value)).None?
    ensures
      var e := VerifiedEvent(cfg, req, svc).value;
      var inferred := InferPlanFromPriceId(cfg.prices, BestEffortPaidUntil(now, svc.retrieveSubscription, EventObject(e)).priceId);
      var patch := HandleWebhook(cfg, req, now, svc).update.value.patch;
      (OwnerPlan in patch <==> inferred.Some?)
      && (inferred.Some? ==> patch[OwnerPlan] == Value(JString(TierName(inferred.value))))
  {
  }

  /** Every write marks the owner paid with a paid-until instant, and optional ids appear only when truthy. */
  lemma PatchShape(cfg: WebhookConfig, req: WebhookRequest, now: int, svc: StripeServices)
    requires Admitted(cfg, req, svc)
    ensures
      var e := VerifiedEvent(cfg, req, svc).value;
      var info := BestEffortPaidUntil(now, svc.retrieveSubscription, EventObject(e));
      var patch := HandleWebhook(cfg, req, now, svc).update.value.patch;
      patch[OwnerPaid] == Flag(true)
      && patch[OwnerPaidUntil] == Instant(info.paidUntil)
      && (OwnerSubscriptionId in patch <==> Truthy(info.subscriptionId))
      && (OwnerCustomerId in patch <==> Truthy(info.customerId))
  {
  }

  /** Scenario: "customer.created" is acknowledged and ignored. */
  lemma CustomerCreatedIgnored(cfg: WebhookConfig, req: WebhookRequest, now: int, svc: StripeServices, data: JValue)
    requires req.httpMethod == "POST" && SecretsPresent(cfg) && Present(req.signature)
    requires svc.constructEvent(req.rawBody, req.signature.value, cfg.webhookSecret.value)
      == Verified(StripeEvent("customer.created", data))
    ensures HandleWebhook(cfg, req, now, svc) == WebhookOutcome(Response(200, "ignored"), None)
  {
  }

  /**
   * Scenario: a completed checkout session without a subscription, whose metadata names the
   * owner and the plan "PRO": the owner is marked paid on plan pro until now + 30 days.
   */
  lemma CheckoutWithoutSubscriptionGrantsPro(cfg: WebhookConfig, req: WebhookRequest, now: int, svc: StripeServices, uid: string)
    requires uid != ""
    requires req.httpMethod == "POST" && SecretsPresent(cfg) && Present(req.signature)
    requires
      var obj := JObject(map["object" := JString("checkout.session"),
                             "metadata" := JObject(map["owner_uid" := JString(uid), "plan" := JString("PRO")])]);
      svc.constructEvent(req.rawBody, req.signature.value, cfg.webhookSecret.value)
        == Verified(StripeEvent("checkout.session.completed", JObject(map["object" := obj])))
    requires svc.updateUserById(uid, map[OwnerPaid := Flag(true), OwnerPaidUntil := Instant(now + 30 * 86400),
                                          OwnerPlan := Value(JString("pro"))]).None?
    ensures HandleWebhook(cfg, req, now, svc) == WebhookOutcome(Response(200, "ok"), Some(UserUpdate(uid,
      map[OwnerPaid := Flag(true), OwnerPaidUntil := Instant(now + 30 * 86400), OwnerPlan := Value(JString("pro"))])))
  {
    var obj := JObject(map["object" := JString("checkout.session"),
                           "metadata" := JObject(map["owner_uid" := JString(uid), "plan" := JString("PRO")])]);
    var e := StripeEvent("checkout.session.completed", JObject(map["object" := obj]));
    assert EventObject(e) == obj;
    assert Kind(obj) == CheckoutSession;
    assert OwnerUid(e) == Some(uid);
    assert AsciiLower("PRO") == "pro";
    assert MetaPlan(e) == "pro";
    var info := BestEffortPaidUntil(now, svc.retrieveSubscription, obj);
    assert info == PeriodInfo(now + 30 * 86400, JUndefined, JUndefined, JUndefined);
    var patch := PatchFor(cfg, now, svc, e);
    assert patch == map[OwnerPaid := Flag(true), OwnerPaidUntil := Instant(now + 30 * 86400), OwnerPlan := Value(JString("pro"))];
  }
}
