/** Properties of the `iap-verify` handler: guard order, the product-id rule and the bypass gate. */
module IapVerifyProps {
  import opened Wrappers
  import opened JsText
  import opened JsValues
  import opened Clock
  import opened IapVerify

  /** Case-insensitive (ASCII) occurrence of a lower-case word at position `i`. */
  predicate CaseInsensitiveAt(s: string, word: string, i: nat) {
    i + |word| <= |s| && forall j :: 0 <= j < |word| ==> LowerChar(s[i + j]) == word[j]
  }

  lemma LowerSliceOccurs(s: string, word: string, i: nat)
    ensures OccursAt(AsciiLower(s), word, i) <==> CaseInsensitiveAt(s, word, i)
  {
  }

  /** The plan is yearly exactly when "year" occurs in the product id in any letter case. */
  lemma YearlyIffYearInProductId(productId: string)
    ensures PlanFor(productId) == Yearly <==> exists i: nat :: CaseInsensitiveAt(productId, "year", i)
  {
    if PlanFor(productId) == Yearly {
      var i: nat :| OccursAt(AsciiLower(productId), "year", i);
      LowerSliceOccurs(productId, "year", i);
    } else {
      forall i: nat ensures !CaseInsensitiveAt(productId, "year", i) {
        LowerSliceOccurs(productId, "year", i);
      }
    }
  }

  /** A yearly plan is paid for 365 days from now, a monthly one for 30. */
  lemma PaidUntilByPlan(productId: string, now: int)
    ensures PlanFor(productId) == Yearly ==> PaidUntilFor(PlanFor(productId), now) == now + 365 * 86400
    ensures PlanFor(productId) == Monthly ==> PaidUntilFor(PlanFor(productId), now) == now + 30 * 86400
  {
  }

  /**
   * The guards decide in source order, and none of them writes; a `String` call that throws
   * while the body is read ends the request with the runtime's 500.
   */
  lemma GuardOrder(cfg: IapConfig, req: IapRequest, now: int, svc: AuthServices)
    ensures req.httpMethod == "OPTIONS" ==> HandleIap(cfg, req, now, svc) == Reply(200, "ok")
    ensures (req.httpMethod != "OPTIONS" && req.httpMethod != "POST") ==>
      HandleIap(cfg, req, now, svc) == Reply(405, "Method not allowed")
    ensures (req.httpMethod == "POST" && !Present(cfg.serviceRoleKey)) ==>
      HandleIap(cfg, req, now, svc) == Reply(500, "Missing SERVICE_ROLE_KEY")
    ensures (req.httpMethod == "POST" && Present(cfg.serviceRoleKey) && !Present(BearerToken(req.authorization))) ==>
      HandleIap(cfg, req, now, svc) == Reply(401, "Missing Authorization token")
    ensures (req.httpMethod == "POST" && Present(cfg.serviceRoleKey) && Present(BearerToken(req.authorization))
             && Caller(req, svc).None?) ==>
      HandleIap(cfg, req, now, svc) == Reply(401, "Invalid token")
    ensures (req.httpMethod == "POST" && Present(cfg.serviceRoleKey) && Caller(req, svc).Some?
             && (req.body.None? || !Truthy(req.body.value))) ==>
      HandleIap(cfg, req, now, svc) == Reply(400, "Invalid JSON body")
    ensures (BodyReached(cfg, req, svc) && ReadBody(req.body.value).None?) ==>
      HandleIap(cfg, req, now, svc) == IapOutcome(IapResponse(500, Uncaught), None)
    ensures (BodyReached(cfg, req, svc) && ReadBody(req.body.value).Some? && ProductId(req) == "") ==>
      HandleIap(cfg, req, now, svc) == Reply(400, "Missing product_id")
    ensures (BodyReached(cfg, req, svc) && ReadBody(req.body.value).Some? && ProductId(req) != ""
             && !BypassEnabled(cfg)) ==>
      HandleIap(cfg, req, now, svc) == Reply(501, NotConfiguredMessage)
  {
  }

  /** Without the bypass flag nothing is ever granted or written, whatever the product id. */
  lemma FailsClosedWithoutBypass(cfg: IapConfig, req: IapRequest, now: int, svc: AuthServices)
    requires !BypassEnabled(cfg)
    ensures HandleIap(cfg, req, now, svc).write.None?
    ensures req.httpMethod != "OPTIONS" ==> HandleIap(cfg, req, now, svc).response.status != 200
  {
  }

  /** Only "true" in some letter case turns the bypass on. */
  lemma BypassSpellings()
    ensures BypassEnabled(IapConfig(None, Some("true")))
    ensures BypassEnabled(IapConfig(None, Some("TRUE")))
    ensures BypassEnabled(IapConfig(None, Some("True")))
    ensures !BypassEnabled(IapConfig(None, None))
    ensures !BypassEnabled(IapConfig(None, Some("1")))
    ensures !BypassEnabled(IapConfig(None, Some("yes")))
    ensures !BypassEnabled(IapConfig(None, Some(" true")))
  {
  }

  /** The token is everything after the exact prefix "Bearer "; other schemes and casings give none. */
  lemma TokenExtraction(t: string)
    ensures BearerToken(Some(BearerPrefix + t)) == Some(t)
    ensures BearerToken(Some("bearer " + t)).None?
    ensures BearerToken(Some("Basic " + t)).None?
    ensures BearerToken(None).None?
    ensures BearerToken(Some("Bearer ")) == Some("")
  {
    assert ("bearer " + t)[0] == 'b';
    assert ("Basic " + t)[1] == 'a';
  }

  /**
   * A missing or null `product_id` reads as "" and is refused with 400 before any write, unless
   * reading `platform` or a truthy `verification_data` throws first.
   */
  lemma AbsentProductIdRejected(cfg: IapConfig, req: IapRequest, now: int, svc: AuthServices)
    requires req.httpMethod == "POST" && Present(cfg.serviceRoleKey) && Caller(req, svc).Some?
    requires req.body.Some? && req.body.value.JObject?
    requires "product_id" !in req.body.value.fields || req.body.value.fields["product_id"] == JNull
    ensures ReadBody(req.body.value).None? <==>
      Throws(Get(req.body.value, "platform"))
      || (Truthy(Get(req.body.value, "verification_data")) && Throws(Get(req.body.value, "verification_data")))
    ensures HandleIap(cfg, req, now, svc) ==
      if ReadBody(req.body.value).None? then IapOutcome(IapResponse(500, Uncaught), None)
      else Reply(400, "Missing product_id")
  {
  }

  /** Scenario: a `platform` object with its own `toString` aborts the request before any write. */
  lemma ThrowingPlatformAborts(now: int, svc: AuthServices, userId: string)
    requires svc.getUser("tok") == Some(userId)
    ensures
      var body := JObject(map["platform" := JObject(map["toString" := JNumber(1)]),
                              "product_id" := JString("com.app.premium_year")]);
      var o := HandleIap(IapConfig(Some("key"), Some("true")), IapRequest("POST", Some("Bearer tok"), Some(body)), now, svc);
      o.response == IapResponse(500, Uncaught) && o.write.None?
  {
    var body := JObject(map["platform" := JObject(map["toString" := JNumber(1)]),
                            "product_id" := JString("com.app.premium_year")]);
    assert Throws(Get(body, "platform"));
    assert BearerToken(Some("Bearer tok")) == Some("tok");
  }

  /**
   * Scenario: `verification_data` is never used, yet an array in it holding an object with its
   * own `toString` makes `String` throw, and the request aborts before any write.
   */
  lemma ThrowingVerificationDataAborts(now: int, svc: AuthServices, userId: string)
    requires svc.getUser("tok") == Some(userId)
    ensures
      var data := JArray([JNull, JObject(map["toString" := JString("x")])]);
      var body := JObject(map["product_id" := JString("com.app.premium_year"), "verification_data" := data]);
      var o := HandleIap(IapConfig(Some("key"), Some("true")), IapRequest("POST", Some("Bearer tok"), Some(body)), now, svc);
      o.response == IapResponse(500, Uncaught) && o.write.None?
  {
    var data := JArray([JNull, JObject(map["toString" := JString("x")])]);
    var body := JObject(map["product_id" := JString("com.app.premium_year"), "verification_data" := data]);
    assert !Nullish(data.items[1]) && Throws(data.items[1]);
    assert Get(body, "verification_data") == data && Truthy(data) && Throws(data);
    assert ReadBody(body).None?;
    assert BearerToken(Some("Bearer tok")) == Some("tok");
  }

  /** "com.app.premium_year" names a yearly product. */
  lemma PremiumYearIsYearly()
    ensures PlanFor("com.app.premium_year") == Yearly
  {
    var pid := "com.app.premium_year";
    assert AsciiLower(pid) == pid;
    assert OccursAt(pid, "year", 16);
  }

  /** Scenario: a yearly product with the bypass on is granted for 365 days. */
  lemma GrantsYearlyProduct(now: int, svc: AuthServices, userId: string)
    requires svc.getUser("tok") == Some(userId)
    requires svc.updateProfile(ProfileWrite(userId, Yearly, now + 365 * 86400, now)).None?
    ensures
      var body := JObject(map["platform" := JString("android"), "product_id" := JString("com.app.premium_year")]);
      var req := IapRequest("POST", Some("Bearer tok"), Some(body));
      var o := HandleIap(IapConfig(Some("key"), Some("true")), req, now, svc);
      o.response == IapResponse(200, Granted("android", "com.app.premium_year", Yearly, now + 365 * 86400, true))
      && o.write == Some(ProfileWrite(userId, Yearly, now + 365 * 86400, now))
  {
    var body := JObject(map["platform" := JString("android"), "product_id" := JString("com.app.premium_year")]);
    assert BodyString(body, "product_id") == Some("com.app.premium_year");
    assert BodyString(body, "platform") == Some("android");
    assert ReadBody(body) == Some(BodyFields("android", "com.app.premium_year"));
    assert BearerToken(Some("Bearer tok")) == Some("tok");
    assert BypassEnabled(IapConfig(Some("key"), Some("true")));
    PremiumYearIsYearly();
  }
}
