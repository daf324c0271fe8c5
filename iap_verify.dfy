/**
 * The `iap-verify` edge function: a chain of request guards, then a plan and a paid-until
 * date derived from the product id, written to the caller's row of `user_profiles`.
 *
 * Secrets, the clock and the Supabase calls (`auth.getUser`, the `user_profiles` update) are
 * inputs: a configuration record, `now` in epoch seconds, and the functions of `AuthServices`.
 */
module IapVerify {
  import opened Wrappers
  import opened JsText
  import opened JsValues
  import opened Clock

  /** The `SERVICE_ROLE_KEY` and `IAP_BYPASS_VERIFY` settings. */
  datatype IapConfig = IapConfig(serviceRoleKey: Option<string>, bypassVerify: Option<string>)

  /**
   * The parts of the request the handler reads: the method, the `Authorization` header and the
   * body as `req.json()` gives it (absent when the body is not JSON).
   */
  datatype IapRequest = IapRequest(httpMethod: string, authorization: Option<string>, body: Option<JValue>)

  datatype SubPlan = Monthly | Yearly

  /** The row update: `user_sub_plan`, `user_sub_paid_until` and `updated_at` where `user_id` matches. */
  datatype ProfileWrite = ProfileWrite(userId: string, plan: SubPlan, paidUntil: int, updatedAt: int)

  datatype AuthServices = AuthServices(
    /** The id of the user the token belongs to; absent when `getUser` errs or finds no user. */
    getUser: string -> Option<string>,
    /** The error message of the profile update, or nothing when it succeeds. */
    updateProfile: ProfileWrite -> Option<string>)

  /**
   * A plain-text reason, the JSON body of a granted purchase (whose `ok` is always true), or the
   * runtime's error page when the handler throws instead of answering.
   */
  datatype IapBody =
    | Text(message: string)
    | Granted(platform: string, productId: string, plan: SubPlan, paidUntil: int, bypass: bool)
    | Uncaught

  datatype IapResponse = IapResponse(status: int, body: IapBody)

  datatype IapOutcome = IapOutcome(response: IapResponse, write: Option<ProfileWrite>)

  const BearerPrefix: string := "Bearer "

  const NotConfiguredMessage: string :=
    "Verification not configured. Set IAP_BYPASS_VERIFY=true for testing, or implement store verification."

  /** The token is the rest of a header that starts with exactly "Bearer "; otherwise there is none. */
  function BearerToken(header: Option<string>): (token: Option<string>)
    ensures token.Some? <==> header.Some? && StartsWith(header.value, BearerPrefix)
    ensures token.Some? ==> header.value == BearerPrefix + token.value
  {
    if header.Some? && StartsWith(header.value, BearerPrefix) then
      Some(header.value[|BearerPrefix|..])
    else
      None
  }

  /** `String(body.<key> ?? "")`, or `None` when `String` throws. */
  function BodyString(body: JValue, key: string): (r: Option<string>)
    ensures r.None? <==> Throws(Get(body, key))
    ensures Nullish(Get(body, key)) ==> r == Some("")
  {
    JsString(OrElse(Get(body, key), JString("")))
  }

  /** The two body fields the handler keeps. */
  datatype BodyFields = BodyFields(platform: string, productId: string)

  /**
   * Lines 51-53: `platform`, `product_id` and, when it is truthy, `verification_data` are each
   * passed to `String`; if any of those calls throws, nothing is read and the handler aborts.
   */
  function ReadBody(body: JValue): (r: Option<BodyFields>)
    ensures r.None? <==>
      Throws(Get(body, "platform")) || Throws(Get(body, "product_id"))
      || (Truthy(Get(body, "verification_data")) && Throws(Get(body, "verification_data")))
    ensures r.Some? ==> Some(r.value.platform) == BodyString(body, "platform")
    ensures r.Some? ==> Some(r.value.productId) == BodyString(body, "product_id")
  {
    var platform := BodyString(body, "platform");
    var productId := BodyString(body, "product_id");
    var verificationData := Get(body, "verification_data");
    if platform.None? || productId.None? then None
    else if Truthy(verificationData) && JsString(verificationData).None? then None
    else Some(BodyFields(platform.value, productId.value))
  }

  /** `(IAP_BYPASS_VERIFY ?? "").toLowerCase() === "true"`. */
  predicate BypassEnabled(cfg: IapConfig) {
    AsciiLower(cfg.bypassVerify.GetOr("")) == "true"
  }

  /** Line 68: yearly when the lower-cased product id contains "year", monthly otherwise. */
  function PlanFor(productId: string): SubPlan {
    if Includes(AsciiLower(productId), "year") then Yearly else Monthly
  }

  function PeriodDays(plan: SubPlan): (days: int)
    ensures days > 0
  {
    match plan
    case Yearly => 365
    case Monthly => 30
  }

  /** Line 69: now + 365 days for a yearly plan, now + 30 days for a monthly one. */
  function PaidUntilFor(plan: SubPlan, now: int): (t: int)
    ensures plan == Yearly ==> t == AddDays(now, 365)
    ensures plan == Monthly ==> t == AddDays(now, 30)
  {
    AddDays(now, PeriodDays(plan))
  }

  function Reply(status: int, message: string): IapOutcome {
    IapOutcome(IapResponse(status, Text(message)), None)
  }

  /** The user the request's token identifies, once the method and secret guards have passed. */
  function Caller(req: IapRequest, svc: AuthServices): Option<string> {
    var token := BearerToken(req.authorization);
    if Present(token) then svc.getUser(token.value) else None
  }

  /** Lines 51-53 run: the method, secret, token and body guards before them have passed. */
  predicate BodyReached(cfg: IapConfig, req: IapRequest, svc: AuthServices) {
    req.httpMethod == "POST"
    && Present(cfg.serviceRoleKey)
    && Caller(req, svc).Some?
    && req.body.Some? && Truthy(req.body.value)
  }

  /** The product id read from the body; "" when there is no body or reading it throws. */
  function ProductId(req: IapRequest): string {
    if req.body.Some? && ReadBody(req.body.value).Some? then ReadBody(req.body.value).value.productId else ""
  }

  /** Every guard of lines 27-64 passes, so the profile is written. */
  predicate GuardsPass(cfg: IapConfig, req: IapRequest, svc: AuthServices) {
    BodyReached(cfg, req, svc)
    && ReadBody(req.body.value).Some?
    && ProductId(req) != ""
    && BypassEnabled(cfg)
  }

  /**
   * The request handler (lines 26-85). The guards run in source order; the profile is written
   * exactly when all of them pass, for the token's user; a successful write is answered with a
   * 200 that reports what was written, a failed one with 500 and the error message.
   * A `String` call that throws on lines 51-53 is not caught: the handler answers nothing and
   * the runtime's 500 stands in for it.
   */
  function HandleIap(cfg: IapConfig, req: IapRequest, now: int, svc: AuthServices): (o: IapOutcome)
    ensures o.write.Some? <==> GuardsPass(cfg, req, svc)
    ensures o.write.Some? ==>
      o.write.value == ProfileWrite(Caller(req, svc).value, PlanFor(ProductId(req)),
                                    PaidUntilFor(PlanFor(ProductId(req)), now), now)
    ensures o.response.status == 200 && req.httpMethod != "OPTIONS" ==>
      o.write.Some? && o.response.body.Granted? && o.response.body.bypass
      && o.response.body.productId == ProductId(req)
      && o.response.body.plan == o.write.value.plan
      && o.response.body.paidUntil == o.write.value.paidUntil
    ensures o.write.Some? && svc.updateProfile(o.write.value).None? ==>
      o.response == IapResponse(200, Granted(ReadBody(req.body.value).value.platform, ProductId(req),
                                             o.write.value.plan, o.write.value.paidUntil, true))
    ensures o.write.Some? && svc.updateProfile(o.write.value).Some? ==>
      o.response == IapResponse(500, Text("Failed to update profile: " + svc.updateProfile(o.write.value).value))
    ensures o.response.body.Uncaught? <==> BodyReached(cfg, req, svc) && ReadBody(req.body.value).None?
    ensures o.response.body.Uncaught? ==> o.response.status == 500 && o.write.None?
  {
    if req.httpMethod == "OPTIONS" then Reply(200, "ok")
    else if req.httpMethod != "POST" then Reply(405, "Method not allowed")
    else if !Present(cfg.serviceRoleKey) then Reply(500, "Missing SERVICE_ROLE_KEY")
    else
      var token := BearerToken(req.authorization);
      if !Present(token) then Reply(401, "Missing Authorization token")
      else
        match svc.getUser(token.value)
        case None => Reply(401, "Invalid token")
        case Some(userId) =>
          if req.body.None? || !Truthy(req.body.value) then Reply(400, "Invalid JSON body")
          else
            match ReadBody(req.body.value)
            case None => IapOutcome(IapResponse(500, Uncaught), None)
            case Some(BodyFields(platform, productId)) =>
              if productId == "" then Reply(400, "Missing product_id")
              else if !BypassEnabled(cfg) then Reply(501, NotConfiguredMessage)
              else
                var plan := PlanFor(productId);
                var paidUntil := PaidUntilFor(plan, now);
                var write := ProfileWrite(userId, plan, paidUntil, now);
                match svc.updateProfile(write)
                case Some(err) =>
                  IapOutcome(IapResponse(500, Text("Failed to update profile: " + err)), Some(write))
                case None =>
                  IapOutcome(IapResponse(200, Granted(platform, productId, plan, paidUntil, true)), Some(write))
  }
}
