/**
 Checkout initiation of app/api/checkout/route.ts: request validation, the
 plan-to-price mapping, the redirect base URL and the session request sent
 to the payment processor.
 */
module Checkout {
  import opened Options
  import opened Strings

  /** The parsed JSON body; `plan` and `email` may be missing. */
  datatype Body = Body(plan: Option<string>, email: Option<string>)

  /** The environment variables the route reads. */
  datatype Env = Env(
    nextAuthUrl: Option<string>,
    nextPublicUrl: Option<string>,
    nextPublicSiteUrl: Option<string>,
    stripePriceId: Option<string>,
    stripeUltimatePriceId: Option<string>)

  const DefaultOrigin: string := "http://localhost:3000"

  /** The hosted checkout session the route asks for. */
  datatype LineItem = LineItem(price: string, quantity: nat)
  datatype SessionRequest = SessionRequest(
    mode: string,
    paymentMethodTypes: seq<string>,
    customerEmail: string,
    lineItems: seq<LineItem>,
    successUrl: string,
    cancelUrl: string,
    allowPromotionCodes: bool)

  /** What the payment processor answers: a session (whose `url` may be null), or an error. */
  datatype StripeOutcome = SessionCreated(url: Option<string>) | StripeFailed

  datatype Reply =
    | MissingPlan
    | MissingEmail
    | MissingPrice
    | SessionUrl(url: Option<string>)
    | CheckoutFailed

  function Status(r: Reply): int
  {
    match r
    case MissingPlan => 400
    case MissingEmail => 400
    case MissingPrice => 500
    case SessionUrl(_) => 200
    case CheckoutFailed => 500
  }

  /** `a || b || ... || fallback` over possibly absent strings. */
  function FirstPresent(candidates: seq<Option<string>>, fallback: string): (r: string)
    ensures (forall i :: 0 <= i < |candidates| ==> !Present(candidates[i])) ==> r == fallback
    ensures forall i :: (0 <= i < |candidates| && Present(candidates[i])
                         && forall j :: 0 <= j < i ==> !Present(candidates[j])) ==> r == candidates[i].value
  {
    if |candidates| == 0 then fallback
    else if Present(candidates[0]) then candidates[0].value
    else FirstPresent(candidates[1..], fallback)
  }

  /** `s.replace(/\/$/, "")`: drop one trailing slash, if there is one. */
  function StripTrailingSlash(s: string): (r: string)
    ensures s == r || s == r + "/"
    ensures EndsWith(s, "/") ==> |r| == |s| - 1
    ensures !EndsWith(s, "/") ==> r == s
  {
    if |s| > 0 && s[|s| - 1] == '/' then s[..|s| - 1] else s
  }

  /** `getBaseUrl`: the first non-empty configured URL, else the request's origin, else localhost. */
  function BaseUrl(env: Env, origin: Option<string>): (r: string)
    ensures Present(env.nextAuthUrl) ==> r == StripTrailingSlash(env.nextAuthUrl.value)
    ensures (!Present(env.nextAuthUrl) && !Present(env.nextPublicUrl) && !Present(env.nextPublicSiteUrl)
             && !Present(origin)) ==> r == DefaultOrigin
  {
    StripTrailingSlash(FirstPresent([env.nextAuthUrl, env.nextPublicUrl, env.nextPublicSiteUrl, origin], DefaultOrigin))
  }

  /** The price a plan maps to; other plans map to nothing. */
  function PriceFor(plan: string, env: Env): (p: Option<string>)
    ensures plan == "pro" ==> p == env.stripePriceId
    ensures plan == "ultimate" ==> p == env.stripeUltimatePriceId
    ensures p.Some? ==> plan == "pro" || plan == "ultimate"
  {
    if plan == "pro" then env.stripePriceId
    else if plan == "ultimate" then env.stripeUltimatePriceId
    else None
  }

  function SessionFor(email: string, price: string, base: string): SessionRequest
  {
    SessionRequest("subscription", ["card"], email, [LineItem(price, 1)],
                   base + "/success?session_id={CHECKOUT_SESSION_ID}", base + "/pricing", true)
  }

  /**
   `POST /api/checkout`. `body` is None when the body is not JSON. The
   second component is the session request sent to the payment processor,
   None when the route answers before calling it.
   */
  function Post(body: Option<Body>, env: Env, origin: Option<string>, stripe: StripeOutcome)
    : (out: (Reply, Option<SessionRequest>))
    ensures body.None? || !Present(body.value.plan) ==> out == (MissingPlan, None)
    ensures body.Some? && Present(body.value.plan) && !Present(body.value.email) ==> out == (MissingEmail, None)
    ensures (body.Some? && Present(body.value.plan) && Present(body.value.email)
             && !Present(PriceFor(body.value.plan.value, env))) ==> out == (MissingPrice, None)
    ensures out.1.Some? <==> Status(out.0) == 200 || out.0 == CheckoutFailed
    ensures out.1.Some? ==>
              && body.Some? && body.value.email.Some?
              && var req := out.1.value;
              && req.mode == "subscription"
              && req.paymentMethodTypes == ["card"] && req.allowPromotionCodes
              && req.customerEmail == body.value.email.value
              && |req.lineItems| == 1 && req.lineItems[0].quantity == 1
              && Some(req.lineItems[0].price) == PriceFor(body.value.plan.value, env)
              && req.lineItems[0].price != ""
    ensures out.0.SessionUrl? ==> stripe == SessionCreated(out.0.url)
    // A valid, priced request always reaches the payment processor.
    ensures (body.Some? && Present(body.value.plan) && Present(body.value.email)
             && Present(PriceFor(body.value.plan.value, env))) ==>
              && out.1.Some?
              && out.1.value.successUrl == BaseUrl(env, origin) + "/success?session_id={CHECKOUT_SESSION_ID}"
              && out.0 == (if stripe.SessionCreated? then SessionUrl(stripe.url) else CheckoutFailed)
  {
    if body.None? || !Present(body.value.plan) then (MissingPlan, None)
    else if !Present(body.value.email) then (MissingEmail, None)
    else
      var price := PriceFor(body.value.plan.value, env);
      if !Present(price) then (MissingPrice, None)
      else
        var req := SessionFor(body.value.email.value, price.value, BaseUrl(env, origin));
        match stripe
        case SessionCreated(url) => (SessionUrl(url), Some(req))
        case StripeFailed => (CheckoutFailed, Some(req))
  }

  /** Any plan but "pro" or "ultimate" is refused with 500 before any session is requested. */
  lemma UnknownPlanRefused(plan: string, email: string, env: Env, origin: Option<string>, stripe: StripeOutcome)
    requires plan != "" && email != "" && plan != "pro" && plan != "ultimate"
    ensures Post(Some(Body(Some(plan), Some(email))), env, origin, stripe) == (MissingPrice, None)
  {
  }

  /** Base URL precedence: NEXTAUTH_URL, NEXT_PUBLIC_URL, NEXT_PUBLIC_SITE_URL, origin header, localhost. */
  lemma {:induction false} BaseUrlPrecedence(env: Env, origin: Option<string>)
    ensures Present(env.nextAuthUrl) ==> BaseUrl(env, origin) == StripTrailingSlash(env.nextAuthUrl.value)
    ensures !Present(env.nextAuthUrl) && Present(env.nextPublicUrl) ==>
              BaseUrl(env, origin) == StripTrailingSlash(env.nextPublicUrl.value)
    ensures !Present(env.nextAuthUrl) && !Present(env.nextPublicUrl) && Present(env.nextPublicSiteUrl) ==>
              BaseUrl(env, origin) == StripTrailingSlash(env.nextPublicSiteUrl.value)
    ensures (!Present(env.nextAuthUrl) && !Present(env.nextPublicUrl) && !Present(env.nextPublicSiteUrl)
             && Present(origin)) ==> BaseUrl(env, origin) == StripTrailingSlash(origin.value)
    ensures (!Present(env.nextAuthUrl) && !Present(env.nextPublicUrl) && !Present(env.nextPublicSiteUrl)
             && !Present(origin)) ==> BaseUrl(env, origin) == DefaultOrigin
  {
    var cs := [env.nextAuthUrl, env.nextPublicUrl, env.nextPublicSiteUrl, origin];
    if Present(cs[0]) {
      assert FirstPresent(cs, DefaultOrigin) == cs[0].value;
    } else if Present(cs[1]) {
      assert FirstPresent(cs, DefaultOrigin) == cs[1].value;
    } else if Present(cs[2]) {
      assert FirstPresent(cs, DefaultOrigin) == cs[2].value;
    } else if Present(cs[3]) {
      assert FirstPresent(cs, DefaultOrigin) == cs[3].value;
    } else {
      assert FirstPresent(cs, DefaultOrigin) == DefaultOrigin;
    }
  }

  /** The success and cancel redirect URLs are the base URL followed by fixed paths. */
  lemma RedirectUrls(body: Body, env: Env, origin: Option<string>, stripe: StripeOutcome)
    requires Post(Some(body), env, origin, stripe).1.Some?
    ensures var req := Post(Some(body), env, origin, stripe).1.value;
            && req.successUrl == BaseUrl(env, origin) + "/success?session_id={CHECKOUT_SESSION_ID}"
            && req.cancelUrl == BaseUrl(env, origin) + "/pricing"
  {
  }
}
