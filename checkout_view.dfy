/** `create_checkout_session`: reads the chosen plan and the minutes,
    computes the charge, asks Stripe for an embedded checkout session and
    records a pending payment for it. Stripe's answer and the process
    environment are inputs. */
module CheckoutView {
  import opened Wrappers
  import opened Text
  import opened PaymentRecords

  /** The environment variables the view reads. */
  datatype Env = Env(frontendUrl: Option<string>, monthlyPriceId: Option<string>, yearlyPriceId: Option<string>)

  /** What `stripe.checkout.Session.create` does: it creates a session, or raises with a message. */
  datatype StripeResult = Created(sessionId: string, clientSecret: Option<string>) | Raised(message: string)

  /** The session the view asks Stripe for: a one-time payment with an
      inline price in cents, or a subscription to a configured price. */
  datatype SessionRequest =
    | OneTimeSession(email: string, productName: string, unitAmount: int, returnUrl: string)
    | SubscriptionSession(email: string, priceId: Option<string>, returnUrl: string)

  /** The HTTP answer: 200 with the client secret, 400 or 500 with a message. */
  datatype Response = Ok(clientSecret: Option<string>) | BadRequest(error: string) | ServerError(error: string)

  /** The answer, the session request sent to Stripe, and the record inserted. */
  datatype Outcome = Outcome(response: Response, session: Option<SessionRequest>, created: Option<Payment>)

  const ReturnPath: string := "/return?session_id={CHECKOUT_SESSION_ID}"

  /** Python's message for `None + str`, raised when `FRONTEND_URL` is unset. */
  const NoneConcatError: string := "unsupported operand type(s) for +: 'NoneType' and 'str'"

  /** `plan.get("title", "").lower()`. */
  function PlanType(title: Option<string>): (t: string)
    ensures title.None? ==> t == ""
    ensures title.Some? ==> |t| == |title.value| && forall k :: 0 <= k < |t| ==> t[k] == LowerChar(title.value[k])
  {
    ToLower(title.GetOr(""))
  }

  /** The pay-as-you-go charge in dollars: one per minute, at least five. */
  function PayAsYouGoDollars(minutes: int): (d: int)
    ensures d >= 5 && d >= minutes
    ensures d == 5 || d == minutes
  {
    if minutes > 5 then minutes else 5
  }

  /** The subscription amounts recorded for the two plans, in dollars. */
  function SubscriptionDollars(planType: string): int {
    if planType == "monthly" then 49 else 500
  }

  /** The view, from the request's `plan.title` and `minutes` (absent
      minutes count as 0) to its answer, the session it requests and the
      record it creates. */
  function Checkout(user: int, email: string, title: Option<string>, minutes: Option<int>, env: Env, stripe: StripeResult)
    : (o: Outcome)
    // exactly one record per successful call, created after the session exists
    ensures o.response.Ok? <==> o.created.Some?
    ensures o.created.Some? ==> o.session.Some? && stripe.Created? && o.created.value == NewPayment(user, o.created.value.plan, o.created.value.amount, stripe.sessionId)
    ensures o.response.Ok? ==> o.response.clientSecret == stripe.clientSecret
    // pay as you go
    ensures PlanType(title) == "pay-as-you-go" && env.frontendUrl.Some? ==>
      o.session == Some(OneTimeSession(email, "Pay-as-you-go Upload", 100 * PayAsYouGoDollars(minutes.GetOr(0)), env.frontendUrl.value + ReturnPath))
    ensures PlanType(title) == "pay-as-you-go" && o.created.Some? ==>
      o.created.value.plan == "pay_per_minute" && o.created.value.amount == PayAsYouGoDollars(minutes.GetOr(0))
    // subscriptions
    ensures PlanType(title) in {"monthly", "yearly"} && env.frontendUrl.Some? ==>
      o.session == Some(SubscriptionSession(email, if PlanType(title) == "monthly" then env.monthlyPriceId else env.yearlyPriceId,
                                            env.frontendUrl.value + ReturnPath))
    ensures PlanType(title) in {"monthly", "yearly"} && o.created.Some? ==>
      o.created.value.plan == PlanType(title) && o.created.value.amount == (if PlanType(title) == "monthly" then 49 else 500)
    // errors
    ensures PlanType(title) !in {"pay-as-you-go", "monthly", "yearly"} ==>
      o == Outcome(BadRequest("Invalid plan type: " + PlanType(title)), None, None)
    ensures PlanType(title) in {"pay-as-you-go", "monthly", "yearly"} ==>
      && (env.frontendUrl.None? ==> o == Outcome(ServerError(NoneConcatError), None, None))
      && (env.frontendUrl.Some? && stripe.Raised? ==> o.response == ServerError(stripe.message) && o.created.None?)
      && (env.frontendUrl.Some? && stripe.Created? ==> o.response.Ok?)
  {
    var planType := PlanType(title);
    if planType != "pay-as-you-go" && planType != "monthly" && planType != "yearly" then
      Outcome(BadRequest("Invalid plan type: " + planType), None, None)
    else if env.frontendUrl.None? then
      Outcome(ServerError(NoneConcatError), None, None)
    else
      var returnUrl := env.frontendUrl.value + ReturnPath;
      var payAsYouGo := planType == "pay-as-you-go";
      var plan := if payAsYouGo then "pay_per_minute" else planType;
      var amount := if payAsYouGo then PayAsYouGoDollars(minutes.GetOr(0)) else SubscriptionDollars(planType);
      var request :=
        if payAsYouGo then OneTimeSession(email, "Pay-as-you-go Upload", 100 * amount, returnUrl)
        else SubscriptionSession(email, if planType == "monthly" then env.monthlyPriceId else env.yearlyPriceId, returnUrl);
      match stripe
      case Raised(message) => Outcome(ServerError(message), Some(request), None)
      case Created(id, secret) => Outcome(Ok(secret), Some(request), Some(NewPayment(user, plan, amount, id)))
  }

  /** The plan title is matched ignoring letter case. */
  lemma PlanTitleIgnoresCase(user: int, email: string, title: string, minutes: Option<int>, env: Env, stripe: StripeResult)
    ensures Checkout(user, email, Some(title), minutes, env, stripe) == Checkout(user, email, Some(ToLower(title)), minutes, env, stripe)
  {
    ToLowerIdempotent(title);
  }

  /** With no `minutes` the pay-as-you-go charge is the $5 minimum, 500 cents. */
  lemma NoMinutesChargesMinimum(user: int, email: string, env: Env, id: string, secret: Option<string>)
    requires env.frontendUrl.Some?
    ensures var o := Checkout(user, email, Some("Pay-as-you-go"), None, env, Created(id, secret));
      && o.session.Some? && o.session.value.OneTimeSession? && o.session.value.unitAmount == 500
      && o.created == Some(Payment(user, "pay_per_minute", 5, Some(id), "pending"))
  {
    var t := "Pay-as-you-go";
    var low := ToLower(t);
    assert low == "pay-as-you-go" by {
      assert low[0] == 'p';
    }
  }

  /** The view with the table: the record, if any, is inserted into `Payment.objects`. */
  method CreateCheckoutSession(table: PaymentTable, user: int, email: string, title: Option<string>, minutes: Option<int>,
                               env: Env, stripe: StripeResult) returns (o: Outcome)
    modifies table
    ensures o == Checkout(user, email, title, minutes, env, stripe)
    ensures table.rows == old(table.rows) + (if o.created.Some? then [o.created.value] else [])
  {
    o := Checkout(user, email, title, minutes, env, stripe);
    if o.created.Some? {
      table.Create(o.created.value);
    }
  }
}
