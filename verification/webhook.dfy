/**
 Entitlement sync of app/api/stripe/webhook/route.ts: a verified payment
 event rewrites fields of the matching rows of the `app_users` table.
 */
module Webhook {
  import opened Options
  import opened Access

  type Timestamp = int
  type UserId = string

  /**
   One `app_users` row. `others` stands for every column no handler writes
   (id, password hash, creation time, ...), by column name.
   */
  datatype UserRow = UserRow(
    email: string,
    stripeCustomerId: Option<string>,
    subscriptionTier: Option<PlanTier>,
    subscriptionStatus: Option<string>,
    subscriptionId: Option<string>,
    updatedAt: Option<Timestamp>,
    others: map<string, string>)

  type Users = map<UserId, UserRow>

  /** The fields of a checkout session the handler reads. */
  datatype CheckoutSession = CheckoutSession(customerEmail: Option<string>, customer: Option<string>)

  /** The fields of a subscription the handlers read; `firstPriceId` is `items.data[0]?.price.id`. */
  datatype Subscription = Subscription(id: string, customer: string, status: string, firstPriceId: Option<string>)

  /** The event types the `switch` of `POST` has a case for. */
  const HandledTypes: set<string> :=
    {"checkout.session.completed", "customer.subscription.created",
     "customer.subscription.updated", "customer.subscription.deleted"}

  /** Any other event type. */
  type OtherType = t: string | t !in HandledTypes witness ""

  /** A verified event, by its `type`. */
  datatype Event =
    | CheckoutCompleted(session: CheckoutSession)
    | SubscriptionCreated(sub: Subscription)
    | SubscriptionUpdated(sub: Subscription)
    | SubscriptionDeleted(sub: Subscription)
    | Unhandled(eventType: OtherType)

  /** The event's `type` string. */
  function TypeName(e: Event): (t: string)
    ensures t in HandledTypes <==> !e.Unhandled?
    ensures e.CheckoutCompleted? <==> t == "checkout.session.completed"
    ensures e.SubscriptionCreated? <==> t == "customer.subscription.created"
    ensures e.SubscriptionUpdated? <==> t == "customer.subscription.updated"
    ensures e.SubscriptionDeleted? <==> t == "customer.subscription.deleted"
    ensures e.Unhandled? ==> t == e.eventType
  {
    match e
    case CheckoutCompleted(_) => "checkout.session.completed"
    case SubscriptionCreated(_) => "customer.subscription.created"
    case SubscriptionUpdated(_) => "customer.subscription.updated"
    case SubscriptionDeleted(_) => "customer.subscription.deleted"
    case Unhandled(t) => t
  }

  /** Distinct kinds of event carry distinct type strings, so the `switch` picks exactly one case. */
  lemma TypeNameDistinguishesKinds(e1: Event, e2: Event)
    requires TypeName(e1) == TypeName(e2)
    ensures e1.CheckoutCompleted? == e2.CheckoutCompleted?
    ensures e1.SubscriptionCreated? == e2.SubscriptionCreated?
    ensures e1.SubscriptionUpdated? == e2.SubscriptionUpdated?
    ensures e1.SubscriptionDeleted? == e2.SubscriptionDeleted?
    ensures e1.Unhandled? == e2.Unhandled?
  {
  }

  /** `STRIPE_PRICE_ID` and `STRIPE_ULTIMATE_PRICE_ID`, either possibly unset. */
  datatype Prices = Prices(pro: Option<string>, ultimate: Option<string>)

  datatype Reply = MissingSignature | InvalidSignature | Received

  function Status(r: Reply): int
  {
    if r.Received? then 200 else 400
  }

  /**
   The tier a subscription's price grants. The two comparisons are strict
   equalities on possibly absent values, the second overriding the first.
   */
  function ResolveTier(priceId: Option<string>, prices: Prices): (t: PlanTier)
    ensures t == Ultimate <==> priceId == prices.ultimate
    ensures t == Pro <==> priceId == prices.pro && priceId != prices.ultimate
    ensures t == Free <==> priceId != prices.pro && priceId != prices.ultimate
  {
    if priceId == prices.ultimate then Ultimate
    else if priceId == prices.pro then Pro
    else Free
  }

  /**
   Strict equality treats two absent values as equal: a subscription without
   a price matches whichever price variable is unset.
   */
  lemma AbsentPriceMatchesUnsetVariable(configured: string)
    ensures ResolveTier(None, Prices(None, Some(configured))) == Pro
    ensures ResolveTier(None, Prices(Some(configured), None)) == Ultimate
    ensures ResolveTier(None, Prices(None, None)) == Ultimate
  {
  }

  /** `.eq("stripe_customer_id", c)`: a null column never matches. */
  predicate CustomerMatches(row: UserRow, customer: string)
  {
    row.stripeCustomerId == Some(customer)
  }

  /** The rows a completed checkout writes to: both fields set, and the row's email equal to the session's. */
  predicate CheckoutTargets(row: UserRow, s: CheckoutSession)
  {
    Present(s.customerEmail) && Present(s.customer) && row.email == s.customerEmail.value
  }

  /** `handleCheckoutCompleted`: record the customer id on the rows with the session's email. */
  function ApplyCheckoutCompleted(users: Users, s: CheckoutSession, now: Timestamp): (users': Users)
    ensures users'.Keys == users.Keys
    ensures !Present(s.customerEmail) || !Present(s.customer) ==> users' == users
    ensures forall id :: id in users ==>
              var row, row' := users[id], users'[id];
              && row' == row.(stripeCustomerId := row'.stripeCustomerId, updatedAt := row'.updatedAt)
              && (CheckoutTargets(row, s) ==> row'.stripeCustomerId == s.customer && row'.updatedAt == Some(now))
              && (!CheckoutTargets(row, s) ==> row' == row)
  {
    if !Present(s.customerEmail) || !Present(s.customer) then users
    else
      map id | id in users ::
        if users[id].email == s.customerEmail.value
        then users[id].(stripeCustomerId := s.customer, updatedAt := Some(now))
        else users[id]
  }

  /** `handleSubscriptionUpdated`: mirror tier, status and id onto the customer's rows. */
  function ApplySubscriptionUpdated(users: Users, sub: Subscription, prices: Prices, now: Timestamp): (users': Users)
    ensures users'.Keys == users.Keys
    ensures forall id :: id in users ==>
              var row, row' := users[id], users'[id];
              && row' == row.(subscriptionTier := row'.subscriptionTier, subscriptionStatus := row'.subscriptionStatus,
                              subscriptionId := row'.subscriptionId, updatedAt := row'.updatedAt)
              && (CustomerMatches(row, sub.customer) ==>
                    && row'.subscriptionTier == Some(ResolveTier(sub.firstPriceId, prices))
                    && row'.subscriptionStatus == Some(sub.status)
                    && row'.subscriptionId == Some(sub.id)
                    && row'.updatedAt == Some(now))
              && (!CustomerMatches(row, sub.customer) ==> row' == row)
  {
    var tier := ResolveTier(sub.firstPriceId, prices);
    map id | id in users ::
      if CustomerMatches(users[id], sub.customer)
      then users[id].(subscriptionTier := Some(tier), subscriptionStatus := Some(sub.status),
                      subscriptionId := Some(sub.id), updatedAt := Some(now))
      else users[id]
  }

  /** `handleSubscriptionDeleted`: put the customer's rows back on the free tier. */
  function ApplySubscriptionDeleted(users: Users, sub: Subscription, now: Timestamp): (users': Users)
    ensures users'.Keys == users.Keys
    ensures forall id :: id in users ==>
              var row, row' := users[id], users'[id];
              && row' == row.(subscriptionTier := row'.subscriptionTier, subscriptionStatus := row'.subscriptionStatus,
                              subscriptionId := row'.subscriptionId, updatedAt := row'.updatedAt)
              && (CustomerMatches(row, sub.customer) ==>
                    && row'.subscriptionTier == Some(Free)
                    && row'.subscriptionStatus == Some("canceled")
                    && row'.subscriptionId == None
                    && row'.updatedAt == Some(now))
              && (!CustomerMatches(row, sub.customer) ==> row' == row)
  {
    map id | id in users ::
      if CustomerMatches(users[id], sub.customer)
      then users[id].(subscriptionTier := Some(Free), subscriptionStatus := Some("canceled"),
                      subscriptionId := None, updatedAt := Some(now))
      else users[id]
  }

  /** The `switch (event.type)` of `POST`. */
  function Apply(users: Users, e: Event, prices: Prices, now: Timestamp): (r: Users)
    ensures e.CheckoutCompleted? ==> r == ApplyCheckoutCompleted(users, e.session, now)
    ensures e.SubscriptionCreated? || e.SubscriptionUpdated? ==> r == ApplySubscriptionUpdated(users, e.sub, prices, now)
    ensures e.SubscriptionDeleted? ==> r == ApplySubscriptionDeleted(users, e.sub, now)
    ensures e.Unhandled? ==> r == users
    ensures r.Keys == users.Keys
  {
    match e
    case CheckoutCompleted(s) => ApplyCheckoutCompleted(users, s, now)
    case SubscriptionCreated(sub) => ApplySubscriptionUpdated(users, sub, prices, now)
    case SubscriptionUpdated(sub) => ApplySubscriptionUpdated(users, sub, prices, now)
    case SubscriptionDeleted(sub) => ApplySubscriptionDeleted(users, sub, now)
    case Unhandled(_) => users
  }

  /**
   `POST /api/stripe/webhook`. `signature` is the `stripe-signature` header;
   `verified` is what signature verification yields: the event, or nothing
   when it throws.
   */
  function Post(signature: Option<string>, verified: Option<Event>, prices: Prices,
                now: Timestamp, users: Users): (out: (Reply, Users))
    ensures !Present(signature) ==> out == (MissingSignature, users)
    ensures Present(signature) && verified.None? ==> out == (InvalidSignature, users)
    ensures out.0 != Received ==> out.1 == users
    ensures Status(out.0) == 400 <==> !Present(signature) || verified.None?
    ensures Present(signature) && verified.Some? ==> out == (Received, Apply(users, verified.value, prices, now))
    ensures Present(signature) && verified.Some? && verified.value.Unhandled? ==> out == (Received, users)
    ensures out.1.Keys == users.Keys
  {
    if !Present(signature) then (MissingSignature, users)
    else if verified.None? then (InvalidSignature, users)
    else (Received, Apply(users, verified.value, prices, now))
  }

  /** A row with its update time forgotten: what replaying an event must preserve. */
  function Untimed(users: Users): Users
  {
    map id | id in users :: users[id].(updatedAt := None)
  }

  /** Replaying an event is the same as applying it once at the later time. */
  lemma ApplyTwice(users: Users, e: Event, prices: Prices, t1: Timestamp, t2: Timestamp)
    ensures Apply(Apply(users, e, prices, t1), e, prices, t2) == Apply(users, e, prices, t2)
  {
  }

  /** Replay idempotence: applying the same event twice equals applying it once, apart from update times. */
  lemma ReplayIdempotent(users: Users, e: Event, prices: Prices, t1: Timestamp, t2: Timestamp)
    ensures Untimed(Apply(Apply(users, e, prices, t1), e, prices, t2)) == Untimed(Apply(users, e, prices, t1))
  {
  }

  /** Redelivering a verified event through `POST` leaves the table as one delivery did, modulo update times. */
  lemma PostReplayIdempotent(signature: Option<string>, e: Event, prices: Prices,
                             t1: Timestamp, t2: Timestamp, users: Users)
    ensures var first := Post(signature, Some(e), prices, t1, users).1;
            Untimed(Post(signature, Some(e), prices, t2, first).1) == Untimed(first)
  {
  }

  /** Checkout completion never changes anyone's tier. */
  lemma CheckoutKeepsTier(users: Users, s: CheckoutSession, prices: Prices, now: Timestamp, id: UserId)
    requires id in users
    ensures Apply(users, CheckoutCompleted(s), prices, now)[id].subscriptionTier == users[id].subscriptionTier
  {
  }
}
