/** Subscription tiers and the rank-based access check of lib/access.ts. */
module Access {

  /** Every tier a user can hold; `Owner` is the operator's own account. */
  datatype Tier = Free | Pro | Ultimate | Owner

  /** The tiers a feature can require, and a subscription can grant. */
  type PlanTier = t: Tier | t != Owner witness Free

  /** Position in the hierarchy free < pro < ultimate. */
  function Rank(t: PlanTier): nat
  {
    if t == Free then 0 else if t == Pro then 1 else 2
  }

  /** Whether a user at `user` may use a feature that requires `required`. */
  predicate HasAccess(user: Tier, required: PlanTier)
    // The hierarchy, listed: free features are open to all, and each tier reaches its own level.
    ensures HasAccess(user, required) <==>
              user == Owner || user == Ultimate || required == Free || user == required
  {
    if user == Owner then true else Rank(user) >= Rank(required)
  }

  /** What the hierarchy grants each tier, stated tier by tier. */
  lemma HasAccessCases(user: Tier, required: PlanTier)
    ensures user == Owner ==> HasAccess(user, required)
    ensures user == Ultimate ==> HasAccess(user, required)
    ensures user == Pro ==> (HasAccess(user, required) <==> required != Ultimate)
    ensures user == Free ==> (HasAccess(user, required) <==> required == Free)
  {
  }

  /** Every subscription tier has access to its own level. */
  lemma HasAccessReflexive(t: PlanTier)
    ensures HasAccess(t, t)
  {
  }

  /** Raising the user's tier never removes access. */
  lemma HasAccessMonotone(user: PlanTier, higher: Tier, required: PlanTier)
    requires HasAccess(user, required)
    requires higher == Owner || Rank(higher) >= Rank(user)
    ensures HasAccess(higher, required)
  {
  }

  /** Access to a level implies access to every level below it. */
  lemma HasAccessDownwardClosed(user: Tier, required: PlanTier, lower: PlanTier)
    requires HasAccess(user, required)
    requires Rank(lower) <= Rank(required)
    ensures HasAccess(user, lower)
  {
  }
}
