/**
 * The plan table of constants/subscription-plans.ts and the minute
 * arithmetic on it.  The Stripe price ids of the paid plans come from the
 * environment, so they are a parameter here, each possibly unset.
 */
module Plans {
  import opened Wrappers

  datatype PlanId = Free | Creator | Pro

  /** Position of a plan in the tier order FREE < CREATOR < PRO. */
  function Tier(p: PlanId): nat {
    match p
    case Free => 0
    case Creator => 1
    case Pro => 2
  }

  /** The fields of a `PLANS` entry this model uses; lengths in seconds. */
  datatype Plan = Plan(name: string, price: Option<nat>, minutesLimit: nat, maxVideoLength: nat, storageDays: nat)

  /** `PLANS`. */
  function PlanOf(p: PlanId): Plan {
    match p
    case Free => Plan("Free", None, 5, 5 * 60, 7)
    case Creator => Plan("Creator", Some(29), 120, 30 * 60, 365)
    case Pro => Plan("Pro", Some(79), 300, 60 * 60, 365)
  }

  function MinutesLimit(p: PlanId): nat {
    PlanOf(p).minutesLimit
  }

  /** `DEFAULT_PLAN`. */
  const DefaultPlan: PlanId := Free

  /** The environment's `STRIPE_CREATOR_PLAN_ID` and `STRIPE_PRO_PLAN_ID`, either of which may be unset. */
  datatype PriceIds = PriceIds(creator: Option<string>, pro: Option<string>)

  /** A price id that is present and not the empty string, as JavaScript's truthiness has it. */
  predicate Present(id: Option<string>) {
    id.Some? && id.value != ""
  }

  /** `id === PLANS.X.stripePriceId`: false whenever the environment variable is unset. */
  predicate SameId(id: string, configured: Option<string>) {
    configured.Some? && configured.value == id
  }

  /**
   * `getPlanFromStripeId`: FREE for no id; the CREATOR id, checked first,
   * gives CREATOR; otherwise the PRO id gives PRO; anything else is FREE.
   */
  function PlanFromStripeId(id: Option<string>, env: PriceIds): (p: PlanId)
    ensures !Present(id) ==> p == Free
    ensures Present(id) && SameId(id.value, env.creator) ==> p == Creator
    ensures Present(id) && !SameId(id.value, env.creator) && SameId(id.value, env.pro) ==> p == Pro
    ensures p == Free <==> !Present(id) || (!SameId(id.value, env.creator) && !SameId(id.value, env.pro))
  {
    if !Present(id) then Free
    else if SameId(id.value, env.creator) then Creator
    else if SameId(id.value, env.pro) then Pro
    else Free
  }

  /** When both plans are configured with the same id, that id resolves to CREATOR, never PRO. */
  lemma CreatorCheckedFirst(id: string, env: PriceIds)
    requires id != "" && SameId(id, env.creator) && SameId(id, env.pro)
    ensures PlanFromStripeId(Some(id), env) == Creator
  {
  }

  /** The minute limits are 5, 120 and 300 and grow strictly with the tier; so do the other quotas. */
  lemma LimitsIncreaseWithTier(p: PlanId, q: PlanId)
    ensures MinutesLimit(Free) == 5 && MinutesLimit(Creator) == 120 && MinutesLimit(Pro) == 300
    ensures Tier(p) < Tier(q) ==> MinutesLimit(p) < MinutesLimit(q)
    ensures Tier(p) < Tier(q) ==> PlanOf(p).maxVideoLength < PlanOf(q).maxVideoLength
    ensures Tier(p) <= Tier(q) ==> PlanOf(p).storageDays <= PlanOf(q).storageDays
    ensures PlanOf(DefaultPlan) == PlanOf(Free)
  {
  }

  /** `getRemainingMinutes(used, plan)`: `max(limit - used, 0)`. */
  function RemainingMinutes(used: int, p: PlanId): (r: int)
    ensures r >= 0 && r >= MinutesLimit(p) - used
    ensures r == 0 || r == MinutesLimit(p) - used
    ensures r == 0 <==> used >= MinutesLimit(p)
    ensures used >= 0 ==> r <= MinutesLimit(p)
  {
    var remaining := MinutesLimit(p) - used;
    if remaining > 0 then remaining else 0
  }

  /** `getMinutesUsedPercentage(used, plan)`: `min(used / limit * 100, 100)`, over the reals. */
  function MinutesUsedPercentage(used: real, p: PlanId): (pct: real)
    ensures pct <= 100.0
    ensures pct == 100.0 <==> used >= MinutesLimit(p) as real
    ensures used < MinutesLimit(p) as real ==> pct * (MinutesLimit(p) as real) == used * 100.0
    ensures used >= 0.0 ==> pct >= 0.0
  {
    var limit := MinutesLimit(p) as real;
    var ratio := used / limit * 100.0;
    if ratio <= 100.0 then ratio else 100.0
  }
}
