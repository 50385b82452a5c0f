/**
 * lib/subscription.ts: validity with a one-day grace period, plan
 * resolution, the minutes still available, and the find-or-create of the
 * subscription row that every reader except `checkSubscription` performs.
 * The session's user id and the clock are parameters.
 */
module Subscription {
  import opened Wrappers
  import opened Plans
  import opened Store

  /** `DAY_IN_MS`. */
  const DayMs: int := 86_400_000

  /** `if (!userId) userId = auth().userId`: the given id when it is truthy, otherwise the session's. */
  function ResolveUser(given: Option<string>, authed: Option<string>): Option<string> {
    if Present(given) then given else authed
  }

  /**
   * `periodEnd?.getTime()! + DAY_IN_MS > now`.  Without a period end the sum
   * is `NaN`, and a comparison with `NaN` is false.
   */
  predicate WithinGrace(periodEndMs: Option<int>, now: int) {
    match periodEndMs
    case None => false
    case Some(end) => end + DayMs > now
  }

  /** A subscription stays valid for exactly one day after its period end, and never without one. */
  lemma GraceIsOneDay(end: int, now: int)
    ensures WithinGrace(Some(end), now) <==> now < end + DayMs
    ensures WithinGrace(Some(end), end + DayMs - 1) && !WithinGrace(Some(end), end + DayMs)
    ensures !WithinGrace(None, now)
  {
  }

  /**
   * `checkSubscription`: only the session's user is consulted, the row is
   * read but never created, and the answer is whether it carries a price
   * id and is still within the grace period.
   */
  function CheckSubscription(authed: Option<string>, subs: map<string, SubscriptionRecord>, now: int): (valid: bool)
    ensures valid <==>
      && Present(authed) && authed.value in subs
      && Present(subs[authed.value].stripePriceId)
      && subs[authed.value].periodEndMs.Some?
      && now < subs[authed.value].periodEndMs.value + DayMs
  {
    if !Present(authed) then false
    else match FindUnique(subs, authed.value)
      case None => false
      case Some(rec) => Present(rec.stripePriceId) && WithinGrace(rec.periodEndMs, now)
  }

  /** The row `getUserSubscription` creates for a user without one: the FREE minute limit, nothing used. */
  function NewSubscription(userId: string): SubscriptionRecord {
    SubscriptionRecord(userId, None, None, 0, MinutesLimit(Free))
  }

  /** The subscription table after `getUserSubscription` for `userId`. */
  function FindOrCreate(subs: map<string, SubscriptionRecord>, userId: string): (r: map<string, SubscriptionRecord>)
    ensures r.Keys == subs.Keys + {userId}
    ensures forall k :: k in subs ==> r[k] == subs[k]
    ensures userId !in subs ==> r[userId] == NewSubscription(userId) && r[userId].minutesLimit == 5
  {
    if userId in subs then subs else subs[userId := NewSubscription(userId)]
  }

  /** A second lookup creates nothing and finds the row the first one returned. */
  lemma FindOrCreateIdempotent(subs: map<string, SubscriptionRecord>, userId: string)
    ensures FindOrCreate(FindOrCreate(subs, userId), userId) == FindOrCreate(subs, userId)
  {
  }

  /**
   * The plan of a user's row in `getUserPlan`: FREE without a price id or
   * past the grace period; otherwise the PRO id, checked first, gives PRO,
   * the CREATOR id gives CREATOR, and any other id FREE.
   */
  function UserPlanOf(rec: SubscriptionRecord, now: int, env: PriceIds): (p: PlanId)
    ensures p != Free ==> Present(rec.stripePriceId) && WithinGrace(rec.periodEndMs, now)
    ensures p == Pro <==> Present(rec.stripePriceId) && WithinGrace(rec.periodEndMs, now) && SameId(rec.stripePriceId.value, env.pro)
    ensures p == Creator <==>
      && Present(rec.stripePriceId) && WithinGrace(rec.periodEndMs, now)
      && !SameId(rec.stripePriceId.value, env.pro) && SameId(rec.stripePriceId.value, env.creator)
  {
    if !Present(rec.stripePriceId) then Free
    else if !WithinGrace(rec.periodEndMs, now) then Free
    else if SameId(rec.stripePriceId.value, env.pro) then Pro
    else if SameId(rec.stripePriceId.value, env.creator) then Creator
    else Free
  }

  /**
   * Within the grace period `getUserPlan` agrees with `getPlanFromStripeId`
   * unless both environment ids are the same: then one checks PRO first
   * and the other CREATOR first.
   */
  lemma UserPlanMatchesPriceTable(rec: SubscriptionRecord, now: int, env: PriceIds)
    requires Present(rec.stripePriceId) && WithinGrace(rec.periodEndMs, now)
    ensures !(SameId(rec.stripePriceId.value, env.pro) && SameId(rec.stripePriceId.value, env.creator))
      ==> UserPlanOf(rec, now, env) == PlanFromStripeId(rec.stripePriceId, env)
    ensures SameId(rec.stripePriceId.value, env.pro) && SameId(rec.stripePriceId.value, env.creator)
      ==> UserPlanOf(rec, now, env) == Pro && PlanFromStripeId(rec.stripePriceId, env) == Creator
  {
  }

  /** A freshly created row is on the FREE plan with all five minutes available. */
  lemma NewSubscriptionIsFree(userId: string, now: int, env: PriceIds)
    ensures UserPlanOf(NewSubscription(userId), now, env) == Free
    ensures RemainingMinutes(NewSubscription(userId).minutesUsed, Free) == 5
  {
  }

  /** `hasAvailableMinutes` for a user's row: minutes used below the limit of the resolved plan. */
  predicate HasAvailable(rec: SubscriptionRecord, now: int, env: PriceIds) {
    rec.minutesUsed < MinutesLimit(UserPlanOf(rec, now, env))
  }

  /** `getRemainingMinutes` for a user's row: the plan's limit less the minutes used, never negative. */
  function RemainingFor(rec: SubscriptionRecord, now: int, env: PriceIds): int {
    RemainingMinutes(rec.minutesUsed, UserPlanOf(rec, now, env))
  }

  /**
   * Minutes are available exactly when some remain, and neither answer
   * looks at the row's own stored `minutesLimit`, only at the plan table.
   */
  lemma AvailableIffRemaining(rec: SubscriptionRecord, limit: int, now: int, env: PriceIds)
    ensures HasAvailable(rec, now, env) <==> RemainingFor(rec, now, env) > 0
    ensures HasAvailable(rec.(minutesLimit := limit), now, env) == HasAvailable(rec, now, env)
    ensures RemainingFor(rec.(minutesLimit := limit), now, env) == RemainingFor(rec, now, env)
  {
  }

  /** `getUserSubscription`: nothing without a user, otherwise the user's row, created if absent. */
  method GetUserSubscription(db: Database, given: Option<string>, authed: Option<string>)
    returns (rec: Option<SubscriptionRecord>)
    modifies db`subscriptions
    ensures var u := ResolveUser(given, authed);
      && (!Present(u) ==> rec == None && db.subscriptions == old(db.subscriptions))
      && (Present(u) ==>
            db.subscriptions == FindOrCreate(old(db.subscriptions), u.value)
            && rec == Some(db.subscriptions[u.value]))
  {
    var userId := ResolveUser(given, authed);
    if !Present(userId) {
      return None;
    }
    var found := FindUnique(db.subscriptions, userId.value);
    if found.None? {
      var created := NewSubscription(userId.value);
      db.subscriptions := db.subscriptions[userId.value := created];
      found := Some(created);
    }
    rec := found;
  }

  /** `getUserPlan`: FREE without a user; otherwise the plan of the (found or created) row. */
  method GetUserPlan(db: Database, given: Option<string>, authed: Option<string>, now: int, env: PriceIds)
    returns (plan: PlanId)
    modifies db`subscriptions
    ensures var u := ResolveUser(given, authed);
      && (!Present(u) ==> plan == Free && db.subscriptions == old(db.subscriptions))
      && (Present(u) ==>
            db.subscriptions == FindOrCreate(old(db.subscriptions), u.value)
            && plan == UserPlanOf(db.subscriptions[u.value], now, env))
  {
    var userId := ResolveUser(given, authed);
    if !Present(userId) {
      return Free;
    }
    var rec := GetUserSubscription(db, userId, authed);
    plan := UserPlanOf(rec.value, now, env);
  }

  /** `hasAvailableMinutes`: false without a user. */
  method HasAvailableMinutes(db: Database, given: Option<string>, authed: Option<string>, now: int, env: PriceIds)
    returns (available: bool)
    modifies db`subscriptions
    ensures var u := ResolveUser(given, authed);
      && (!Present(u) ==> !available && db.subscriptions == old(db.subscriptions))
      && (Present(u) ==>
            db.subscriptions == FindOrCreate(old(db.subscriptions), u.value)
            && available == HasAvailable(db.subscriptions[u.value], now, env))
  {
    var userId := ResolveUser(given, authed);
    if !Present(userId) {
      return false;
    }
    var rec := GetUserSubscription(db, userId, authed);
    FindOrCreateIdempotent(old(db.subscriptions), userId.value);
    var plan := GetUserPlan(db, userId, authed, now, env);
    available := rec.value.minutesUsed < MinutesLimit(plan);
  }

  /** `getRemainingMinutes`: 0 without a user. */
  method GetRemainingMinutes(db: Database, given: Option<string>, authed: Option<string>, now: int, env: PriceIds)
    returns (remaining: int)
    modifies db`subscriptions
    ensures remaining >= 0
    ensures var u := ResolveUser(given, authed);
      && (!Present(u) ==> remaining == 0 && db.subscriptions == old(db.subscriptions))
      && (Present(u) ==>
            db.subscriptions == FindOrCreate(old(db.subscriptions), u.value)
            && remaining == RemainingFor(db.subscriptions[u.value], now, env))
  {
    var userId := ResolveUser(given, authed);
    if !Present(userId) {
      return 0;
    }
    var rec := GetUserSubscription(db, userId, authed);
    FindOrCreateIdempotent(old(db.subscriptions), userId.value);
    var plan := GetUserPlan(db, userId, authed, now, env);
    var limit := MinutesLimit(plan);
    remaining := if limit - rec.value.minutesUsed > 0 then limit - rec.value.minutesUsed else 0;
  }
}
