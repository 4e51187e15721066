/**
 * Subscription plans and feature gating. A subscriber's tier is the
 * `plan` of their subscription, `free` when there is none; gated features
 * and daily limits are looked up in fixed tables by tier.
 */
module Subscription {
  import opened Common

  const Free := "free"
  const Pro := "pro"
  const Elite := "elite"

  /** `subscription?.plan || 'free'`; `None` is a missing subscription or plan. */
  function Tier(plan: Option<string>): (tier: string)
    ensures tier != ""
    ensures plan.None? || plan == Some("") ==> tier == Free
    ensures plan.Some? && plan.value != "" ==> tier == plan.value
  {
    if plan.Some? && plan.value != "" then plan.value else Free
  }

  /** Which tiers unlock each gated feature. */
  const FeatureTiers: map<string, seq<string>> := map[
    "unlimited_swipes" := [Pro, Elite],
    "unlimited_ai" := [Pro, Elite],
    "unlimited_scans" := [Pro, Elite],
    "trainer_chat" := [Pro, Elite],
    "profile_boost" := [Elite],
    "advanced_filters" := [Elite]
  ]

  /** `features[feature]?.includes(tier) || false`. */
  function CanAccessFeature(plan: Option<string>, feature: string): bool {
    feature in FeatureTiers && Tier(plan) in FeatureTiers[feature]
  }

  /** Daily allowances by tier; -1 stands for unlimited. */
  const Limits: map<string, map<string, int>> := map[
    Free := map["swipes_per_day" := 10, "ai_chats_per_day" := 5, "scans_per_day" := 3],
    Pro := map["swipes_per_day" := -1, "ai_chats_per_day" := -1, "scans_per_day" := -1],
    Elite := map["swipes_per_day" := -1, "ai_chats_per_day" := -1, "scans_per_day" := -1]
  ]

  /** `limits[tier]?.[feature] || 0`. */
  function GetFeatureLimit(plan: Option<string>, feature: string): int {
    var tier := Tier(plan);
    if tier in Limits && feature in Limits[tier] then Limits[tier][feature] else 0
  }

  /** The four features every paid tier unlocks, and the two only Elite does. */
  predicate PaidFeature(feature: string) {
    feature == "unlimited_swipes" || feature == "unlimited_ai" || feature == "unlimited_scans" || feature == "trainer_chat"
  }

  predicate EliteFeature(feature: string) {
    feature == "profile_boost" || feature == "advanced_filters"
  }

  /**
   * Access, tier by tier: Pro opens the four paid features, Elite those and
   * its own two, and every other tier (Free, a missing plan, an unknown
   * plan) opens nothing; an unknown feature is closed to everyone.
   */
  lemma AccessByTier(plan: Option<string>, feature: string)
    ensures CanAccessFeature(plan, feature) <==>
      (Tier(plan) == "pro" && PaidFeature(feature))
      || (Tier(plan) == "elite" && (PaidFeature(feature) || EliteFeature(feature)))
  {
  }

  /** A missing or empty plan is the free tier, which has no gated feature. */
  lemma FreeTierLocked(plan: Option<string>, feature: string)
    requires plan.None? || plan == Some("") || plan == Some("free")
    ensures !CanAccessFeature(plan, feature)
  {
  }

  /** Tiers are ordered: whatever Free opens Pro opens, and whatever Pro opens Elite opens. */
  lemma AccessMonotone(feature: string)
    ensures CanAccessFeature(Some("free"), feature) ==> CanAccessFeature(Some("pro"), feature)
    ensures CanAccessFeature(Some("pro"), feature) ==> CanAccessFeature(Some("elite"), feature)
    ensures EliteFeature(feature) ==>
      CanAccessFeature(Some("elite"), feature) && !CanAccessFeature(Some("pro"), feature)
  {
  }

  /** Free allows 10 swipes, 5 AI chats and 3 scans a day; paid tiers are unlimited. */
  lemma DailyLimits(plan: Option<string>)
    ensures Tier(plan) == "free" ==>
      GetFeatureLimit(plan, "swipes_per_day") == 10
      && GetFeatureLimit(plan, "ai_chats_per_day") == 5
      && GetFeatureLimit(plan, "scans_per_day") == 3
    ensures Tier(plan) == "pro" || Tier(plan) == "elite" ==>
      GetFeatureLimit(plan, "swipes_per_day") == -1
      && GetFeatureLimit(plan, "ai_chats_per_day") == -1
      && GetFeatureLimit(plan, "scans_per_day") == -1
  {
  }

  predicate LimitedFeature(feature: string) {
    feature == "swipes_per_day" || feature == "ai_chats_per_day" || feature == "scans_per_day"
  }

  /** An unknown tier or an unknown feature has limit 0, which the app reads as "none". */
  lemma UnknownLimitIsZero(plan: Option<string>, feature: string)
    ensures GetFeatureLimit(plan, feature) != 0 <==>
      (Tier(plan) == "free" || Tier(plan) == "pro" || Tier(plan) == "elite") && LimitedFeature(feature)
  {
  }

  /**
   * The two tables agree: a daily limit is unlimited exactly when the
   * matching `unlimited_…` feature is open.
   */
  lemma LimitsMatchAccess(plan: Option<string>)
    ensures GetFeatureLimit(plan, "swipes_per_day") == -1 <==> CanAccessFeature(plan, "unlimited_swipes")
    ensures GetFeatureLimit(plan, "ai_chats_per_day") == -1 <==> CanAccessFeature(plan, "unlimited_ai")
    ensures GetFeatureLimit(plan, "scans_per_day") == -1 <==> CanAccessFeature(plan, "unlimited_scans")
  {
  }

  /** The Stripe price identifiers, read from the build environment. */
  datatype PriceIds = PriceIds(proMonthly: Option<string>, eliteMonthly: Option<string>)

  /** One entry of `PLANS`; `period` and `priceId` are `None` where absent or `null`. */
  datatype Plan = Plan(
    name: string,
    price: string,
    period: Option<string>,
    priceId: Option<string>,
    features: seq<string>,
    popular: bool)

  function Plans(ids: PriceIds): seq<Plan> {
    [
      Plan("Free", "£0", None, None,
        ["Limited swipes per day", "Basic matching", "Limited AI chats", "Basic calorie tracking"], false),
      Plan("Pro", "£6.99", Some("/month"), ids.proMonthly,
        ["Unlimited swipes", "Priority matching", "Unlimited AI chats", "Unlimited calorie scans", "Trainer chat access"], true),
      Plan("Elite", "£9.99", Some("/month"), ids.eliteMonthly,
        ["Everything in Pro", "Profile boost", "Advanced filters", "Exclusive partner discounts", "Priority support"], false)
    ]
  }

  /**
   * The catalogue: Free, Pro, Elite in that order, at £0, £6.99 and £9.99;
   * Free has no price identifier and no period; Pro and Elite are billed
   * per month under the price identifiers read from the build environment
   * (unset when the variables are); exactly one plan, Pro, is marked popular.
   */
  lemma PlanCatalogue(ids: PriceIds)
    ensures |Plans(ids)| == 3
    ensures Plans(ids)[0].name == "Free" && Plans(ids)[1].name == "Pro" && Plans(ids)[2].name == "Elite"
    ensures Plans(ids)[0].priceId.None? && Plans(ids)[0].period.None?
    ensures Plans(ids)[0].price == "£0" && Plans(ids)[1].price == "£6.99" && Plans(ids)[2].price == "£9.99"
    ensures Plans(ids)[1].priceId == ids.proMonthly && Plans(ids)[2].priceId == ids.eliteMonthly
    ensures Plans(ids)[1].period == Some("/month") && Plans(ids)[2].period == Some("/month")
    ensures forall k :: 0 <= k < 3 ==> (Plans(ids)[k].popular <==> k == 1)
  {
  }
}
