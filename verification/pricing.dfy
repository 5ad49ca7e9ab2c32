/**
 The entitlement evaluator of config/pricing.ts: the plan index, lookups by
 tier id and by billing price id, the limits resolver with its default-limits
 fallback, the admission check, and the free/paid/highlighted selectors.

 The source reads one global `pricingConfig`; here every operation takes the
 configuration as a parameter, so the same definitions describe any plan list.
 Prices, limits and usage are TypeScript numbers and are modelled as `int`.
 */
module Pricing {
  import opened Wrappers
  import Seqs

  /** `PlanLimit`: limit key to ceiling; the value -1 means unlimited. */
  type Limits = map<string, int>

  const Unlimited: int := -1

  /**
   One subscription tier. `priceId` / `yearlyPriceId` are the optional billing
   price ids; `highlighted` is the optional flag with an absent flag read as false.
   */
  datatype Plan = Plan(
    id: string,
    name: string,
    monthly: int,
    priceId: Option<string>,
    yearlyPriceId: Option<string>,
    limits: Limits,
    highlighted: bool)

  datatype PricingConfig = PricingConfig(defaultLimits: Limits, plans: seq<Plan>)

  /** JavaScript's `!tier` for a `string | null` tier: null and "" are falsy. */
  predicate Falsy(tier: Option<string>) {
    tier == None || tier == Some("")
  }

  /** Some plan is declared with this id. */
  ghost predicate HasId(plans: seq<Plan>, id: string) {
    exists i :: 0 <= i < |plans| && plans[i].id == id
  }

  /** Position `i` holds the last plan declared with this id. */
  ghost predicate LastWithId(plans: seq<Plan>, i: int, id: string) {
    && 0 <= i < |plans|
    && plans[i].id == id
    && forall j :: i < j < |plans| ==> plans[j].id != id
  }

  /** Plan ids are pairwise distinct. */
  ghost predicate UniqueIds(plans: seq<Plan>) {
    forall i, j :: 0 <= i < j < |plans| ==> plans[i].id != plans[j].id
  }

  /** At most one position can hold the last plan with a given id. */
  lemma LastWithIdUnique(plans: seq<Plan>, i: int, j: int, id: string)
    requires LastWithId(plans, i, id) && LastWithId(plans, j, id)
    ensures i == j
  {
  }

  /**
   `planMap`: built by `Map.set(plan.id, plan)` over the plans in order, so
   a later plan with a repeated id replaces an earlier one.
   */
  function PlanIndex(plans: seq<Plan>): (m: map<string, Plan>)
  {
    if |plans| == 0 then map[]
    else
      var last := plans[|plans| - 1];
      PlanIndex(plans[..|plans| - 1])[last.id := last]
  }

  /** The index holds `id` exactly when it is declared, mapped to the last plan declared with it. */
  lemma {:induction false} PlanIndexAt(plans: seq<Plan>, id: string)
    ensures id in PlanIndex(plans) <==> HasId(plans, id)
    ensures id in PlanIndex(plans) ==> exists i :: LastWithId(plans, i, id) && PlanIndex(plans)[id] == plans[i]
  {
    if |plans| > 0 {
      var n := |plans| - 1;
      var init := plans[..n];
      var last := plans[n];
      var m := PlanIndex(plans);
      assert m == PlanIndex(init)[last.id := last];
      if id == last.id {
        assert LastWithId(plans, n, id);
      } else {
        PlanIndexAt(init, id);
        assert HasId(plans, id) ==> HasId(init, id) by {
          if HasId(plans, id) {
            var i :| 0 <= i < |plans| && plans[i].id == id;
            assert init[i].id == id;
          }
        }
        assert HasId(init, id) ==> HasId(plans, id);
        if id in m {
          var i :| LastWithId(init, i, id) && PlanIndex(init)[id] == init[i];
          assert LastWithId(plans, i, id);
        }
      }
    }
  }

  /** Every id of the index, at once. */
  lemma PlanIndexLastWins(plans: seq<Plan>)
    ensures forall id :: id in PlanIndex(plans) <==> HasId(plans, id)
    ensures forall id :: id in PlanIndex(plans) ==> exists i :: LastWithId(plans, i, id) && PlanIndex(plans)[id] == plans[i]
  {
    forall id {
      PlanIndexAt(plans, id);
    }
  }

  /** `planMap.get(id)`. */
  function Lookup(plans: seq<Plan>, id: string): (r: Option<Plan>)
    ensures r.None? <==> !HasId(plans, id)
    ensures r.Some? ==> exists i :: LastWithId(plans, i, id) && r.value == plans[i]
  {
    PlanIndexAt(plans, id);
    var m := PlanIndex(plans);
    if id in m then Some(m[id]) else None
  }

  /** With distinct ids, the index finds every declared plan under its own id. */
  lemma LookupUnique(plans: seq<Plan>, i: int)
    requires UniqueIds(plans)
    requires 0 <= i < |plans|
    ensures Lookup(plans, plans[i].id) == Some(plans[i])
  {
    var r := Lookup(plans, plans[i].id);
    var k :| LastWithId(plans, k, plans[i].id) && r.value == plans[k];
    assert k == i;
  }

  /**
   `getPlan`: the plan indexed under `tier`, otherwise the first declared plan.
   An unknown tier, and "" unless some plan has the id "", give `plans[0]`.
   */
  function GetPlan(cfg: PricingConfig, tier: string): (p: Plan)
    requires |cfg.plans| > 0
    ensures HasId(cfg.plans, tier) ==> exists i :: LastWithId(cfg.plans, i, tier) && p == cfg.plans[i]
    ensures !HasId(cfg.plans, tier) ==> p == cfg.plans[0]
  {
    match Lookup(cfg.plans, tier)
    case Some(p) => p
    case None => cfg.plans[0]
  }

  /** The plan bills under `priceId`, monthly or yearly. */
  predicate Sells(plan: Plan, priceId: string) {
    plan.priceId == Some(priceId) || plan.yearlyPriceId == Some(priceId)
  }

  /** No price id is declared by two different plans. */
  ghost predicate UniquePriceIds(plans: seq<Plan>) {
    forall i, j, q :: 0 <= i < |plans| && 0 <= j < |plans| && Sells(plans[i], q) && Sells(plans[j], q) ==> i == j
  }

  /**
   `getPlanByPriceId`: the id of the first plan, in declared order, whose
   monthly or yearly price id equals `priceId`; None (null) when none does.
   */
  function GetPlanByPriceId(cfg: PricingConfig, priceId: string): (r: Option<string>)
    ensures r.None? <==> forall i :: 0 <= i < |cfg.plans| ==> !Sells(cfg.plans[i], priceId)
    ensures r.Some? ==> exists i :: Seqs.IsFirst(cfg.plans, p => Sells(p, priceId), i) && r.value == cfg.plans[i].id
  {
    match Seqs.Find(cfg.plans, p => Sells(p, priceId))
    case Some(p) => Some(p.id)
    case None => None
  }

  /** Round trip: with unique price ids, a plan's own price id resolves back to its id. */
  lemma PriceIdRoundTrip(cfg: PricingConfig, i: int, priceId: string)
    requires UniquePriceIds(cfg.plans)
    requires 0 <= i < |cfg.plans| && Sells(cfg.plans[i], priceId)
    ensures GetPlanByPriceId(cfg, priceId) == Some(cfg.plans[i].id)
  {
    var r := GetPlanByPriceId(cfg, priceId);
    var k :| Seqs.IsFirst(cfg.plans, p => Sells(p, priceId), k) && r.value == cfg.plans[k].id;
    assert Sells(cfg.plans[k], priceId);
  }

  /**
   `getLimits`: the default limits for a falsy tier and for an unknown tier,
   otherwise the limits of the plan indexed under the tier (a limits object is
   always truthy, so an empty one is returned as it is).
   */
  function GetLimits(cfg: PricingConfig, tier: Option<string>): (r: Limits)
    ensures Falsy(tier) ==> r == cfg.defaultLimits
    ensures !Falsy(tier) && !HasId(cfg.plans, tier.value) ==> r == cfg.defaultLimits
    ensures !Falsy(tier) && HasId(cfg.plans, tier.value) ==>
              exists i :: LastWithId(cfg.plans, i, tier.value) && r == cfg.plans[i].limits
  {
    if Falsy(tier) then cfg.defaultLimits
    else
      match Lookup(cfg.plans, tier.value)
      case Some(p) => p.limits
      case None => cfg.defaultLimits
  }

  /** For a known, non-empty tier, the limits are those of the plan `getPlan` returns. */
  lemma LimitsOfResolvedPlan(cfg: PricingConfig, tier: string)
    requires |cfg.plans| > 0
    requires tier != "" && HasId(cfg.plans, tier)
    ensures GetLimits(cfg, Some(tier)) == GetPlan(cfg, tier).limits
  {
    var p := GetPlan(cfg, tier);
    var limits := GetLimits(cfg, Some(tier));
    var i :| LastWithId(cfg.plans, i, tier) && p == cfg.plans[i];
    var j :| LastWithId(cfg.plans, j, tier) && limits == cfg.plans[j].limits;
    LastWithIdUnique(cfg.plans, i, j, tier);
  }

  /**
   The two fallbacks differ: an unknown tier, "" included, resolves to the
   first plan, but its limits are the default limits, not the first plan's.
   */
  lemma UnknownTierFallbacks(cfg: PricingConfig, tier: string)
    requires |cfg.plans| > 0
    requires !HasId(cfg.plans, tier)
    ensures GetPlan(cfg, tier) == cfg.plans[0]
    ensures GetLimits(cfg, Some(tier)) == cfg.defaultLimits
  {
  }

  /**
   `checkLimit`: an undeclared key fails closed, -1 admits any usage, and
   otherwise usage must be strictly below the ceiling.
   */
  function CheckLimit(cfg: PricingConfig, tier: Option<string>, limitKey: string, currentUsage: int): (ok: bool)
    ensures limitKey !in GetLimits(cfg, tier) ==> !ok
    ensures limitKey in GetLimits(cfg, tier) && GetLimits(cfg, tier)[limitKey] == Unlimited ==> ok
    ensures limitKey in GetLimits(cfg, tier) && GetLimits(cfg, tier)[limitKey] != Unlimited ==>
              (ok <==> currentUsage < GetLimits(cfg, tier)[limitKey])
  {
    var limits := GetLimits(cfg, tier);
    if limitKey !in limits then false
    else
      var limit := limits[limitKey];
      if limit == Unlimited then true
      else currentUsage < limit
  }

  /** Admission is monotone in usage: what is admitted at `usage` is admitted at any lower usage. */
  lemma CheckLimitMonotone(cfg: PricingConfig, tier: Option<string>, limitKey: string, usage: int, lower: int)
    requires lower <= usage
    requires CheckLimit(cfg, tier, limitKey, usage)
    ensures CheckLimit(cfg, tier, limitKey, lower)
  {
  }

  /**
   Admitting one more action never takes usage past a finite, non-negative
   ceiling: if usage is admitted then usage + 1 stays within the limit.
   */
  lemma CheckLimitKeepsCeiling(cfg: PricingConfig, tier: Option<string>, limitKey: string, usage: int)
    requires CheckLimit(cfg, tier, limitKey, usage)
    ensures limitKey in GetLimits(cfg, tier)
    ensures GetLimits(cfg, tier)[limitKey] >= 0 ==> usage + 1 <= GetLimits(cfg, tier)[limitKey]
  {
  }

  /**
   `isPaidTier`: false for a falsy or unknown tier; otherwise whether the
   indexed plan's monthly price is positive.
   */
  function IsPaidTier(cfg: PricingConfig, tier: Option<string>): (paid: bool)
    ensures paid <==> !Falsy(tier) && exists i :: LastWithId(cfg.plans, i, tier.value) && cfg.plans[i].monthly > 0
  {
    if Falsy(tier) then false
    else
      match Lookup(cfg.plans, tier.value)
      case Some(p) =>
        assert forall i :: LastWithId(cfg.plans, i, tier.value) ==> cfg.plans[i] == p;
        p.monthly > 0
      case None => false
  }

  /**
   `getPlanPrice`: the indexed plan's monthly price, or 0 for a falsy or
   unknown tier (`monthly || 0` maps a zero price to 0 as well).
   */
  function GetPlanPrice(cfg: PricingConfig, tier: Option<string>): (price: int)
    ensures Falsy(tier) || !HasId(cfg.plans, tier.value) ==> price == 0
    ensures !Falsy(tier) && HasId(cfg.plans, tier.value) ==>
              exists i :: LastWithId(cfg.plans, i, tier.value) && price == cfg.plans[i].monthly
  {
    if Falsy(tier) then 0
    else
      match Lookup(cfg.plans, tier.value)
      case Some(p) => if p.monthly != 0 then p.monthly else 0
      case None => 0
  }

  /** A tier is paid exactly when its price is positive. */
  lemma PaidIffPositivePrice(cfg: PricingConfig, tier: Option<string>)
    ensures IsPaidTier(cfg, tier) <==> GetPlanPrice(cfg, tier) > 0
  {
    if !Falsy(tier) && HasId(cfg.plans, tier.value) {
      var price := GetPlanPrice(cfg, tier);
      var i :| LastWithId(cfg.plans, i, tier.value) && price == cfg.plans[i].monthly;
      forall j | LastWithId(cfg.plans, j, tier.value)
        ensures cfg.plans[j] == cfg.plans[i]
      {
        LastWithIdUnique(cfg.plans, i, j, tier.value);
      }
    }
  }

  predicate IsFree(p: Plan) { p.monthly == 0 }

  predicate IsPaid(p: Plan) { p.monthly > 0 }

  predicate IsHighlighted(p: Plan) { p.highlighted }

  /** `getFreePlan`: the first plan whose monthly price is 0. */
  function GetFreePlan(cfg: PricingConfig): (r: Option<Plan>)
    ensures r.None? <==> forall i :: 0 <= i < |cfg.plans| ==> cfg.plans[i].monthly != 0
    ensures r.Some? ==> exists i :: Seqs.IsFirst(cfg.plans, IsFree, i) && r.value == cfg.plans[i]
  {
    Seqs.Find(cfg.plans, IsFree)
  }

  /** `getPaidPlans`: the order-preserving sub-sequence of plans with a positive monthly price. */
  function GetPaidPlans(cfg: PricingConfig): (r: seq<Plan>)
    ensures forall p :: p in r <==> p in cfg.plans && p.monthly > 0
    ensures Seqs.IsFilterOf(r, cfg.plans, IsPaid)
  {
    Seqs.FilterMembers(cfg.plans, IsPaid);
    Seqs.FilterKeepsOrder(cfg.plans, IsPaid);
    Seqs.Filter(cfg.plans, IsPaid)
  }

  /** `getHighlightedPlan`: the first plan flagged as highlighted. */
  function GetHighlightedPlan(cfg: PricingConfig): (r: Option<Plan>)
    ensures r.None? <==> forall i :: 0 <= i < |cfg.plans| ==> !cfg.plans[i].highlighted
    ensures r.Some? ==> exists i :: Seqs.IsFirst(cfg.plans, IsHighlighted, i) && r.value == cfg.plans[i]
  {
    Seqs.Find(cfg.plans, IsHighlighted)
  }

  /** The free plan is never among the paid plans. */
  lemma FreePlanNotPaid(cfg: PricingConfig)
    requires GetFreePlan(cfg).Some?
    ensures GetFreePlan(cfg).value !in GetPaidPlans(cfg)
  {
  }

  /**
   With distinct ids, a declared plan with a non-empty id is a paid tier
   exactly when it is listed among the paid plans.
   */
  lemma PaidTierIffListed(cfg: PricingConfig, i: int)
    requires UniqueIds(cfg.plans)
    requires 0 <= i < |cfg.plans| && cfg.plans[i].id != ""
    ensures IsPaidTier(cfg, Some(cfg.plans[i].id)) <==> cfg.plans[i] in GetPaidPlans(cfg)
  {
    LookupUnique(cfg.plans, i);
  }
}
