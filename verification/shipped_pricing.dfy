/**
 The shipped `pricingConfig` of config/pricing.ts and the facts it yields.
 The three billing price ids come from the environment in the source; here
 they are parameters, so every fact below holds whatever the environment says.
 */
module ShippedPricing {
  import opened Wrappers
  import opened Pricing
  import Seqs

  /** `defaultLimits`: four entities. */
  const DefaultLimits: Limits := map["entities" := 4]

  function Free(): Plan {
    Plan("free", "Free", 0, None, None, map["entities" := 4], false)
  }

  function Starter(starterPrice: Option<string>): Plan {
    Plan("starter", "Starter", 9, starterPrice, None, map["entities" := 20], false)
  }

  function Pro(proPrice: Option<string>): Plan {
    Plan("pro", "Pro", 19, proPrice, None, map["entities" := Unlimited], true)
  }

  function Team(teamPrice: Option<string>): Plan {
    Plan("team", "Team", 49, teamPrice, None, map["entities" := Unlimited], false)
  }

  /** The shipped configuration, given the STRIPE_PRICE_STARTER / _PRO / _TEAM values. */
  function Config(starterPrice: Option<string>, proPrice: Option<string>, teamPrice: Option<string>): PricingConfig {
    PricingConfig(DefaultLimits, [Free(), Starter(starterPrice), Pro(proPrice), Team(teamPrice)])
  }

  /**
   The shape of the shipped configuration: four plans in strictly ascending
   order of monthly price, each declaring exactly the limit keys of the defaults.
   */
  lemma ShippedConfigShape(s: Option<string>, p: Option<string>, t: Option<string>)
    ensures |Config(s, p, t).plans| == 4
    ensures forall i, j :: 0 <= i < j < |Config(s, p, t).plans| ==> Config(s, p, t).plans[i].monthly < Config(s, p, t).plans[j].monthly
    ensures forall i :: 0 <= i < |Config(s, p, t).plans| ==> Config(s, p, t).plans[i].limits.Keys == Config(s, p, t).defaultLimits.Keys
  {
  }

  /** The shipped plan ids are distinct and none of them is empty. */
  lemma ShippedIdsUnique(s: Option<string>, p: Option<string>, t: Option<string>)
    ensures UniqueIds(Config(s, p, t).plans)
    ensures forall i :: 0 <= i < |Config(s, p, t).plans| ==> Config(s, p, t).plans[i].id != ""
  {
  }

  /** Looking up each shipped id finds its own plan. */
  lemma ShippedLookups(s: Option<string>, p: Option<string>, t: Option<string>)
    ensures Lookup(Config(s, p, t).plans, "free") == Some(Free())
    ensures Lookup(Config(s, p, t).plans, "starter") == Some(Starter(s))
    ensures Lookup(Config(s, p, t).plans, "pro") == Some(Pro(p))
    ensures Lookup(Config(s, p, t).plans, "team") == Some(Team(t))
  {
    var plans := Config(s, p, t).plans;
    ShippedIdsUnique(s, p, t);
    LookupUnique(plans, 0);
    LookupUnique(plans, 1);
    LookupUnique(plans, 2);
    LookupUnique(plans, 3);
  }

  /** A free tenant may hold four entities: a fourth is admitted at usage 3, a fifth is not. */
  lemma FreeTierEntityLimit(s: Option<string>, p: Option<string>, t: Option<string>)
    ensures CheckLimit(Config(s, p, t), Some("free"), "entities", 3)
    ensures !CheckLimit(Config(s, p, t), Some("free"), "entities", 4)
  {
    ShippedLookups(s, p, t);
  }

  /** Pro and team tenants may create entities at any usage. */
  lemma ProAndTeamUnlimited(s: Option<string>, p: Option<string>, t: Option<string>, usage: int)
    ensures CheckLimit(Config(s, p, t), Some("pro"), "entities", usage)
    ensures CheckLimit(Config(s, p, t), Some("team"), "entities", usage)
  {
    var cfg := Config(s, p, t);
    ShippedIdsUnique(s, p, t);
    LookupUnique(cfg.plans, 2);
    LookupUnique(cfg.plans, 3);
  }

  /**
   A tenant with no tier, an empty tier or an unknown tier gets the default
   limits, which equal the free plan's: it is admitted exactly as a free tenant.
   */
  lemma UnknownTierActsFree(s: Option<string>, p: Option<string>, t: Option<string>, tier: Option<string>, key: string, usage: int)
    requires tier.Some? ==> tier.value !in {"free", "starter", "pro", "team"}
    ensures GetLimits(Config(s, p, t), tier) == DefaultLimits
    ensures CheckLimit(Config(s, p, t), tier, key, usage) == CheckLimit(Config(s, p, t), Some("free"), key, usage)
  {
    var cfg := Config(s, p, t);
    assert GetLimits(cfg, tier) == DefaultLimits by {
      if !Falsy(tier) {
        assert forall i :: 0 <= i < |cfg.plans| ==> cfg.plans[i].id != tier.value;
      }
    }
    assert GetLimits(cfg, Some("free")) == DefaultLimits by {
      assert Lookup(cfg.plans, "free") == Some(Free()) by {
        LookupUnique(cfg.plans, 0);
      }
    }
  }

  /** Only "entities" is declared, so any other limit key fails closed for every tier. */
  lemma UndeclaredKeyFailsClosed(s: Option<string>, p: Option<string>, t: Option<string>, tier: Option<string>, key: string, usage: int)
    requires key != "entities"
    ensures !CheckLimit(Config(s, p, t), tier, key, usage)
  {
    var cfg := Config(s, p, t);
    var limits := GetLimits(cfg, tier);
    if !Falsy(tier) && HasId(cfg.plans, tier.value) {
      var i :| LastWithId(cfg.plans, i, tier.value) && limits == cfg.plans[i].limits;
    }
  }

  /** Free is the free plan. */
  lemma ShippedFreePlan(s: Option<string>, p: Option<string>, t: Option<string>)
    ensures GetFreePlan(Config(s, p, t)) == Some(Free())
  {
    var cfg := Config(s, p, t);
    var f := GetFreePlan(cfg);
    assert IsFree(cfg.plans[0]);
    var i :| Seqs.IsFirst(cfg.plans, IsFree, i) && f.value == cfg.plans[i];
  }

  /** Pro is the highlighted plan. */
  lemma ShippedHighlightedPlan(s: Option<string>, p: Option<string>, t: Option<string>)
    ensures GetHighlightedPlan(Config(s, p, t)) == Some(Pro(p))
  {
    var cfg := Config(s, p, t);
    var h := GetHighlightedPlan(cfg);
    assert IsHighlighted(cfg.plans[2]);
    var i :| Seqs.IsFirst(cfg.plans, IsHighlighted, i) && h.value == cfg.plans[i];
    assert !IsHighlighted(cfg.plans[0]) && !IsHighlighted(cfg.plans[1]);
  }

  /** The paid plans are starter, pro and team, in that order. */
  lemma ShippedPaidPlans(s: Option<string>, p: Option<string>, t: Option<string>)
    ensures GetPaidPlans(Config(s, p, t)) == [Starter(s), Pro(p), Team(t)]
  {
    var plans := Config(s, p, t).plans;
    assert Seqs.Filter(plans[4..], IsPaid) == [];
    assert Seqs.Filter(plans[3..], IsPaid) == [Team(t)];
    assert Seqs.Filter(plans[2..], IsPaid) == [Pro(p), Team(t)];
    assert Seqs.Filter(plans[1..], IsPaid) == [Starter(s), Pro(p), Team(t)];
    assert Seqs.Filter(plans, IsPaid) == [Starter(s), Pro(p), Team(t)];
  }

  /** Starter, pro and team are paid tiers; free is not. */
  lemma ShippedPaidTiers(s: Option<string>, p: Option<string>, t: Option<string>)
    ensures IsPaidTier(Config(s, p, t), Some("starter"))
    ensures IsPaidTier(Config(s, p, t), Some("pro"))
    ensures IsPaidTier(Config(s, p, t), Some("team"))
    ensures !IsPaidTier(Config(s, p, t), Some("free"))
  {
    ShippedLookups(s, p, t);
  }

  /**
   When the environment supplies three distinct price ids, each resolves back
   to its own tier; an id the environment did not supply resolves to nothing.
   */
  lemma ShippedPriceIds(s: string, p: string, t: string, other: string)
    requires s != p && p != t && s != t
    requires other != s && other != p && other != t
    ensures GetPlanByPriceId(Config(Some(s), Some(p), Some(t)), s) == Some("starter")
    ensures GetPlanByPriceId(Config(Some(s), Some(p), Some(t)), p) == Some("pro")
    ensures GetPlanByPriceId(Config(Some(s), Some(p), Some(t)), t) == Some("team")
    ensures GetPlanByPriceId(Config(Some(s), Some(p), Some(t)), other) == None
  {
    var cfg := Config(Some(s), Some(p), Some(t));
    assert UniquePriceIds(cfg.plans) by {
      assert forall i, q :: 0 <= i < |cfg.plans| && Sells(cfg.plans[i], q) ==>
               (i == 1 && q == s) || (i == 2 && q == p) || (i == 3 && q == t);
    }
    PriceIdRoundTrip(cfg, 1, s);
    PriceIdRoundTrip(cfg, 2, p);
    PriceIdRoundTrip(cfg, 3, t);
  }
}
