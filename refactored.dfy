/** The refactored pricing rules: named configuration constants, one unified
    shipping calculator keyed by a closed shipping type, and a discount service
    that reads only the user's tier.

    Python floats are modelled as exact reals; both operations are pure
    functions of their arguments and the constants below. */
module Refactored {

  // ---------------------------------------------------------------------------
  // DiscountConfig
  // ---------------------------------------------------------------------------

  const GoldMinTotal: real := 100.0
  const GoldDiscountRate: real := 0.15
  const SilverMinTotal: real := 42.0
  const SilverDiscountRate: real := 0.07

  // ---------------------------------------------------------------------------
  // ShippingConfig
  // ---------------------------------------------------------------------------

  const DomesticBaseCost: real := 5.0
  const InternationalBaseCost: real := 7.0
  const WeightRate: real := 0.25
  const DistanceDivisor: real := 300.0
  const HeavyWeightThreshold: real := 20.0
  const DomesticHeavySurcharge: real := 3.0
  const InternationalHeavySurcharge: real := 4.0

  /** The two shipping types; any other value is unrepresentable. */
  datatype ShippingType = Domestic | International

  /** A user record. Only `tier` takes part in pricing. */
  datatype User = User(id: int, name: string, tier: string)

  // ---------------------------------------------------------------------------
  // Shipping
  // ---------------------------------------------------------------------------

  /** Reference definition: the per-type shipping policy written out as data,
      with the threshold comparison's strictness as an explicit flag. */
  datatype ShippingPolicy = ShippingPolicy(baseCost: real, heavySurcharge: real, strictThreshold: bool)

  function PolicyOf(shippingType: ShippingType): ShippingPolicy
  {
    match shippingType
    case Domestic => ShippingPolicy(DomesticBaseCost, DomesticHeavySurcharge, true)
    case International => ShippingPolicy(InternationalBaseCost, InternationalHeavySurcharge, false)
  }

  /** Whether `weight` is heavy under `policy`: above the threshold when the
      comparison is strict, at or above it otherwise. */
  predicate IsHeavy(policy: ShippingPolicy, weight: real)
  {
    if policy.strictThreshold then weight > HeavyWeightThreshold else weight >= HeavyWeightThreshold
  }

  /** The cost a policy assigns: base, plus the weight and distance parts,
      plus the surcharge when the parcel is heavy. */
  function PolicyCost(policy: ShippingPolicy, weight: real, distanceKm: real): real
  {
    policy.baseCost + weight * WeightRate + distanceKm / DistanceDivisor
      + (if IsHeavy(policy, weight) then policy.heavySurcharge else 0.0)
  }

  /** ShippingCalculator.calculate_cost: picks the base cost, surcharge and
      heaviness test by branch, then adds the variable part. */
  function CalculateCost(weight: real, distanceKm: real, shippingType: ShippingType): (cost: real)
    ensures cost == PolicyCost(PolicyOf(shippingType), weight, distanceKm)
    ensures 0.0 <= weight && 0.0 <= distanceKm ==> cost >= PolicyOf(shippingType).baseCost
  {
    var (baseCost, heavySurcharge, isHeavy) :=
      if shippingType == Domestic then
        (DomesticBaseCost, DomesticHeavySurcharge, weight > HeavyWeightThreshold)
      else
        (InternationalBaseCost, InternationalHeavySurcharge, weight >= HeavyWeightThreshold);
    var variableCost := weight * WeightRate + distanceKm / DistanceDivisor;
    var variableCost := if isHeavy then variableCost + heavySurcharge else variableCost;
    baseCost + variableCost
  }

  /** Domestic uses a strict comparison and international an inclusive one,
      so at exactly the threshold only international pays the surcharge. */
  lemma HeavyAtThreshold(distanceKm: real)
    ensures !IsHeavy(PolicyOf(Domestic), HeavyWeightThreshold)
    ensures IsHeavy(PolicyOf(International), HeavyWeightThreshold)
    ensures CalculateCost(HeavyWeightThreshold, distanceKm, Domestic) == 10.0 + distanceKm / 300.0
    ensures CalculateCost(HeavyWeightThreshold, distanceKm, International) == 16.0 + distanceKm / 300.0
  {
  }

  /** The two heaviness tests disagree at some weight, and at no weight other
      than the threshold: the asymmetry is exactly one point wide. */
  lemma ThresholdAsymmetry()
    ensures exists w :: IsHeavy(PolicyOf(Domestic), w) != IsHeavy(PolicyOf(International), w)
    ensures forall w :: IsHeavy(PolicyOf(Domestic), w) != IsHeavy(PolicyOf(International), w) ==> w == HeavyWeightThreshold
  {
    assert IsHeavy(PolicyOf(Domestic), HeavyWeightThreshold) != IsHeavy(PolicyOf(International), HeavyWeightThreshold);
  }

  /** International costs 2 more than domestic below the threshold, 6 more at
      it, and 3 more above it. */
  lemma InternationalPremium(weight: real, distanceKm: real)
    ensures CalculateCost(weight, distanceKm, International) - CalculateCost(weight, distanceKm, Domestic)
            == if weight < HeavyWeightThreshold then 2.0 else if weight == HeavyWeightThreshold then 6.0 else 3.0
  {
  }

  /** A longer distance never costs less. */
  lemma CostMonotoneInDistance(weight: real, d1: real, d2: real, shippingType: ShippingType)
    requires d1 <= d2
    ensures CalculateCost(weight, d1, shippingType) <= CalculateCost(weight, d2, shippingType)
  {
  }

  /** A heavier parcel never costs less; crossing the threshold only adds. */
  lemma CostMonotoneInWeight(w1: real, w2: real, distanceKm: real, shippingType: ShippingType)
    requires w1 <= w2
    ensures CalculateCost(w1, distanceKm, shippingType) <= CalculateCost(w2, distanceKm, shippingType)
  {
  }

  /** The sample order (12 kg over 900 km): neither type is heavy, domestic
      costs 11 and international 13. */
  lemma SampleOrderShipping()
    ensures !IsHeavy(PolicyOf(Domestic), 12.0) && !IsHeavy(PolicyOf(International), 12.0)
    ensures CalculateCost(12.0, 900.0, Domestic) == 11.0
    ensures CalculateCost(12.0, 900.0, International) == 13.0
  {
  }

  // ---------------------------------------------------------------------------
  // Discount
  // ---------------------------------------------------------------------------

  /** Reference definition: discount rules as data, tried in order; the first
      rule whose tier matches and whose minimum the total exceeds applies its
      rate to the total, and no match gives 0. */
  datatype TierRule = TierRule(tier: string, minTotal: real, rate: real)

  const TierRules: seq<TierRule> :=
    [TierRule("gold", GoldMinTotal, GoldDiscountRate), TierRule("silver", SilverMinTotal, SilverDiscountRate)]

  predicate Applies(rule: TierRule, tier: string, total: real)
  {
    tier == rule.tier && total > rule.minTotal
  }

  function RuleDiscount(rules: seq<TierRule>, tier: string, total: real): real
  {
    if rules == [] then 0.0
    else if Applies(rules[0], tier, total) then total * rules[0].rate
    else RuleDiscount(rules[1..], tier, total)
  }

  /** When no rule applies, the discount is 0. */
  lemma {:induction false} RuleDiscountNoMatch(rules: seq<TierRule>, tier: string, total: real)
    requires forall i :: 0 <= i < |rules| ==> !Applies(rules[i], tier, total)
    ensures RuleDiscount(rules, tier, total) == 0.0
  {
    if rules != [] {
      assert !Applies(rules[0], tier, total);
      RuleDiscountNoMatch(rules[1..], tier, total);
    }
  }

  /** The first applicable rule decides the discount. */
  lemma {:induction false} RuleDiscountFirstMatch(rules: seq<TierRule>, tier: string, total: real, k: nat)
    requires k < |rules| && Applies(rules[k], tier, total)
    requires forall i :: 0 <= i < k ==> !Applies(rules[i], tier, total)
    ensures RuleDiscount(rules, tier, total) == total * rules[k].rate
  {
    if k > 0 {
      assert !Applies(rules[0], tier, total);
      RuleDiscountFirstMatch(rules[1..], tier, total, k - 1);
    }
  }

  /** DiscountService.calculate_discount: gold above its minimum gets the gold
      rate, otherwise silver above its minimum gets the silver rate,
      otherwise nothing. */
  function CalculateDiscount(user: User, total: real): (discount: real)
    ensures 0.0 <= total ==> 0.0 <= discount <= total * GoldDiscountRate
  {
    if user.tier == "gold" && total > GoldMinTotal then
      total * GoldDiscountRate
    else if user.tier == "silver" && total > SilverMinTotal then
      total * SilverDiscountRate
    else
      0.0
  }

  /** The three outcomes of the discount, each with its exact condition. */
  lemma DiscountCases(user: User, total: real)
    ensures user.tier == "gold" && total > GoldMinTotal ==> CalculateDiscount(user, total) == total * 0.15
    ensures user.tier == "silver" && total > SilverMinTotal ==> CalculateDiscount(user, total) == total * 0.07
    ensures !(user.tier == "gold" && total > GoldMinTotal) && !(user.tier == "silver" && total > SilverMinTotal)
            ==> CalculateDiscount(user, total) == 0.0
  {
  }

  /** The minimums are strict: gold at exactly 100 and silver at exactly 42
      get nothing, and so does any other tier whatever the total. */
  lemma DiscountAtThresholds(id: int, name: string, tier: string, total: real)
    ensures CalculateDiscount(User(id, name, "gold"), GoldMinTotal) == 0.0
    ensures CalculateDiscount(User(id, name, "silver"), SilverMinTotal) == 0.0
    ensures tier != "gold" && tier != "silver" ==> CalculateDiscount(User(id, name, tier), total) == 0.0
  {
  }

  /** The discount service computes exactly what the ordered rule table
      gives: gold is tried before silver, and no match gives 0. */
  lemma DiscountMatchesRules(user: User, total: real)
    ensures CalculateDiscount(user, total) == RuleDiscount(TierRules, user.tier, total)
  {
    if Applies(TierRules[0], user.tier, total) {
      RuleDiscountFirstMatch(TierRules, user.tier, total, 0);
    } else if Applies(TierRules[1], user.tier, total) {
      RuleDiscountFirstMatch(TierRules, user.tier, total, 1);
    } else {
      RuleDiscountNoMatch(TierRules, user.tier, total);
    }
  }
}
