/** The refactoring changes no price: the refactored operations agree with
    the original ones on every input. */
module RefactoringEquivalence {
  import Original
  import Refactored

  /** The unified calculator agrees with each copy-pasted function, including
      the strict domestic and inclusive international threshold. */
  lemma ShippingUnchanged(weight: real, distanceKm: real)
    ensures Refactored.CalculateCost(weight, distanceKm, Refactored.Domestic) == Original.ShipCostDomestic(weight, distanceKm)
    ensures Refactored.CalculateCost(weight, distanceKm, Refactored.International) == Original.ShipCostInternational(weight, distanceKm)
  {
  }

  /** The discount service agrees with the original for every tier string. */
  lemma DiscountUnchanged(id: int, name: string, tier: string, total: real)
    ensures Refactored.CalculateDiscount(Refactored.User(id, name, tier), total) == Original.DiscountForOrder(Original.Some(tier), total)
  {
  }

  /** The original's missing-tier case (`user.get("tier")` is None) yields the
      same 0 as the refactored service gives any tier other than gold or
      silver. The refactored program itself never prices a tier-less record. */
  lemma MissingTierIsUnrecognised(id: int, name: string, tier: string, total: real)
    requires tier != "gold" && tier != "silver"
    ensures Original.DiscountForOrder(Original.None, total) == Refactored.CalculateDiscount(Refactored.User(id, name, tier), total)
  {
  }

  /** The sample order both programs price for each user (total 123.45,
      12 kg, 900 km) gets the same figures from both. */
  lemma SampleOrderUnchanged(id: int, name: string, tier: string)
    ensures Refactored.CalculateDiscount(Refactored.User(id, name, tier), 123.45) == Original.DiscountForOrder(Original.Some(tier), 123.45)
    ensures Original.DiscountForOrder(Original.Some("gold"), 123.45) == 18.5175
    ensures Original.DiscountForOrder(Original.Some("silver"), 123.45) == 8.6415
    ensures Original.ShipCostDomestic(12.0, 900.0) == Refactored.CalculateCost(12.0, 900.0, Refactored.Domestic) == 11.0
    ensures Original.ShipCostInternational(12.0, 900.0) == Refactored.CalculateCost(12.0, 900.0, Refactored.International) == 13.0
  {
  }
}
