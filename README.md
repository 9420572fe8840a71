# Pricing rules of the Antipatrones scripts

The repository is a teaching pair. `Antipatrones_Original.py` packs everything into one `AppManager` class, with literal constants and two copy-pasted shipping functions. `Antipatrones_Refactorizado.py` gives the same rules named constants, one shipping calculator keyed by a `ShippingType` enumeration, and a separate discount service. This project models the pricing rules of both versions and proves that the refactored pricing functions give the same discount and shipping cost as the original ones on every input. It does not claim the two programs behave alike end to end: their loaders differ on malformed records (see "## Left out").

- `Refactored` (refactored.dfy): the `DiscountConfig` and `ShippingConfig` constants, `ShippingType`, the `User` record, `ShippingCalculator.calculate_cost` as `CalculateCost` and `DiscountService.calculate_discount` as `CalculateDiscount`. It also holds two reference definitions that write the rules as data: a `ShippingPolicy` per type, with the threshold's strictness as a flag, and an ordered `TierRule` table tried first-match. The operations are proved equal to these.
- `Original` (original.dfy): `AppManager.discount_for_order`, `ship_cost_domestic` and `ship_cost_international`, with the literal constants written inline as in the source. The original's user dictionary is reduced to the result of `user.get("tier")`, an `Option<string>`.
- `RefactoringEquivalence` (equivalence.dfy): for every input, the refactored pricing functions give the same results as the original ones.

Python floats are modelled as exact reals. Every operation is a Dafny function, so its result depends only on its arguments and the module constants. This matches the source: the refactored functions are static methods that read only the configuration constants, and the original ones are `AppManager` instance methods that never read `self`.

## Model

| member | source | states |
|---|---|---|
| Refactored.CalculateCost | Antipatrones_Refactorizado.py:41-67 | the cost equals the data-driven policy cost: base (5 or 7) + weight×0.25 + distance/300, plus the type's surcharge (3 or 4) when heavy; for non-negative weight and distance it is at least the type's base cost |
| Refactored.HeavyAtThreshold | Antipatrones_Refactorizado.py:48-57 | at exactly 20 kg domestic is not heavy (strict `>`) and international is (inclusive `>=`), so the costs are 10 + d/300 and 16 + d/300 |
| Refactored.ThresholdAsymmetry | Antipatrones_Refactorizado.py:48-57 | the two heaviness tests disagree at some weight, and they disagree only at the 20 kg threshold |
| Refactored.InternationalPremium | Antipatrones_Refactorizado.py:48-67 | international costs 2 more than domestic below 20 kg, 6 more at exactly 20 kg and 3 more above |
| Refactored.CostMonotoneInDistance | Antipatrones_Refactorizado.py:59-67 | for each type, a longer distance never lowers the cost |
| Refactored.CostMonotoneInWeight | Antipatrones_Refactorizado.py:52-67 | for each type, a heavier parcel never lowers the cost, across the surcharge threshold too |
| Refactored.SampleOrderShipping | Antipatrones_Refactorizado.py:142-164 | for the sample order of 12 kg over 900 km neither type is heavy; domestic costs 11 and international 13 |
| Refactored.RuleDiscountNoMatch | Antipatrones_Refactorizado.py:98-106 | in an ordered rule table, when no rule's tier matches with the total above its minimum, the discount is 0 |
| Refactored.RuleDiscountFirstMatch | Antipatrones_Refactorizado.py:98-106 | in an ordered rule table, the first rule that applies sets the discount to total × its rate, whatever later rules say |
| Refactored.CalculateDiscount | Antipatrones_Refactorizado.py:97-106 | for a non-negative total the discount lies between 0 and total × 0.15 |
| Refactored.DiscountCases | Antipatrones_Refactorizado.py:100-106 | gold with total > 100 gives total × 0.15; silver with total > 42 gives total × 0.07; every other tier/total pair gives exactly 0 |
| Refactored.DiscountAtThresholds | Antipatrones_Refactorizado.py:100-106 | the minimums are strict: gold at exactly 100 and silver at exactly 42 get 0, and any tier other than gold or silver gets 0 at every total |
| Refactored.DiscountMatchesRules | Antipatrones_Refactorizado.py:98-106 | the discount service equals the first-match result of the table [gold > 100 at 0.15, silver > 42 at 0.07] |
| Original.DiscountForOrder | Antipatrones_Original.py:17-23 | gold with total > 100 gives total × 0.15, silver with total > 42 gives total × 0.07, every other case (a missing tier, any other tier string, gold at or below 100, silver at or below 42) gives 0, and a non-negative total gets a discount in [0, total × 0.15] |
| Original.ShipCostDomestic | Antipatrones_Original.py:25-31 | 5 + w×0.25 + d/300 up to and including 20 kg, 8 + w×0.25 + d/300 strictly above it; at least 5 for non-negative inputs |
| Original.ShipCostInternational | Antipatrones_Original.py:34-39 | 7 + w×0.25 + d/300 below 20 kg, 11 + w×0.25 + d/300 from 20 kg up; at least 7 for non-negative inputs |
| RefactoringEquivalence.ShippingUnchanged | Antipatrones_Original.py:25-39 | for every weight and distance, the unified calculator equals `ship_cost_domestic` for domestic and `ship_cost_international` for international |
| RefactoringEquivalence.DiscountUnchanged | Antipatrones_Original.py:17-23 | for every tier string and total, the discount service equals `discount_for_order` on a record with that tier |
| RefactoringEquivalence.MissingTierIsUnrecognised | Antipatrones_Original.py:19-23 | the original's missing-tier case (`user.get("tier")` is None) gives the same discount, 0, as the refactored service gives a user with any tier other than gold or silver; the refactored program has no counterpart for a record without a tier, since its loader rejects one |
| RefactoringEquivalence.SampleOrderUnchanged | Antipatrones_Original.py:44-53 | for the sample order (total 123.45, 12 kg, 900 km) both versions give the same discount for every tier (18.5175 for gold, 8.6415 for silver) and the same shipping costs 11 and 13 |

## Left out

- Loading users from `data.json` (`UserRepository.load_all`, `AppManager.load_users`): file-system I/O, not modelled. Both loaders give an empty list when the file is missing. They differ on record shape: the refactored loader builds `User(**user_data)`, which raises TypeError for a record without `tier` (or with a key other than `id`, `name`, `tier`), while the original keeps the raw dictionary and prices a tier-less record with discount 0. So for such input the two programs differ, though their pricing functions agree.
- All printing (`UserPresenter`, `AppManager.print_user`, the `:.2f` formatting): console output.
- `ApplicationController.run`, `AppManager.run` and the `__main__` blocks: wiring and an output loop with no pricing rule of their own. Their fixed sample values (123.45, 12, 900) appear in the sample-order lemmas.
- The catch-all `else` of `calculate_cost` (Antipatrones_Refactorizado.py:53) prices any value other than `ShippingType.DOMESTIC`, such as the plain string `"domestic"`, as international. The model's closed `ShippingType` has only the two enumeration members, so such a call is not represented.
- IEEE-754 rounding: floats are exact reals, so binary rounding of products such as `total * 0.07` is not captured.
- Negative weight, distance or total: the source does not validate them. The model leaves them unconstrained, and the bound and lower-cost properties are stated for non-negative inputs.
- Original.DiscountForOrder: the original's user is a JSON dictionary whose `tier` value could be a non-string; the model takes `user.get("tier")` as an optional string, so a non-string tier is not represented. It would compare unequal to both tiers and give 0, like an unrecognised string.
