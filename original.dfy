/** The original pricing rules of the god-object `AppManager`: the same
    discount and two copy-pasted shipping functions with literal constants.
    Python floats are modelled as exact reals. */
module Original {

  datatype Option<T> = None | Some(value: T)

  /** AppManager.discount_for_order. `tier` is `user.get("tier")`, which is
      None when the record has no tier key. */
  function DiscountForOrder(tier: Option<string>, total: real): (discount: real)
    ensures tier == Some("gold") && total > 100.0 ==> discount == total * 0.15
    ensures tier == Some("silver") && total > 42.0 ==> discount == total * 0.07
    ensures !(tier == Some("gold") && total > 100.0) && !(tier == Some("silver") && total > 42.0) ==> discount == 0.0
    ensures tier.None? ==> discount == 0.0
    ensures 0.0 <= total ==> 0.0 <= discount <= total * 0.15
  {
    if tier == Some("gold") && total > 100.0 then
      total * 0.15
    else if tier == Some("silver") && total > 42.0 then
      total * 0.07
    else
      0.0
  }

  /** AppManager.ship_cost_domestic: base 5, plus 3 only strictly above 20. */
  function ShipCostDomestic(weight: real, distanceKm: real): (cost: real)
    ensures weight <= 20.0 ==> cost == 5.0 + weight * 0.25 + distanceKm / 300.0
    ensures weight > 20.0 ==> cost == 8.0 + weight * 0.25 + distanceKm / 300.0
    ensures 0.0 <= weight && 0.0 <= distanceKm ==> cost >= 5.0
  {
    var base := 5.0;
    var variable := weight * 0.25 + distanceKm / 300.0;
    var variable := if weight > 20.0 then variable + 3.0 else variable;
    base + variable
  }

  /** AppManager.ship_cost_international: base 7, plus 4 from 20 upwards. */
  function ShipCostInternational(weight: real, distanceKm: real): (cost: real)
    ensures weight < 20.0 ==> cost == 7.0 + weight * 0.25 + distanceKm / 300.0
    ensures weight >= 20.0 ==> cost == 11.0 + weight * 0.25 + distanceKm / 300.0
    ensures 0.0 <= weight && 0.0 <= distanceKm ==> cost >= 7.0
  {
    var base := 7.0;
    var variable := weight * 0.25 + distanceKm / 300.0;
    var variable := if weight >= 20.0 then variable + 4.0 else variable;
    base + variable
  }
}
