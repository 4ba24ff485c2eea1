/** The estimated price of an inter-hospital blood request
    (src/utils/pricing.js). The source multiplies floating-point factors;
    here every factor is an exact rational, and the price is shown to be the
    exact product, so the final rounding never changes it. */
module Pricing {

  /** Price of one unit of a common group's whole blood, in rupees. */
  const BasePrice := 1200

  /** The groups the rarity switch names; every other group is common. */
  const RareGroups: set<string> := {"O-", "AB-", "B-", "A-"}

  /** Rarity multiplier of the blood-group switch. */
  function Rarity(bloodGroup: string): real {
    if bloodGroup == "O-" then 2.5
    else if bloodGroup == "AB-" then 2.0
    else if bloodGroup == "B-" then 1.5
    else if bloodGroup == "A-" then 1.5
    else 1.0
  }

  /** Component adjustment: Plasma costs 1.2 times, Platelets 1.5 times as much. */
  function TypeFactor(requestType: string): real {
    if requestType == "Plasma" then 1.2
    else if requestType == "Platelets" then 1.5
    else 1.0
  }

  /** The rarity multiplier in tenths. */
  function RarityTenths(bloodGroup: string): (t: int)
    ensures t as real == 10.0 * Rarity(bloodGroup)
    ensures t == 10 <==> bloodGroup !in RareGroups
  {
    if bloodGroup == "O-" then 25
    else if bloodGroup == "AB-" then 20
    else if bloodGroup == "B-" || bloodGroup == "A-" then 15
    else 10
  }

  /** The component adjustment in tenths. */
  function TypeTenths(requestType: string): (t: int)
    ensures t as real == 10.0 * TypeFactor(requestType)
    ensures t in {10, 12, 15}
  {
    if requestType == "Plasma" then 12
    else if requestType == "Platelets" then 15
    else 10
  }

  /** The price of one unit: an integer number of rupees in every case. */
  function UnitPrice(bloodGroup: string, requestType: string): (p: int)
    ensures p as real == BasePrice as real * Rarity(bloodGroup) * TypeFactor(requestType)
    ensures p in {1200, 1440, 1800, 2160, 2700, 2400, 2880, 3600, 3000, 4500}
  {
    12 * RarityTenths(bloodGroup) * TypeTenths(requestType)
  }

  /** `calculateEstimatedPrice`: `round(1200 * multiplier * quantity)`. */
  function CalculateEstimatedPrice(bloodGroup: string, quantity: int, requestType: string): (price: int)
    ensures price as real == BasePrice as real * (Rarity(bloodGroup) * TypeFactor(requestType)) * quantity as real
    ensures quantity == 0 ==> price == 0
  {
    UnitPrice(bloodGroup, requestType) * quantity
  }

  /** Ordering more units never costs less. */
  lemma PriceMonotoneInQuantity(bloodGroup: string, requestType: string, q: int, q': int)
    requires q <= q'
    ensures CalculateEstimatedPrice(bloodGroup, q, requestType) <= CalculateEstimatedPrice(bloodGroup, q', requestType)
  {
  }

  /** For the same component and a non-negative quantity, a rare
      (Rh-negative) group is never cheaper than a common one. */
  lemma RareGroupNeverCheaper(rare: string, common: string, requestType: string, quantity: nat)
    requires rare in RareGroups && common !in RareGroups
    ensures CalculateEstimatedPrice(rare, quantity, requestType) >= CalculateEstimatedPrice(common, quantity, requestType)
  {
  }
}
