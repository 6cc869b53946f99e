/**
  Conversion of a subscription's charge to a monthly-equivalent cost, by its
  billing cycle (main.py, the `cycle` branches of the insights summary).
 */
module Billing {

  const Annual: string := "annual"
  const Weekly: string := "weekly"
  const Monthly: string := "monthly"

  /** The monthly-equivalent cost of `amount` charged once per `cycle`.
      An annual charge is spread over twelve months, a weekly one over the
      52 weeks of a year and then over its twelve months; every other cycle
      string, recognised or not, passes the amount through unchanged. */
  function MonthlyCost(amount: real, cycle: string): (monthly: real)
    ensures cycle == Annual ==> 12.0 * monthly == amount
    ensures cycle == Weekly ==> 12.0 * monthly == 52.0 * amount
    ensures cycle != Annual && cycle != Weekly ==> monthly == amount
    ensures 0.0 <= amount ==> 0.0 <= monthly
    ensures monthly == 0.0 <==> amount == 0.0
  {
    if cycle == Annual then amount / 12.0
    else if cycle == Weekly then amount * 52.0 / 12.0
    else amount
  }

  /** For a fixed cycle the conversion is linear in the amount, so scaling a
      charge (doubling it, say) scales its monthly cost by the same factor. */
  lemma MonthlyCostLinear(amount: real, factor: real, cycle: string)
    ensures MonthlyCost(factor * amount, cycle) == factor * MonthlyCost(amount, cycle)
  {
  }
}
