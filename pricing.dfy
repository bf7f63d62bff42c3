/** Price calculation strategies: the closed set of two pricing rules a
    product can carry. Prices are exact reals; the source's `double`
    arithmetic is not reproduced bit for bit. */
module Pricing {

  datatype Strategy = Simple | Discount

  /** The fixed factor of the discount rule: 10% off. */
  const DiscountFactor: real := 0.9

  /** Price of `quantity` units at `basePrice` under `strategy`. */
  function Calculate(strategy: Strategy, basePrice: real, quantity: int): real
  {
    match strategy
    case Simple => basePrice * quantity as real
    case Discount => basePrice * quantity as real * DiscountFactor
  }

  /** The discount rule charges exactly nine tenths of what the simple rule
      charges for the same base price and quantity. */
  lemma DiscountIsTenPercentOff(basePrice: real, quantity: int)
    ensures Calculate(Discount, basePrice, quantity)
         == Calculate(Simple, basePrice, quantity) - Calculate(Simple, basePrice, quantity) / 10.0
  {
  }

  /** For a non-negative base price and quantity the discount rule never
      charges more than the simple rule, and neither charges a negative price. */
  lemma DiscountNeverDearer(basePrice: real, quantity: int)
    requires 0.0 <= basePrice && 0 <= quantity
    ensures 0.0 <= Calculate(Discount, basePrice, quantity) <= Calculate(Simple, basePrice, quantity)
  {
  }

  /** Both rules are additive in the quantity: pricing q1 + q2 units at once
      costs the same as pricing q1 and q2 units separately. */
  lemma PriceAdditive(strategy: Strategy, basePrice: real, q1: int, q2: int)
    ensures Calculate(strategy, basePrice, q1 + q2)
         == Calculate(strategy, basePrice, q1) + Calculate(strategy, basePrice, q2)
  {
  }

  /** With a non-negative base price, buying more never costs less. */
  lemma PriceMonotone(strategy: Strategy, basePrice: real, q1: int, q2: int)
    requires 0.0 <= basePrice && q1 <= q2
    ensures Calculate(strategy, basePrice, q1) <= Calculate(strategy, basePrice, q2)
  {
  }

  /** The two catalogue rules on the figures of the shop's own products:
      10.0 simple times 3 is 30.0, 20.0 discounted times 2 is 36.0. */
  lemma CatalogueExamples()
    ensures Calculate(Simple, 10.0, 3) == 30.0
    ensures Calculate(Discount, 20.0, 2) == 36.0
  {
  }
}
