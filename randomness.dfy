/** What the simulation may assume of the values it draws from .NET's
    `System.Random`. Every draw of the program is a parameter of the member
    that makes it, constrained by one of these two predicates. */
module Randomness {

  /** `Random.Next(minValue, maxValue)`: a value in [minValue, maxValue), or
      minValue itself when the two bounds are equal. A minValue above maxValue
      throws, so no value satisfies the predicate then. */
  predicate NextInRange(minValue: int, maxValue: int, r: int)
  {
    minValue <= maxValue &&
    if minValue == maxValue then r == minValue else minValue <= r < maxValue
  }

  /** `Random.Next(maxValue)`: a value in [0, maxValue), or 0 when maxValue is
      0. A negative maxValue throws. */
  predicate NextBelow(maxValue: int, r: int)
  {
    0 <= maxValue &&
    if maxValue == 0 then r == 0 else 0 <= r < maxValue
  }

  /** The upper bound is reached only when it equals the lower one. */
  lemma NextInRangeBounds(minValue: int, maxValue: int, r: int)
    requires NextInRange(minValue, maxValue, r)
    ensures minValue <= r <= maxValue
    ensures r == maxValue ==> minValue == maxValue
  {
  }
}
