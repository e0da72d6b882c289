/** The three-way rule that turns a price pair into a movement direction. */
module PriceMovementUseCase {
  import opened Domain

  /** `CalculatePriceMovementUseCase.invoke`. */
  function CalculatePriceMovement(currentPrice: real, previousPrice: real): (m: PriceMovement)
    ensures m == Up <==> currentPrice > previousPrice
    ensures m == Down <==> currentPrice < previousPrice
    ensures m == Unchanged <==> currentPrice == previousPrice
  {
    if currentPrice > previousPrice then Up
    else if currentPrice < previousPrice then Down
    else Unchanged
  }

  /** The movement seen from the other side. */
  function Opposite(m: PriceMovement): PriceMovement {
    match m
    case Up => Down
    case Down => Up
    case Unchanged => Unchanged
  }

  /** Swapping the two prices swaps Up and Down and keeps Unchanged. */
  lemma SwapIsOpposite(a: real, b: real)
    ensures CalculatePriceMovement(b, a) == Opposite(CalculatePriceMovement(a, b))
  {
  }

  /** Only the order of the prices matters: shifting both by the same amount changes nothing. */
  lemma ShiftInvariant(a: real, b: real, k: real)
    ensures CalculatePriceMovement(a + k, b + k) == CalculatePriceMovement(a, b)
  {
  }

  /** Zero and negative prices, as the use-case tests exercise them. */
  lemma MovementExamples()
    ensures CalculatePriceMovement(0.0, 0.0) == Unchanged
    ensures CalculatePriceMovement(-10.0, -20.0) == Up
    ensures CalculatePriceMovement(-10.0, 10.0) == Down
    ensures CalculatePriceMovement(100.0001, 100.0) == Up
  {
  }
}
