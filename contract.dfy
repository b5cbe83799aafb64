/** Shared types and constants of the checkout engine: the closed union of
    specials, the per-item data handed to the calculators and the result of
    applying a limit (src/lib/contract.ts, mirrored inline in src/checkout.ts). */
module Contract {

  datatype Option<+T> = None | Some(value: T)

  /** The counts a special is built from (buyN, getM, n, limit) are positive once validated. */
  type Pos = x: int | x > 0 witness 1

  /** FULL_PERCENT, the denominator of a percent-off discount. */
  const FULL_PERCENT: real := 100.0
  /** MAX_PERCENT, the largest percentOff the validators accept. */
  const MAX_PERCENT: real := 100.0

  /** One special per item. Each variant may carry a limit on the quantity
      (units, or weight units) that is eligible for the discount. */
  datatype Special =
    | BuyNGetM(buyN: Pos, getM: Pos, percentOff: real, limit: Option<Pos>)
    | NForX(n: Pos, x: real, limit: Option<Pos>)
    | WeightedBuyNGetM(buyN: Pos, getM: Pos, percentOff: real, limit: Option<Pos>)

  type BuyNGetMSpecial = s: Special | s.BuyNGetM? witness BuyNGetM(1, 1, 0.0, None)
  type NForXSpecial = s: Special | s.NForX? witness NForX(1, 0.0, None)
  type WeightedBuyNGetMSpecial = s: Special | s.WeightedBuyNGetM? witness WeightedBuyNGetM(1, 1, 0.0, None)

  /** What a special stored by a setter satisfies beyond its types, once the
      validators have passed it. */
  predicate AcceptedSpecial(s: Special)
  {
    match s
    case BuyNGetM(_, _, percentOff, _) => 0.0 <= percentOff <= MAX_PERCENT
    case NForX(_, x, _) => x >= 0.0
    case WeightedBuyNGetM(_, _, percentOff, _) => 0.0 <= percentOff <= MAX_PERCENT
  }

  /** What the data service hands to the calculators; `count` is a unit count
      on the unit channel and an accumulated weight on the weighted channel. */
  datatype ItemData = ItemData(price: real, markdown: real, count: real, special: Option<Special>)

  /** The part of a quantity eligible for a discount, and the part beyond the limit. */
  datatype LimitResult = LimitResult(effectiveCount: real, extraItems: real)
}
