/** The pricing calculator (src/lib/pricing.ts): the charge for a quantity of
    one item at an effective unit price under a special. Every special splits
    the discount-eligible quantity into complete groups, charged at the group
    price, and a remainder charged at the unit price; whatever a limit leaves
    out is charged at the unit price too. */
module Pricing {
  import opened Contract
  import opened JsMath

  /** `applyLimit`: the quantity eligible for a discount and the quantity beyond the limit. */
  function ApplyLimit(count: real, limit: Option<Pos>): (r: LimitResult)
    ensures r.effectiveCount + r.extraItems == count
    ensures limit.None? ==> r.effectiveCount == count && r.extraItems == 0.0
    ensures limit.Some? ==> r.effectiveCount <= count && r.effectiveCount <= limit.value as real
    ensures limit.Some? ==> r.effectiveCount == count || r.effectiveCount == limit.value as real
    ensures count >= 0.0 ==> r.effectiveCount >= 0.0 && r.extraItems >= 0.0
  {
    match limit
    case Some(l) =>
      var effectiveCount := Min(count, l as real);
      LimitResult(effectiveCount, count - effectiveCount)
    case None => LimitResult(count, 0.0)
  }

  /** `calculateBuyNGetMGroupPrice`: buyN units at full price plus getM units at percentOff off. */
  function BuyNGetMGroupPrice(price: real, special: BuyNGetMSpecial): real
  {
    var fullPriceItems := price * special.buyN as real;
    var discountedItems := (price * special.getM as real * (FULL_PERCENT - special.percentOff)) / FULL_PERCENT;
    fullPriceItems + discountedItems
  }

  /** The unit special with the parameters of a weighted one. */
  function AsUnitSpecial(special: WeightedBuyNGetMSpecial): (r: BuyNGetMSpecial)
    ensures r.buyN == special.buyN && r.getM == special.getM
    ensures r.percentOff == special.percentOff && r.limit == special.limit
  {
    BuyNGetM(special.buyN, special.getM, special.percentOff, special.limit)
  }

  /** `calculateWeightedBuyNGetMGroupPrice`: one group of weight is priced as one group of units. */
  function WeightedBuyNGetMGroupPrice(price: real, special: WeightedBuyNGetMSpecial): (r: real)
    ensures r == BuyNGetMGroupPrice(price, AsUnitSpecial(special))
  {
    var fullPriceItems := price * special.buyN as real;
    var discountedItems := (price * special.getM as real * (FULL_PERCENT - special.percentOff)) / FULL_PERCENT;
    fullPriceItems + discountedItems
  }

  /** `calculateGroupBasedPrice`. */
  function GroupBasedPrice(groupPrice: real, completeGroups: int, itemPrice: real, remainingItems: real): real
  {
    groupPrice * completeGroups as real + itemPrice * remainingItems
  }

  /** `calculateBuyNGetMPrice`. */
  function BuyNGetMPrice(price: real, count: real, special: BuyNGetMSpecial): real
  {
    var groupSize := (special.buyN + special.getM) as real;
    var LimitResult(effectiveCount, extraItems) := ApplyLimit(count, special.limit);
    var completeGroups := Floor(effectiveCount / groupSize);
    var remainingItems := Rem(effectiveCount, groupSize);
    var groupPrice := BuyNGetMGroupPrice(price, special);
    GroupBasedPrice(groupPrice, completeGroups, price, remainingItems) + price * extraItems
  }

  /** `calculateNForXPrice`. */
  function NForXPrice(price: real, count: real, special: NForXSpecial): real
  {
    var LimitResult(effectiveCount, extraItems) := ApplyLimit(count, special.limit);
    var completeGroups := Floor(effectiveCount / special.n as real);
    var remainingItems := Rem(effectiveCount, special.n as real);
    GroupBasedPrice(special.x, completeGroups, price, remainingItems) + price * extraItems
  }

  /** `calculateWeightedSpecialPrice` in its closed form, which charges nothing
      when no weight is eligible for the discount. */
  function WeightedSpecialPrice(price: real, weight: real, special: WeightedBuyNGetMSpecial): real
  {
    var LimitResult(effectiveCount, extraItems) := ApplyLimit(weight, special.limit);
    var groupSize := (special.buyN + special.getM) as real;
    if effectiveCount == 0.0 then 0.0
    else
      var completeGroups := Floor(effectiveCount / groupSize);
      var remainingWeight := Rem(effectiveCount, groupSize);
      var groupPrice := WeightedBuyNGetMGroupPrice(price, special);
      GroupBasedPrice(groupPrice, completeGroups, price, remainingWeight) + price * extraItems
  }

  /** `calculateSpecialPrice`: the charge on the unit channel. A weighted special
      gives no discount there. */
  function CalculateSpecialPrice(price: real, count: real, special: Special): real
  {
    match special
    case BuyNGetM(_, _, _, _) => BuyNGetMPrice(price, count, special)
    case NForX(_, _, _) => NForXPrice(price, count, special)
    case WeightedBuyNGetM(_, _, _, _) => price * count
  }

  // ---------------------------------------------------------------------------
  // Properties of the group split

  /** Splitting a quantity into groups costs nothing extra when a group is
      priced at its full unit price. */
  lemma SplitAtFullPrice(price: real, q: real, size: real)
    requires q >= 0.0 && size > 0.0
    ensures GroupBasedPrice(price * size, Floor(q / size), price, Rem(q, size)) == price * q
  {
    FloorRem(q, size);
    var g := Floor(q / size) as real;
    var rem := Rem(q, size);
    assert g * size + rem == q;
    calc {
      GroupBasedPrice(price * size, Floor(q / size), price, rem);
      price * size * g + price * rem;
      price * (g * size + rem);
    }
  }

  /** A group price between 0 and the full price of a group keeps the charge
      between 0 and the full price of the whole quantity. */
  lemma SplitBounds(groupPrice: real, price: real, q: real, size: real)
    requires q >= 0.0 && size > 0.0 && price >= 0.0
    requires 0.0 <= groupPrice <= price * size
    ensures 0.0 <= GroupBasedPrice(groupPrice, Floor(q / size), price, Rem(q, size)) <= price * q
  {
    FloorRem(q, size);
    var g := Floor(q / size) as real;
    MulMonotone(groupPrice, price * size, g);
    MulMonotone(0.0, groupPrice, g);
    MulMonotone(0.0, Rem(q, size), price);
    SplitAtFullPrice(price, q, size);
  }

  /** The group price of buy-N-get-M: percentOff 100 makes the getM units free,
      percentOff 0 charges the whole group, and anything in between lies between. */
  lemma GroupPriceBounds(price: real, special: BuyNGetMSpecial)
    ensures special.percentOff == FULL_PERCENT ==> BuyNGetMGroupPrice(price, special) == price * special.buyN as real
    ensures special.percentOff == 0.0 ==>
      BuyNGetMGroupPrice(price, special) == price * (special.buyN + special.getM) as real
    ensures 0.0 <= special.percentOff <= MAX_PERCENT && price >= 0.0 ==>
      price * special.buyN as real <= BuyNGetMGroupPrice(price, special) <= price * (special.buyN + special.getM) as real
  {
    var full := price * special.getM as real;
    var kept := FULL_PERCENT - special.percentOff;
    assert BuyNGetMGroupPrice(price, special) == price * special.buyN as real + full * kept / FULL_PERCENT;
    if 0.0 <= special.percentOff <= MAX_PERCENT && price >= 0.0 {
      MulMonotone(0.0, special.getM as real, price);
      MulMonotone(0.0, kept, full);
      MulMonotone(kept, FULL_PERCENT, full);
      assert full * kept / FULL_PERCENT <= full;
      assert price * (special.buyN + special.getM) as real == price * special.buyN as real + full;
    }
  }

  // ---------------------------------------------------------------------------
  // Buy-N-get-M

  /** Without a discount the special charges the full price of every unit. */
  lemma BuyNGetMWithoutDiscountIsFullPrice(price: real, count: real, special: BuyNGetMSpecial)
    requires count >= 0.0 && special.percentOff == 0.0
    ensures BuyNGetMPrice(price, count, special) == price * count
  {
    var size := (special.buyN + special.getM) as real;
    var lr := ApplyLimit(count, special.limit);
    GroupPriceBounds(price, special);
    SplitAtFullPrice(price, lr.effectiveCount, size);
  }

  /** There is no discount for an incomplete group. */
  lemma BuyNGetMNoPartialGroupDiscount(price: real, count: real, special: BuyNGetMSpecial)
    requires special.limit.None? && 0.0 <= count < (special.buyN + special.getM) as real
    ensures BuyNGetMPrice(price, count, special) == price * count
  {
    FloorRemBelowOneGroup(count, (special.buyN + special.getM) as real);
  }

  /** Without a limit, one more complete group of units adds exactly one group price. */
  lemma BuyNGetMAddGroup(price: real, count: real, special: BuyNGetMSpecial)
    requires special.limit.None? && count >= 0.0
    ensures var size := (special.buyN + special.getM) as real;
      BuyNGetMPrice(price, count + size, special) == BuyNGetMPrice(price, count, special) + BuyNGetMGroupPrice(price, special)
  {
    var size := (special.buyN + special.getM) as real;
    FloorRemAddGroup(count, size);
    var g := BuyNGetMGroupPrice(price, special);
    var f := Floor(count / size) as real;
    assert g * (f + 1.0) == g * f + g;
  }

  // ---------------------------------------------------------------------------
  // N-for-X

  /** Without a limit, n more units add exactly the bundle price x. */
  lemma NForXAddGroup(price: real, count: real, special: NForXSpecial)
    requires special.limit.None? && count >= 0.0
    ensures NForXPrice(price, count + special.n as real, special) == NForXPrice(price, count, special) + special.x
  {
    var n := special.n as real;
    FloorRemAddGroup(count, n);
    var f := Floor(count / n) as real;
    assert special.x * (f + 1.0) == special.x * f + special.x;
  }

  /** Without a limit, k bundles of n units cost k times x. */
  lemma NForXWholeBundles(price: real, k: nat, special: NForXSpecial)
    requires special.limit.None?
    ensures NForXPrice(price, (k * special.n) as real, special) == k as real * special.x
  {
    var n := special.n as real;
    var count := (k * special.n) as real;
    assert count == k as real * n;
    DivByProduct(k as real, count, n);
    assert Floor(count / n) == k;
    assert Rem(count, n) == 0.0;
    assert ApplyLimit(count, special.limit) == LimitResult(count, 0.0);
    assert GroupBasedPrice(special.x, k, price, 0.0) + price * 0.0 == k as real * special.x;
  }

  /** A bundle priced at n units' full price charges the full price of every unit. */
  lemma NForXAtFullPrice(price: real, count: real, special: NForXSpecial)
    requires count >= 0.0 && special.x == price * special.n as real
    ensures NForXPrice(price, count, special) == price * count
  {
    var lr := ApplyLimit(count, special.limit);
    SplitAtFullPrice(price, lr.effectiveCount, special.n as real);
  }

  // ---------------------------------------------------------------------------
  // Properties of every special

  /** Above its limit a special charges the full unit price of everything added. */
  lemma BeyondLimitIsFullPrice(price: real, count: real, more: real, special: Special)
    requires special.limit.Some? && count >= special.limit.value as real && more >= 0.0
    ensures CalculateSpecialPrice(price, count + more, special) == CalculateSpecialPrice(price, count, special) + price * more
    ensures special.WeightedBuyNGetM? ==>
      WeightedSpecialPrice(price, count + more, special) == WeightedSpecialPrice(price, count, special) + price * more
  {
    var l := special.limit.value as real;
    assert ApplyLimit(count, special.limit) == LimitResult(l, count - l);
    assert ApplyLimit(count + more, special.limit) == LimitResult(l, count + more - l);
  }

  /** Up to its limit, buy-N-get-M charges what the same special without a limit would. */
  lemma BuyNGetMBelowLimitIsUnlimited(price: real, count: real, special: BuyNGetMSpecial)
    requires special.limit.Some? && count <= special.limit.value as real
    ensures BuyNGetMPrice(price, count, special) ==
      BuyNGetMPrice(price, count, BuyNGetM(special.buyN, special.getM, special.percentOff, None))
  {
    assert ApplyLimit(count, special.limit) == LimitResult(count, 0.0);
  }

  /** Up to its limit, N-for-X charges what the same special without a limit would. */
  lemma NForXBelowLimitIsUnlimited(price: real, count: real, special: NForXSpecial)
    requires special.limit.Some? && count <= special.limit.value as real
    ensures NForXPrice(price, count, special) == NForXPrice(price, count, NForX(special.n, special.x, None))
  {
    assert ApplyLimit(count, special.limit) == LimitResult(count, 0.0);
  }

  /** Up to its limit, the weighted special charges what it would without a limit. */
  lemma WeightedBelowLimitIsUnlimited(price: real, weight: real, special: WeightedBuyNGetMSpecial)
    requires special.limit.Some? && weight <= special.limit.value as real
    ensures WeightedSpecialPrice(price, weight, special) ==
      WeightedSpecialPrice(price, weight, WeightedBuyNGetM(special.buyN, special.getM, special.percentOff, None))
  {
    assert ApplyLimit(weight, special.limit) == LimitResult(weight, 0.0);
  }

  /** Buy-N-get-M never charges less than 0 nor more than full price. */
  lemma BuyNGetMPriceBounds(price: real, count: real, special: BuyNGetMSpecial)
    requires 0.0 <= special.percentOff <= MAX_PERCENT && price >= 0.0 && count >= 0.0
    ensures 0.0 <= BuyNGetMPrice(price, count, special) <= price * count
  {
    var lr := ApplyLimit(count, special.limit);
    MulMonotone(0.0, lr.extraItems, price);
    MulMonotone(0.0, special.buyN as real, price);
    GroupPriceBounds(price, special);
    SplitBounds(BuyNGetMGroupPrice(price, special), price, lr.effectiveCount, (special.buyN + special.getM) as real);
    assert price * count == price * lr.effectiveCount + price * lr.extraItems;
  }

  /** N-for-X never charges less than 0, and no more than full price unless
      the bundle is dearer than its n units. */
  lemma NForXPriceBounds(price: real, count: real, special: NForXSpecial)
    requires 0.0 <= special.x <= price * special.n as real && count >= 0.0
    ensures 0.0 <= NForXPrice(price, count, special) <= price * count
  {
    var lr := ApplyLimit(count, special.limit);
    MulMonotone(0.0, lr.extraItems, price);
    SplitBounds(special.x, price, lr.effectiveCount, special.n as real);
    assert price * count == price * lr.effectiveCount + price * lr.extraItems;
  }

  /** For the parameters the validators accept, a non-negative price and a
      non-negative quantity, a special never charges less than 0 nor more than
      full price, provided an N-for-X bundle is not dearer than its n units. */
  lemma SpecialPriceBounds(price: real, count: real, special: Special)
    requires AcceptedSpecial(special) && price >= 0.0 && count >= 0.0
    requires special.NForX? ==> special.x <= price * special.n as real
    ensures 0.0 <= CalculateSpecialPrice(price, count, special) <= price * count
    ensures special.WeightedBuyNGetM? ==> 0.0 <= WeightedSpecialPrice(price, count, special) <= price * count
  {
    MulMonotone(0.0, count, price);
    match special
    case BuyNGetM(_, _, _, _) =>
      BuyNGetMPriceBounds(price, count, special);
    case NForX(_, _, _) =>
      NForXPriceBounds(price, count, special);
    case WeightedBuyNGetM(_, _, _, _) =>
      WeightedIsUnitGroupArithmetic(price, count, special);
      BuyNGetMPriceBounds(price, count, AsUnitSpecial(special));
  }

  /** The weighted special is the same group arithmetic as the unit one, over
      weight: its early return of 0 agrees with the general formula. */
  lemma WeightedIsUnitGroupArithmetic(price: real, weight: real, special: WeightedBuyNGetMSpecial)
    ensures WeightedSpecialPrice(price, weight, special) == BuyNGetMPrice(price, weight, AsUnitSpecial(special))
  {
    var lr := ApplyLimit(weight, special.limit);
    var size := (special.buyN + special.getM) as real;
    if lr.effectiveCount == 0.0 {
      assert weight == 0.0;
      FloorRemBelowOneGroup(0.0, size);
    }
  }
}
