# Point-of-sale checkout total, modelled in Dafny

This project models the pricing and aggregation engine of a point-of-sale
checkout (the `kata-pos-checkout-order-total` repository). A `Checkout` session
keeps a catalog of unit prices, markdowns and at most one special per item. It
also keeps a ledger of scanned unit counts and scanned weights, plus a cached
total. A scan or an effective removal recomputes the total from scratch. Each
ledger entry is charged at the marked-down price, with the special that fits
the scan channel applied to it.

There are three kinds of special:
- buy N get M at a percentage off;
- N for a fixed price X;
- a weighted buy N get M.

Each may carry a limit on the quantity it discounts.

`src/checkout.ts` contains its own copies of the validation service, the
pricing calculator and the item data service. Apart from the weighted special
price (see below), they are identical to the refactored versions in `src/lib/`.
The model states each of them once, as pure functions in the modules
`Validation`, `Pricing` and `ItemDataService`, and the `Checkout` class uses
them. The one copy that differs is the weighted special price in
`src/checkout.ts:152-180`. It accumulates group prices in a counted loop, while
`src/lib/pricing.ts:79-103` computes a closed form that returns 0 early. The
loop is modelled as the method `Checkout.InlineWeightedSpecialPrice`, which is
proved equal to the closed form for every non-negative weight.

Modules:
- `Contract`: the data model. It holds the three-variant `Special`, `ItemData`,
  `LimitResult`, the constants `FULL_PERCENT` and `MAX_PERCENT`, the subset
  types `BuyNGetMSpecial`, `NForXSpecial` and `WeightedBuyNGetMSpecial`, and
  the predicate `AcceptedSpecial`: what a special that passed validation
  satisfies.
- `JsMath`: `Math.min`, `Math.floor` and the JavaScript remainder operator `%`.
  `%` takes the sign of the dividend (it truncates the quotient toward zero),
  and the model writes it out exactly:
  `a - trunc(a / b) * b`.
- `Validation`: the parameter checks. Each returns `Pass` or `Fail(error)`, and
  the first rule violated wins, the same way a `throw` ends the TypeScript
  check.
- `Pricing`: the limit split, the group prices, the group-based charge and the
  dispatch on the kind of special.
- `ItemDataService`: the catalog lookup and the per-item charge on the unit and
  on the weighted channel.
- `Ledger`: the scanned counts and weights as values, and how scans and
  removals change them. It also defines the total a recomputation yields, as an
  order-independent sum over the ledger's keys.
- `Checkout`: the session class.
  - Its fields are the five maps and `total`.
  - Setters, `Scan`, `ScanUnitItem`, `ScanWeightedItem` and `RemoveItem` update
    the maps in place.
  - `RecalculateTotal` accumulates `total` in two loops over the ledgers.
  - It also holds the loop version of the weighted special price.
- `Examples`: the worked examples of `tests/src/checkout.test.ts`, each driven
  through a fresh `Checkout` and proved to give the expected total.

Quantities are exact:
- money, percentages and weights are `real`;
- scanned unit counts are `nat`;
- the integer parameters of a special (`buyN`, `getM`, `n`, `limit`) are `int`
  when passed to a setter, and positive once stored.

The cached total is not always current:
- The code refreshes `total` only after a scan, or after a removal that takes
  a unit back.
  - The configuration setters leave it alone, and so does removing an item
    that has no scanned units.
  - So `total == Recomputed()` is a postcondition of `Scan`, `ScanUnitItem`,
    `ScanWeightedItem` and of an effective `RemoveItem`. It is not part of the
    class invariant `Valid()`.
  - Each setter states `total == old(total)`.

## Model

| member | source | states |
|---|---|---|
| JsMath.Min | src/lib/pricing.ts:14 | `Math.min`: the result is one of the two arguments and is at most both |
| JsMath.Floor | src/lib/pricing.ts:30 | `Math.floor`: the greatest integer not above its argument |
| JsMath.Rem | src/lib/pricing.ts:31 | the JavaScript `%` on numbers, whose result takes the sign of the dividend (it truncates the quotient toward zero); for a non-negative dividend `FloorRem` proves that `Floor(q / size)` groups and `Rem(q, size)` left over, at least 0 and below `size`, split `q` exactly, and `FloorRemAddGroup` and `FloorRemBelowOneGroup` state one more group and less than one group |
| Validation.ValidatePositiveNumber | src/lib/validation.ts:4-8 | fails exactly when the value is negative, naming the parameter; zero is accepted |
| Validation.ValidateLimit | src/lib/validation.ts:25-28 | an absent limit passes; a given limit passes exactly when it is at least 1 |
| Validation.ValidateSpecialParams | src/lib/validation.ts:10-29 | passes iff buyN > 0, getM > 0, 0 <= percentOff <= 100 and any limit is > 0; a negative buyN, then getM, then percentOff is reported as a non-negativity failure before any zero or over-100 check |
| Validation.ValidateNForXParams | src/lib/validation.ts:31-41 | passes iff n > 0, x >= 0 (so x = 0 is accepted) and any limit is > 0; a negative n, then x, is reported as a non-negativity failure before the zero check |
| Validation.BoundaryPercentagesAccepted | src/lib/validation.ts:18-23 | percentOff 0 and 100 are both accepted and 100.5 fails as exceeding the maximum |
| Pricing.ApplyLimit | src/lib/pricing.ts:12-19 | effective + extra = count; without a limit the whole count is effective; with one, effective = min(count, limit); both parts are non-negative for a non-negative count |
| Pricing.BuyNGetMGroupPrice | src/lib/pricing.ts:45-55 | one group charged as buyN units at the unit price plus getM units at (100 − percentOff)% of it; `GroupPriceBounds` states its value at 100% and 0% off and its bounds in between |
| Pricing.GroupBasedPrice | src/lib/pricing.ts:117-126 | complete groups at the group price plus the remaining quantity at the unit price; `SplitAtFullPrice` and `SplitBounds` state what it charges at and below the full group price |
| Pricing.BuyNGetMPrice | src/lib/pricing.ts:21-43 | the limit split, then complete groups of buyN+getM at the group price, the rest and the quantity beyond the limit at the unit price; its properties are `BuyNGetMWithoutDiscountIsFullPrice`, `BuyNGetMNoPartialGroupDiscount`, `BuyNGetMAddGroup`, `BuyNGetMBelowLimitIsUnlimited`, `BeyondLimitIsFullPrice` and `BuyNGetMPriceBounds` |
| Pricing.NForXPrice | src/lib/pricing.ts:57-77 | the limit split, then complete bundles of n at x, the rest and the quantity beyond the limit at the unit price; its properties are `NForXAddGroup`, `NForXWholeBundles`, `NForXAtFullPrice`, `NForXBelowLimitIsUnlimited`, `BeyondLimitIsFullPrice` and `NForXPriceBounds` |
| Pricing.WeightedSpecialPrice | src/lib/pricing.ts:79-103 | 0 when no weight is eligible, otherwise the buy-N-get-M group arithmetic on the weight; `WeightedIsUnitGroupArithmetic` proves it equal to the unit charge, and `WeightedBelowLimitIsUnlimited`, `BeyondLimitIsFullPrice` and `SpecialPriceBounds` state its limit behaviour and bounds |
| Pricing.CalculateSpecialPrice | src/lib/pricing.ts:128-143 | the unit-channel dispatch: buy-N-get-M and N-for-X go to their calculators and a weighted special charges price·count; `SpecialPriceBounds` and `BeyondLimitIsFullPrice` state its bounds and its behaviour past the limit |
| Pricing.GroupPriceBounds | src/lib/pricing.ts:45-55 | the group price is price·buyN at 100% off and price·(buyN+getM) at 0% off, and lies between the two for 0 <= percentOff <= 100 and a non-negative price |
| Pricing.WeightedBuyNGetMGroupPrice | src/lib/pricing.ts:105-115 | a weighted group is priced exactly as a unit group with the same buyN, getM and percentOff |
| Pricing.SplitAtFullPrice | src/lib/pricing.ts:117-126 | splitting a non-negative quantity into complete groups plus a remainder costs price·quantity when a group costs its full unit price |
| Pricing.SplitBounds | src/lib/pricing.ts:117-126 | for a non-negative quantity, a group price between 0 and the group's full price keeps the group-based charge between 0 and price·quantity |
| Pricing.BuyNGetMWithoutDiscountIsFullPrice | src/lib/pricing.ts:21-55 | buy-N-get-M at 0% off charges price·count for every non-negative count and every limit |
| Pricing.BuyNGetMNoPartialGroupDiscount | src/lib/pricing.ts:21-43 | without a limit, a non-negative count below buyN+getM is charged price·count: an incomplete group gets no discount |
| Pricing.BuyNGetMAddGroup | src/lib/pricing.ts:21-43 | without a limit, for a non-negative count, buyN+getM more units add exactly one group price |
| Pricing.NForXAddGroup | src/lib/pricing.ts:57-77 | without a limit, for a non-negative count, n more units add exactly the bundle price x |
| Pricing.NForXWholeBundles | src/lib/pricing.ts:57-77 | without a limit, k·n units cost k·x |
| Pricing.NForXAtFullPrice | src/lib/pricing.ts:57-77 | a bundle priced at its n units' full price charges price·count for every non-negative count and every limit |
| Pricing.BeyondLimitIsFullPrice | src/lib/pricing.ts:12-103 | once the count reaches the limit, every further unit or weight is charged the full unit price, for every kind of special and for the weighted closed form |
| Pricing.BuyNGetMBelowLimitIsUnlimited | src/lib/pricing.ts:12-43 | while the count is at most the limit, buy-N-get-M charges exactly what the same special without a limit charges |
| Pricing.NForXBelowLimitIsUnlimited | src/lib/pricing.ts:57-77 | while the count is at most the limit, N-for-X charges exactly what the same special without a limit charges |
| Pricing.WeightedBelowLimitIsUnlimited | src/lib/pricing.ts:79-103 | while the weight is at most the limit, the weighted special charges exactly what it charges without a limit |
| Pricing.BuyNGetMPriceBounds | src/lib/pricing.ts:21-55 | for 0 <= percentOff <= 100 and non-negative price and count, the charge lies between 0 and price·count |
| Pricing.NForXPriceBounds | src/lib/pricing.ts:57-77 | for 0 <= x <= price·n and a non-negative count, the charge lies between 0 and price·count |
| Pricing.SpecialPriceBounds | src/lib/pricing.ts:128-143 | for an accepted special, a non-negative price and a non-negative count, and for N-for-X a bundle price x ≤ price·n, the unit-channel charge and the weighted charge lie between 0 and price·count |
| Pricing.WeightedIsUnitGroupArithmetic | src/lib/pricing.ts:79-103 | the weighted closed form, including its early 0 when no weight is eligible, equals the unit buy-N-get-M charge on the same quantity |
| ItemDataService.GetItemData | src/lib/item.dataservice.ts:11-19 | nothing exactly when the item has no price; otherwise its price, the markdown or 0, the count unchanged, and the special exactly when one is set |
| ItemDataService.CalculateItemTotal | src/lib/item.dataservice.ts:21-34 | (price − markdown)·count without a special or with a weighted one; otherwise the special's charge at the effective price price − markdown |
| ItemDataService.CalculateWeightedItemTotal | src/lib/item.dataservice.ts:36-49 | (price − markdown)·weight unless the special is weighted; with a weighted special, its closed-form charge at the effective price |
| Ledger.UnitCount | src/checkout.ts:361 | `scannedItems.get(item)` defaulting to 0: the recorded count, or 0 for an unscanned item; `AddUnit` and `RemoveUnit` state the counts they leave in terms of it |
| Ledger.ScannedWeight | src/checkout.ts:383 | `weightedItems.get(item)` defaulting to 0: the accumulated weight, or 0 for an item never weighed; `AddWeight` states the new weight in terms of it |
| Ledger.AddUnit | src/checkout.ts:376-380 | the item's count becomes its old count (0 if absent) plus one; no other entry changes; counts stay positive |
| Ledger.AddWeight | src/checkout.ts:382-386 | the item's weight becomes its old weight (0 if absent) plus the scanned weight; no other entry changes |
| Ledger.RemoveUnit | src/checkout.ts:360-367 | no change at count 0; the entry is deleted at count 1; otherwise the count drops by one; no other entry changes; counts stay positive |
| Ledger.UnitScansCommute | src/checkout.ts:376-380 | unit scans of any two items in either order give the same counts |
| Ledger.WeightedScansCommute | src/checkout.ts:382-386 | weighted scans in either order give the same weights |
| Ledger.RemoveUndoesScan | src/checkout.ts:360-380 | for counts that are all positive, as a session's always are, removing an item just scanned restores them |
| Ledger.UnitLine | src/checkout.ts:391-396 | an unpriced unit entry contributes 0 |
| Ledger.WeightLine | src/checkout.ts:398-403 | an unpriced weight entry contributes 0 |
| Ledger.UnitScanChangesOneLine | src/checkout.ts:376-404 | a unit scan changes the recomputed total only by the scanned item's own line, old line out and new line in |
| Ledger.WeightedScanChangesOneLine | src/checkout.ts:382-404 | a weighted scan changes the recomputed total only by the scanned item's own line |
| Ledger.RemovalChangesOneLine | src/checkout.ts:360-404 | an effective removal changes the recomputed total only by the removed item's own line |
| Ledger.UnpricedScanAddsNothing | src/checkout.ts:388-404 | scanning an unpriced item, on either channel, leaves the recomputed total unchanged |
| Checkout.InlineWeightedSpecialPrice | src/checkout.ts:152-180 | the loop that adds one group price per complete group, then the remainder and the extra weight, returns the closed-form weighted charge for every non-negative weight |
| Checkout.OneMoreGroup | src/checkout.ts:171-174 | one pass of the loop takes `total = i·groupPrice` to `(i+1)·groupPrice` |
| Checkout.LoopMatchesClosedForm | src/checkout.ts:165-179 | for a non-negative weight, the loop's result plus remainder and extra weight is the closed form, including the case where no weight is eligible |
| Checkout.InlineWeightedItemTotal | src/checkout.ts:243-256 | for a non-negative weight, the weighted-channel charge, computed with the loop, equals the data service's weighted charge |
| Checkout.Checkout.constructor | src/checkout.ts:259-274 | a new session has empty maps and a total of 0, which is the recomputed total |
| Checkout.Checkout.SetPricing | src/checkout.ts:276-279 | a non-negative price is stored and a negative one fails; nothing else changes, the total included |
| Checkout.Checkout.SetMarkdown | src/checkout.ts:281-284 | a non-negative markdown is stored and a negative one fails; nothing else changes, the total included |
| Checkout.Checkout.SetBuyNGetMPercentOffSpecial | src/checkout.ts:286-302 | on valid parameters the item's single special is overwritten with this buy-N-get-M; on invalid ones nothing changes; the total never changes |
| Checkout.Checkout.SetBuyNGetMPercentOffSpecialWithLimit | src/checkout.ts:304-312 | as the setter above with the limit given |
| Checkout.Checkout.SetNForXSpecial | src/checkout.ts:314-323 | on valid parameters the item's single special is overwritten with this N-for-X; on invalid ones nothing changes; the total never changes |
| Checkout.Checkout.SetNForXSpecialWithLimit | src/checkout.ts:325-332 | as the setter above with the limit given |
| Checkout.Checkout.SetWeightedBuyNGetMPercentOffSpecial | src/checkout.ts:334-350 | on valid parameters the item's single special, a unit special included, is replaced by this weighted one; on invalid ones nothing changes; the total never changes |
| Checkout.Checkout.Scan | src/checkout.ts:352-358 | without a weight, a unit scan; with one, a weighted scan; either way the total is then the recomputed total |
| Checkout.Checkout.RemoveItem | src/checkout.ts:360-370 | the counts change as `RemoveUnit` says; with no unit scanned the total is left as it was (possibly stale); otherwise it is the recomputed total |
| Checkout.Checkout.GetTotal | src/checkout.ts:372-374 | returns the cached total |
| Checkout.Checkout.ScanUnitItem | src/checkout.ts:376-380 | the counts change as `AddUnit` says, the weights and the catalog not at all, and the total is the recomputed total |
| Checkout.Checkout.ScanWeightedItem | src/checkout.ts:382-386 | the weights change as `AddWeight` says, the counts and the catalog not at all, and the total is the recomputed total |
| Checkout.Checkout.RecalculateTotal | src/checkout.ts:388-404 | walking both ledgers in any order, adding each priced entry's charge on its channel, yields the sum of all lines |
| Examples.UnitPrice | tests/src/checkout.test.ts:5-11 | one can at 1.89 totals 1.89 |
| Examples.WeighedPrice | tests/src/checkout.test.ts:15-21 | 2.5 lb at 5.99 totals 14.975 |
| Examples.UnitMarkdown | tests/src/checkout.test.ts:25-32 | a 0.20 markdown on 1.89 totals 1.69 |
| Examples.WeighedMarkdown | tests/src/checkout.test.ts:34-41 | 2 lb at 5.99 with a 1.00 markdown totals 9.98 |
| Examples.BuyOneGetOneFree | tests/src/checkout.test.ts:45-53 | two cans under buy 1 get 1 free at 1.89 total 1.89 |
| Examples.BuyTwoGetOneHalfOff | tests/src/checkout.test.ts:55-64 | three loaves under buy 2 get 1 half off at 2.00 total 5.00 |
| Examples.ThreeForFive | tests/src/checkout.test.ts:68-77 | three cans under 3 for 5.00 total 5.00 |
| Examples.ThreeForFivePartial | tests/src/checkout.test.ts:79-89 | four cans at 1.89 under 3 for 5.00 total 6.89 |
| Examples.BuyTwoGetOneFreeWithLimit | tests/src/checkout.test.ts:93-103 | nine cans at 2.00 under buy 2 get 1 free limited to 6 total 14.00 |
| Examples.ThreeForFiveWithLimit | tests/src/checkout.test.ts:105-115 | nine loaves at 2.00 under 3 for 5.00 limited to 6 total 16.00 |
| Examples.RemoveAndRecalculate | tests/src/checkout.test.ts:119-131 | two cans at 1.89 and a loaf at 2.50 total 6.28, and 4.39 after one can is removed |
| Examples.RemoveTheFreeItem | tests/src/checkout.test.ts:133-145 | three cans under buy 2 get 1 free at 2.00 total 4.00, and still 4.00 after one is removed |
| Examples.WeighedWholeGroup | tests/src/checkout.test.ts:149-157 | 2 lb then 1 lb at 5.99 under buy 2 lb get 1 lb half off total 14.975 |
| Examples.WeighedPartialGroup | tests/src/checkout.test.ts:159-167 | 1.5 lb then 2 lb at 5.99 under buy 2 lb get 1 lb half off total 17.97 |

## Left out

- IEEE-754 doubles and the tests' `toBeCloseTo` tolerances: every quantity is
  an exact real, so 6.28, 4.39 and 14.975 hold exactly.
- The text of the error messages: a failed check returns a `ValidationError`
  naming the rule and the parameter, not the message string.
- The `default: throw` branch of `calculateSpecialPrice`: `Special` is a closed
  datatype, so that branch cannot be reached.
- Fractional, NaN or infinite `buyN`, `getM`, `n` and `limit`: the setters take
  them as integers. Fractional prices, markdowns, percentages, bundle prices
  and weights are modelled.
- Checkout.Checkout.Scan: requires a non-negative weight. The source does not
  guard against negative weights, and the loop version of the weighted price
  matches the closed form only for non-negative weights.
- Checkout.Checkout.ScanWeightedItem: requires a non-negative weight, for the
  same reason as `Scan`: the source accepts any weight.
- Checkout.InlineWeightedSpecialPrice: requires a non-negative weight, for the
  reason given for `Scan`.
- Checkout.InlineWeightedItemTotal: requires a non-negative weight. For a
  negative one the loop runs no pass and the charge differs from the closed
  form.
- A markdown greater than the price is allowed, as in the source. It gives a
  negative effective price, and the bounds lemmas then require a non-negative
  price.
- The order in which JavaScript `Map`s are walked (insertion order): the
  recomputed total is a sum over a set of keys. `RecalculateTotal` is proved to
  give that sum for whichever order it picks, so insertion order cannot
  matter.
- Aliasing between the session and its item data service: the service
  reads its maps by reference in the source. Here the session passes its
  current maps as a `Catalog` value, which the service cannot change.
- `src/lib/contract.ts`: types and constants only. Its `Special`, `ItemData`,
  `LimitResult`, `FULL_PERCENT` and `MAX_PERCENT` are mirrored in `Contract`.
- `src/lib/itemCatalog.ts` and its tests: a map wrapper that is not connected
  to the checkout engine.
