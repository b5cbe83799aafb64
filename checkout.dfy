/** The checkout session (src/checkout.ts): the catalog maps, the two ledgers
    and a cached total that a scan or an effective removal recomputes from
    scratch. The calculators are the ones of the Pricing and ItemDataService
    modules, except for the weighted special price, which src/checkout.ts
    computes with a loop of its own. */
module Checkout {
  import opened Contract
  import opened Validation
  import opened Pricing
  import opened ItemDataService
  import opened Ledger
  import JsMath

  /** The weighted special price as src/checkout.ts computes it: one group
      price added per complete group, then the remaining and the extra weight
      at the unit price. For a non-negative weight it is the closed form. */
  method InlineWeightedSpecialPrice(price: real, weight: real, special: WeightedBuyNGetMSpecial) returns (total: real)
    requires weight >= 0.0
    ensures total == WeightedSpecialPrice(price, weight, special)
  {
    var groupSize := (special.buyN + special.getM) as real;
    var effectiveWeight := weight;
    if special.limit.Some? {
      effectiveWeight := JsMath.Min(weight, special.limit.value as real);
    }
    var completeGroups := JsMath.Floor(effectiveWeight / groupSize);
    var remainingWeight := JsMath.Rem(effectiveWeight, groupSize);
    var extraWeight := weight - effectiveWeight;
    JsMath.FloorRem(effectiveWeight, groupSize);

    ghost var groupPrice := WeightedBuyNGetMGroupPrice(price, special);
    total := 0.0;
    var i := 0;
    while i < completeGroups
      invariant 0 <= i <= completeGroups
      invariant total == groupPrice * i as real
    {
      ghost var before := total;
      total := total + price * special.buyN as real;
      ghost var middle := total;
      total := total + (price * special.getM as real * (FULL_PERCENT - special.percentOff)) / FULL_PERCENT;
      OneMoreGroup(price, special, i, before, middle, total);
      i := i + 1;
    }
    ghost var loopTotal := total;
    total := total + price * remainingWeight;
    total := total + price * extraWeight;
    LoopMatchesClosedForm(price, weight, special, effectiveWeight, completeGroups, remainingWeight, loopTotal, total);
  }

  /** The two additions of one pass of the loop add one group price. */
  lemma OneMoreGroup(price: real, special: WeightedBuyNGetMSpecial, i: int, before: real, middle: real, after: real)
    requires before == WeightedBuyNGetMGroupPrice(price, special) * i as real
    requires middle == before + price * special.buyN as real
    requires after == middle + (price * special.getM as real * (FULL_PERCENT - special.percentOff)) / FULL_PERCENT
    ensures after == WeightedBuyNGetMGroupPrice(price, special) * (i + 1) as real
  {
    var g := WeightedBuyNGetMGroupPrice(price, special);
    assert after == before + g;
    assert g * (i + 1) as real == g * i as real + g;
  }

  /** What the loop leaves behind, plus the remainder and the extra weight at
      the unit price, is the closed form. */
  lemma LoopMatchesClosedForm(price: real, weight: real, special: WeightedBuyNGetMSpecial, effectiveWeight: real,
                              completeGroups: int, remainingWeight: real, loopTotal: real, total: real)
    requires weight >= 0.0
    requires effectiveWeight == if special.limit.Some? then JsMath.Min(weight, special.limit.value as real) else weight
    requires completeGroups == JsMath.Floor(effectiveWeight / (special.buyN + special.getM) as real)
    requires remainingWeight == JsMath.Rem(effectiveWeight, (special.buyN + special.getM) as real)
    requires loopTotal == WeightedBuyNGetMGroupPrice(price, special) * completeGroups as real
    requires total == loopTotal + price * remainingWeight + price * (weight - effectiveWeight)
    ensures total == WeightedSpecialPrice(price, weight, special)
  {
    assert ApplyLimit(weight, special.limit) == LimitResult(effectiveWeight, weight - effectiveWeight);
    if effectiveWeight == 0.0 {
      NothingEligible(price, weight, special, completeGroups, remainingWeight, loopTotal, total);
    }
  }

  /** With no weight eligible the loop runs no pass and only the extra weight,
      which is none, is charged. */
  lemma NothingEligible(price: real, weight: real, special: WeightedBuyNGetMSpecial,
                        completeGroups: int, remainingWeight: real, loopTotal: real, total: real)
    requires weight >= 0.0
    requires special.limit.Some? ==> JsMath.Min(weight, special.limit.value as real) == 0.0
    requires special.limit.None? ==> weight == 0.0
    requires completeGroups == JsMath.Floor(0.0 / (special.buyN + special.getM) as real)
    requires remainingWeight == JsMath.Rem(0.0, (special.buyN + special.getM) as real)
    requires loopTotal == WeightedBuyNGetMGroupPrice(price, special) * completeGroups as real
    requires total == loopTotal + price * remainingWeight + price * weight
    ensures total == 0.0
  {
    JsMath.FloorRemBelowOneGroup(0.0, (special.buyN + special.getM) as real);
    assert weight == 0.0;
    assert loopTotal == 0.0 && remainingWeight == 0.0;
  }

  /** `calculateWeightedItemTotal` of the data service copy in src/checkout.ts,
      which calls the loop above. */
  method InlineWeightedItemTotal(data: ItemData) returns (total: real)
    requires data.count >= 0.0
    ensures total == CalculateWeightedItemTotal(data)
  {
    var effectivePrice := data.price - data.markdown;
    match data.special {
      case Some(WeightedBuyNGetM(_, _, _, _)) =>
        total := InlineWeightedSpecialPrice(effectivePrice, data.count, data.special.value);
      case _ =>
        total := effectivePrice * data.count;
    }
  }

  class Checkout {
    var prices: map<string, real>
    var markdowns: map<string, real>
    var specials: map<string, Special>
    var scannedItems: map<string, nat>
    var weightedItems: map<string, real>
    var total: real

    /** What the setters and scans maintain. `total` is deliberately not part
        of it: a setter does not refresh it. */
    ghost predicate Valid()
      reads this
    {
      && (forall k :: k in prices ==> prices[k] >= 0.0)
      && (forall k :: k in markdowns ==> markdowns[k] >= 0.0)
      && (forall k :: k in specials ==> AcceptedSpecial(specials[k]))
      && CountsPositive(scannedItems)
      && (forall k :: k in weightedItems ==> weightedItems[k] >= 0.0)
    }

    /** The maps shared with the data service. */
    function CatalogMaps(): Catalog
      reads this
    {
      Catalog(prices, markdowns, specials)
    }

    /** The total a recomputation from scratch yields in the current state. */
    ghost function Recomputed(): real
      reads this
    {
      Total(CatalogMaps(), scannedItems, weightedItems)
    }

    constructor ()
      ensures Valid()
      ensures prices == map[] && markdowns == map[] && specials == map[]
      ensures scannedItems == map[] && weightedItems == map[]
      ensures total == 0.0 && total == Recomputed()
    {
      prices, markdowns, specials := map[], map[], map[];
      scannedItems, weightedItems := map[], map[];
      total := 0.0;
      new;
      EmptyTotal(CatalogMaps());
    }

    /** `setPricing`: stores a non-negative price; the total is not refreshed. */
    method SetPricing(item: string, price: real) returns (outcome: Outcome)
      requires Valid()
      modifies this
      ensures Valid()
      ensures outcome == ValidatePositiveNumber(price, Price)
      ensures prices == if outcome.Pass? then old(prices)[item := price] else old(prices)
      ensures markdowns == old(markdowns) && specials == old(specials)
      ensures scannedItems == old(scannedItems) && weightedItems == old(weightedItems) && total == old(total)
    {
      outcome := ValidatePositiveNumber(price, Price);
      if outcome.Pass? {
        prices := prices[item := price];
      }
    }

    /** `setMarkdown`: stores a non-negative markdown; the total is not refreshed. */
    method SetMarkdown(item: string, markdown: real) returns (outcome: Outcome)
      requires Valid()
      modifies this
      ensures Valid()
      ensures outcome == ValidatePositiveNumber(markdown, Markdown)
      ensures markdowns == if outcome.Pass? then old(markdowns)[item := markdown] else old(markdowns)
      ensures prices == old(prices) && specials == old(specials)
      ensures scannedItems == old(scannedItems) && weightedItems == old(weightedItems) && total == old(total)
    {
      outcome := ValidatePositiveNumber(markdown, Markdown);
      if outcome.Pass? {
        markdowns := markdowns[item := markdown];
      }
    }

    /** `setBuyNGetMPercentOffSpecial`: replaces whatever special the item had. */
    method SetBuyNGetMPercentOffSpecial(item: string, buyN: int, getM: int, percentOff: real, limit: Option<int>)
      returns (outcome: Outcome)
      requires Valid()
      modifies this
      ensures Valid()
      ensures outcome == ValidateSpecialParams(buyN, getM, percentOff, limit)
      ensures outcome.Pass? ==> specials == old(specials)[item := BuyNGetM(buyN, getM, percentOff, CheckedLimit(limit))]
      ensures outcome.Fail? ==> specials == old(specials)
      ensures prices == old(prices) && markdowns == old(markdowns)
      ensures scannedItems == old(scannedItems) && weightedItems == old(weightedItems) && total == old(total)
    {
      outcome := ValidateSpecialParams(buyN, getM, percentOff, limit);
      if outcome.Pass? {
        specials := specials[item := BuyNGetM(buyN, getM, percentOff, CheckedLimit(limit))];
      }
    }

    /** `setBuyNGetMPercentOffSpecialWithLimit`. */
    method SetBuyNGetMPercentOffSpecialWithLimit(item: string, buyN: int, getM: int, percentOff: real, limit: int)
      returns (outcome: Outcome)
      requires Valid()
      modifies this
      ensures Valid()
      ensures outcome == ValidateSpecialParams(buyN, getM, percentOff, Some(limit))
      ensures outcome.Pass? ==> specials == old(specials)[item := BuyNGetM(buyN, getM, percentOff, Some(limit))]
      ensures outcome.Fail? ==> specials == old(specials)
      ensures prices == old(prices) && markdowns == old(markdowns)
      ensures scannedItems == old(scannedItems) && weightedItems == old(weightedItems) && total == old(total)
    {
      outcome := SetBuyNGetMPercentOffSpecial(item, buyN, getM, percentOff, Some(limit));
    }

    /** `setNForXSpecial`: replaces whatever special the item had. */
    method SetNForXSpecial(item: string, n: int, x: real, limit: Option<int>) returns (outcome: Outcome)
      requires Valid()
      modifies this
      ensures Valid()
      ensures outcome == ValidateNForXParams(n, x, limit)
      ensures outcome.Pass? ==> specials == old(specials)[item := NForX(n, x, CheckedLimit(limit))]
      ensures outcome.Fail? ==> specials == old(specials)
      ensures prices == old(prices) && markdowns == old(markdowns)
      ensures scannedItems == old(scannedItems) && weightedItems == old(weightedItems) && total == old(total)
    {
      outcome := ValidateNForXParams(n, x, limit);
      if outcome.Pass? {
        specials := specials[item := NForX(n, x, CheckedLimit(limit))];
      }
    }

    /** `setNForXSpecialWithLimit`. */
    method SetNForXSpecialWithLimit(item: string, n: int, x: real, limit: int) returns (outcome: Outcome)
      requires Valid()
      modifies this
      ensures Valid()
      ensures outcome == ValidateNForXParams(n, x, Some(limit))
      ensures outcome.Pass? ==> specials == old(specials)[item := NForX(n, x, Some(limit))]
      ensures outcome.Fail? ==> specials == old(specials)
      ensures prices == old(prices) && markdowns == old(markdowns)
      ensures scannedItems == old(scannedItems) && weightedItems == old(weightedItems) && total == old(total)
    {
      outcome := SetNForXSpecial(item, n, x, Some(limit));
    }

    /** `setWeightedBuyNGetMPercentOffSpecial`: replaces whatever special the
        item had, a unit special included. */
    method SetWeightedBuyNGetMPercentOffSpecial(item: string, buyN: int, getM: int, percentOff: real, limit: Option<int>)
      returns (outcome: Outcome)
      requires Valid()
      modifies this
      ensures Valid()
      ensures outcome == ValidateSpecialParams(buyN, getM, percentOff, limit)
      ensures outcome.Pass? ==>
        specials == old(specials)[item := WeightedBuyNGetM(buyN, getM, percentOff, CheckedLimit(limit))]
      ensures outcome.Fail? ==> specials == old(specials)
      ensures prices == old(prices) && markdowns == old(markdowns)
      ensures scannedItems == old(scannedItems) && weightedItems == old(weightedItems) && total == old(total)
    {
      outcome := ValidateSpecialParams(buyN, getM, percentOff, limit);
      if outcome.Pass? {
        specials := specials[item := WeightedBuyNGetM(buyN, getM, percentOff, CheckedLimit(limit))];
      }
    }

    /** `scan`: a unit scan without a weight, a weighted scan with one. */
    method Scan(item: string, weight: Option<real>)
      requires Valid()
      requires weight.Some? ==> weight.value >= 0.0
      modifies this
      ensures Valid()
      ensures weight.None? ==> scannedItems == AddUnit(old(scannedItems), item) && weightedItems == old(weightedItems)
      ensures weight.Some? ==>
        weightedItems == AddWeight(old(weightedItems), item, weight.value) && scannedItems == old(scannedItems)
      ensures prices == old(prices) && markdowns == old(markdowns) && specials == old(specials)
      ensures total == Recomputed()
    {
      if weight.Some? {
        ScanWeightedItem(item, weight.value);
      } else {
        ScanUnitItem(item);
      }
    }

    /** `removeItem`: takes back one unit. With none scanned nothing happens,
        and the total is not refreshed either. */
    method RemoveItem(item: string)
      requires Valid()
      modifies this
      ensures Valid()
      ensures scannedItems == RemoveUnit(old(scannedItems), item)
      ensures weightedItems == old(weightedItems)
      ensures prices == old(prices) && markdowns == old(markdowns) && specials == old(specials)
      ensures UnitCount(old(scannedItems), item) == 0 ==> total == old(total)
      ensures UnitCount(old(scannedItems), item) > 0 ==> total == Recomputed()
    {
      var currentCount := UnitCount(scannedItems, item);
      if currentCount > 0 {
        if currentCount == 1 {
          scannedItems := scannedItems - {item};
        } else {
          scannedItems := scannedItems[item := currentCount - 1];
        }
        RecalculateTotal();
      }
    }

    /** `getTotal`: the cached total; it computes nothing. */
    method GetTotal() returns (t: real)
      ensures t == total
    {
      t := total;
    }

    /** `scanUnitItem`. */
    method ScanUnitItem(item: string)
      requires Valid()
      modifies this
      ensures Valid()
      ensures scannedItems == AddUnit(old(scannedItems), item) && weightedItems == old(weightedItems)
      ensures prices == old(prices) && markdowns == old(markdowns) && specials == old(specials)
      ensures total == Recomputed()
    {
      var currentCount := UnitCount(scannedItems, item);
      scannedItems := scannedItems[item := currentCount + 1];
      RecalculateTotal();
    }

    /** `scanWeightedItem`. */
    method ScanWeightedItem(item: string, weight: real)
      requires Valid() && weight >= 0.0
      modifies this
      ensures Valid()
      ensures weightedItems == AddWeight(old(weightedItems), item, weight) && scannedItems == old(scannedItems)
      ensures prices == old(prices) && markdowns == old(markdowns) && specials == old(specials)
      ensures total == Recomputed()
    {
      var currentWeight := ScannedWeight(weightedItems, item);
      weightedItems := weightedItems[item := currentWeight + weight];
      RecalculateTotal();
    }

    /** `recalculateTotal`: resets the total and adds one line per entry of
        each ledger, in whatever order the entries come. */
    method RecalculateTotal()
      requires Valid()
      modifies this`total
      ensures Valid()
      ensures total == Recomputed()
    {
      var catalog := CatalogMaps();
      total := 0.0;

      ghost var unitLines := UnitLines(catalog, scannedItems);
      var pending := scannedItems.Keys;
      ghost var done: set<string> := {};
      while pending != {}
        invariant done !! pending && done + pending == scannedItems.Keys
        invariant total == SumOver(done, unitLines)
        decreases pending
      {
        var item :| item in pending;
        var count := scannedItems[item];
        var itemData := GetItemData(catalog, item, count as real);
        SumOverAdd(done, unitLines, item);
        if itemData.Some? {
          total := total + CalculateItemTotal(itemData.value);
        }
        done := done + {item};
        pending := pending - {item};
      }
      assert done == unitLines.Keys;

      ghost var unitTotal := total;
      ghost var weightLines := WeightLines(catalog, weightedItems);
      var pendingWeights := weightedItems.Keys;
      ghost var weighed: set<string> := {};
      while pendingWeights != {}
        invariant weighed !! pendingWeights && weighed + pendingWeights == weightedItems.Keys
        invariant total == unitTotal + SumOver(weighed, weightLines)
        decreases pendingWeights
      {
        var item :| item in pendingWeights;
        var weight := weightedItems[item];
        var itemData := GetItemData(catalog, item, weight);
        SumOverAdd(weighed, weightLines, item);
        if itemData.Some? {
          var line := InlineWeightedItemTotal(itemData.value);
          total := total + line;
        }
        weighed := weighed + {item};
        pendingWeights := pendingWeights - {item};
      }
      assert weighed == weightLines.Keys;
    }
  }
}
