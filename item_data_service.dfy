/** The per-item lookup and charge (src/lib/item.dataservice.ts, copied inline
    in src/checkout.ts:211-257). The service reads the catalog maps it is given
    and never writes them; being a value here, it cannot. */
module ItemDataService {
  import opened Contract
  import opened Pricing

  /** The catalog maps injected into the service. */
  datatype Catalog = Catalog(prices: map<string, real>, markdowns: map<string, real>, specials: map<string, Special>)

  /** `getItemData`: nothing for an unpriced item; a missing markdown counts as 0. */
  function GetItemData(catalog: Catalog, item: string, count: real): (r: Option<ItemData>)
    ensures r.None? <==> item !in catalog.prices
    ensures r.Some? ==> r.value.price == catalog.prices[item] && r.value.count == count
    ensures r.Some? ==> r.value.markdown == if item in catalog.markdowns then catalog.markdowns[item] else 0.0
    ensures r.Some? ==> (r.value.special.Some? <==> item in catalog.specials)
    ensures r.Some? && item in catalog.specials ==> r.value.special.value == catalog.specials[item]
  {
    if item !in catalog.prices then None
    else
      var markdown := if item in catalog.markdowns then catalog.markdowns[item] else 0.0;
      var special := if item in catalog.specials then Some(catalog.specials[item]) else None;
      Some(ItemData(catalog.prices[item], markdown, count, special))
  }

  /** `calculateItemTotal`: the charge for scanned units at the marked-down price. */
  function CalculateItemTotal(data: ItemData): (r: real)
    // a weighted special is ignored on the unit channel
    ensures data.special.None? || data.special.value.WeightedBuyNGetM? ==>
      r == (data.price - data.markdown) * data.count
    ensures data.special.Some? ==> r == CalculateSpecialPrice(data.price - data.markdown, data.count, data.special.value)
  {
    var effectivePrice := data.price - data.markdown;
    match data.special
    case None => effectivePrice * data.count
    case Some(special) => CalculateSpecialPrice(effectivePrice, data.count, special)
  }

  /** `calculateWeightedItemTotal`: the charge for scanned weight; only a
      weighted special applies on this channel. */
  function CalculateWeightedItemTotal(data: ItemData): (r: real)
    // a unit special is ignored on the weighted channel
    ensures data.special.None? || !data.special.value.WeightedBuyNGetM? ==>
      r == (data.price - data.markdown) * data.count
    ensures data.special.Some? && data.special.value.WeightedBuyNGetM? ==>
      r == WeightedSpecialPrice(data.price - data.markdown, data.count, data.special.value)
  {
    var effectivePrice := data.price - data.markdown;
    match data.special
    case Some(WeightedBuyNGetM(_, _, _, _)) => WeightedSpecialPrice(effectivePrice, data.count, data.special.value)
    case _ => effectivePrice * data.count
  }
}
