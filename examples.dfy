/** The worked examples of tests/src/checkout.test.ts, each driven through a
    fresh `Checkout` session. The totals follow from the contracts of the
    session's methods and from the recomputed total alone. */
module Examples {
  import opened Contract
  import opened Pricing
  import opened ItemDataService
  import opened Ledger
  import opened Checkout
  import JsMath

  /** A session whose ledger holds one kind of unit item totals that item's line. */
  lemma OneUnitEntry(catalog: Catalog, item: string, count: nat)
    ensures Total(catalog, map[item := count], map[]) == UnitLine(catalog, item, count)
  {
    EmptyTotal(catalog);
    UnitLinesStep(catalog, map[], item, count);
  }

  /** A session whose ledger holds one kind of weighed item totals that item's line. */
  lemma OneWeightEntry(catalog: Catalog, item: string, weight: real)
    ensures Total(catalog, map[], map[item := weight]) == WeightLine(catalog, item, weight)
  {
    EmptyTotal(catalog);
    WeightLinesStep(catalog, map[], item, weight);
  }

  /** A session whose ledger holds two kinds of unit items totals their two lines. */
  lemma TwoUnitEntries(catalog: Catalog, a: string, ca: nat, b: string, cb: nat)
    requires a != b
    ensures Total(catalog, map[a := ca, b := cb], map[]) == UnitLine(catalog, a, ca) + UnitLine(catalog, b, cb)
  {
    OneUnitEntry(catalog, a, ca);
    UnitLinesStep(catalog, map[a := ca], b, cb);
  }

  lemma OneFreeGroup()
    ensures BuyNGetMPrice(1.89, 2.0, BuyNGetM(1, 1, 100.0, None)) == 1.89
  {
    assert BuyNGetMGroupPrice(1.89, BuyNGetM(1, 1, 100.0, None)) == 1.89;
    assert JsMath.Floor(2.0 / 2.0) == 1;
    assert JsMath.Rem(2.0, 2.0) == 0.0;
  }

  lemma OneHalfOffPound()
    ensures WeightedSpecialPrice(5.99, 3.0, WeightedBuyNGetM(2, 1, 50.0, None)) == 14.975
  {
    assert WeightedBuyNGetMGroupPrice(5.99, WeightedBuyNGetM(2, 1, 50.0, None)) == 14.975;
    assert JsMath.Floor(3.0 / 3.0) == 1;
    assert JsMath.Rem(3.0, 3.0) == 0.0;
  }

  lemma HalfOffGroup()
    ensures BuyNGetMPrice(2.0, 3.0, BuyNGetM(2, 1, 50.0, None)) == 5.0
  {
    assert BuyNGetMGroupPrice(2.0, BuyNGetM(2, 1, 50.0, None)) == 5.0;
  }

  lemma BundleAndOne()
    ensures NForXPrice(1.89, 4.0, NForX(3, 5.0, None)) == 6.89
  {
    assert JsMath.Floor(4.0 / 3.0) == 1;
    assert JsMath.Rem(4.0, 3.0) == 1.0;
  }

  lemma FreeItemTakenBack()
    ensures BuyNGetMPrice(2.0, 3.0, BuyNGetM(2, 1, 100.0, None)) == 4.0
    ensures BuyNGetMPrice(2.0, 2.0, BuyNGetM(2, 1, 100.0, None)) == 4.0
  {
    assert BuyNGetMGroupPrice(2.0, BuyNGetM(2, 1, 100.0, None)) == 4.0;
    assert JsMath.Floor(2.0 / 3.0) == 0;
    assert JsMath.Rem(2.0, 3.0) == 2.0;
  }

  lemma HalfPoundBeyondGroup()
    ensures WeightedSpecialPrice(5.99, 3.5, WeightedBuyNGetM(2, 1, 50.0, None)) == 17.97
  {
    assert WeightedBuyNGetMGroupPrice(5.99, WeightedBuyNGetM(2, 1, 50.0, None)) == 14.975;
    assert JsMath.Floor(3.5 / 3.0) == 1;
    assert JsMath.Rem(3.5, 3.0) == 0.5;
  }

  lemma SoupAndBreadTotals(catalog: Catalog)
    requires catalog == Catalog(map["soup" := 1.89, "bread" := 2.5], map[], map[])
    ensures Total(catalog, AddUnit(AddUnit(AddUnit(map[], "soup"), "bread"), "soup"), map[]) == 6.28
    ensures Total(catalog, RemoveUnit(AddUnit(AddUnit(AddUnit(map[], "soup"), "bread"), "soup"), "soup"), map[]) == 4.39
  {
    assert AddUnit(AddUnit(AddUnit(map[], "soup"), "bread"), "soup") == map["bread" := 1, "soup" := 2];
    TwoUnitEntries(catalog, "bread", 1, "soup", 2);
    assert RemoveUnit(map["bread" := 1, "soup" := 2], "soup") == map["bread" := 1, "soup" := 1];
    TwoUnitEntries(catalog, "bread", 1, "soup", 1);
  }

  /** One can of soup at 1.89. */
  method UnitPrice() returns (t: real)
    ensures t == 1.89
  {
    var co := new Checkout();
    var _ := co.SetPricing("soup", 1.89);
    co.Scan("soup", None);
    OneUnitEntry(co.CatalogMaps(), "soup", 1);
    t := co.GetTotal();
  }

  /** 2.5 lb of ground beef at 5.99. */
  method WeighedPrice() returns (t: real)
    ensures t == 14.975
  {
    var co := new Checkout();
    var _ := co.SetPricing("ground beef", 5.99);
    co.Scan("ground beef", Some(2.5));
    OneWeightEntry(co.CatalogMaps(), "ground beef", 2.5);
    t := co.GetTotal();
  }

  /** A markdown of 0.20 on a 1.89 can. */
  method UnitMarkdown() returns (t: real)
    ensures t == 1.69
  {
    var co := new Checkout();
    var _ := co.SetPricing("soup", 1.89);
    var _ := co.SetMarkdown("soup", 0.2);
    co.Scan("soup", None);
    OneUnitEntry(co.CatalogMaps(), "soup", 1);
    t := co.GetTotal();
  }

  /** A markdown of 1.00 on 2 lb at 5.99. */
  method WeighedMarkdown() returns (t: real)
    ensures t == 9.98
  {
    var co := new Checkout();
    var _ := co.SetPricing("ground beef", 5.99);
    var _ := co.SetMarkdown("ground beef", 1.0);
    co.Scan("ground beef", Some(2.0));
    OneWeightEntry(co.CatalogMaps(), "ground beef", 2.0);
    t := co.GetTotal();
  }

  /** Buy 1 can, get 1 free, at 1.89: two cans cost one. */
  method BuyOneGetOneFree() returns (t: real)
    ensures t == 1.89
  {
    var co := new Checkout();
    var _ := co.SetPricing("soup", 1.89);
    var _ := co.SetBuyNGetMPercentOffSpecial("soup", 1, 1, 100.0, None);
    ScanRepeatedly(co, "soup", 2);
    OneUnitEntry(co.CatalogMaps(), "soup", 2);
    OneFreeGroup();
    t := co.GetTotal();
  }

  /** Buy 2 loaves, get 1 half off, at 2.00 each. */
  method BuyTwoGetOneHalfOff() returns (t: real)
    ensures t == 5.0
  {
    var co := new Checkout();
    var _ := co.SetPricing("bread", 2.0);
    var _ := co.SetBuyNGetMPercentOffSpecial("bread", 2, 1, 50.0, None);
    ScanRepeatedly(co, "bread", 3);
    OneUnitEntry(co.CatalogMaps(), "bread", 3);
    HalfOffGroup();
    t := co.GetTotal();
  }

  /** Three cans at 1.89 under 3 for 5.00: one bundle. */
  method ThreeForFive() returns (t: real)
    ensures t == 5.0
  {
    var co := new Checkout();
    var _ := co.SetPricing("soup", 1.89);
    var _ := co.SetNForXSpecial("soup", 3, 5.0, None);
    ScanRepeatedly(co, "soup", 3);
    OneUnitEntry(co.CatalogMaps(), "soup", 3);
    NForXWholeBundles(1.89, 1, NForX(3, 5.0, None));
    t := co.GetTotal();
  }

  /** Four cans at 1.89 under 3 for 5.00: one bundle and one can at full price. */
  method ThreeForFivePartial() returns (t: real)
    ensures t == 6.89
  {
    var co := new Checkout();
    var _ := co.SetPricing("soup", 1.89);
    var _ := co.SetNForXSpecial("soup", 3, 5.0, None);
    ScanRepeatedly(co, "soup", 4);
    OneUnitEntry(co.CatalogMaps(), "soup", 4);
    BundleAndOne();
    t := co.GetTotal();
  }

  /** Scans `item` as a unit `times` times. */
  method ScanRepeatedly(co: Checkout, item: string, times: nat)
    requires co.Valid() && co.scannedItems == map[] && times > 0
    modifies co
    ensures co.Valid() && co.scannedItems == map[item := times] && co.weightedItems == old(co.weightedItems)
    ensures co.prices == old(co.prices) && co.markdowns == old(co.markdowns) && co.specials == old(co.specials)
    ensures co.total == co.Recomputed()
  {
    co.Scan(item, None);
    var i := 1;
    while i < times
      invariant 1 <= i <= times
      invariant co.Valid() && co.scannedItems == map[item := i] && co.weightedItems == old(co.weightedItems)
      invariant co.prices == old(co.prices) && co.markdowns == old(co.markdowns) && co.specials == old(co.specials)
      invariant co.total == co.Recomputed()
    {
      assert AddUnit(co.scannedItems, item) == map[item := i + 1];
      co.Scan(item, None);
      i := i + 1;
    }
  }

  /** Nine cans at 2.00 under buy 2 get 1 free, limited to 6: two free cans,
      and the three beyond the limit at full price. */
  method BuyTwoGetOneFreeWithLimit() returns (t: real)
    ensures t == 14.0
  {
    var co := new Checkout();
    var _ := co.SetPricing("soup", 2.0);
    var _ := co.SetBuyNGetMPercentOffSpecial("soup", 2, 1, 100.0, Some(6));
    ScanRepeatedly(co, "soup", 9);
    OneUnitEntry(co.CatalogMaps(), "soup", 9);
    t := co.GetTotal();
  }

  /** Nine loaves at 2.00 under 3 for 5.00, limited to 6: two bundles and
      three loaves at full price. */
  method ThreeForFiveWithLimit() returns (t: real)
    ensures t == 16.0
  {
    var co := new Checkout();
    var _ := co.SetPricing("bread", 2.0);
    var _ := co.SetNForXSpecial("bread", 3, 5.0, Some(6));
    ScanRepeatedly(co, "bread", 9);
    OneUnitEntry(co.CatalogMaps(), "bread", 9);
    t := co.GetTotal();
  }

  /** Two cans and a loaf, then one can taken back. */
  method RemoveAndRecalculate() returns (before: real, after: real)
    ensures before == 6.28 && after == 4.39
  {
    var co := new Checkout();
    var _ := co.SetPricing("soup", 1.89);
    var _ := co.SetPricing("bread", 2.5);
    co.Scan("soup", None);
    co.Scan("bread", None);
    co.Scan("soup", None);
    SoupAndBreadTotals(co.CatalogMaps());
    before := co.GetTotal();
    co.RemoveItem("soup");
    after := co.GetTotal();
  }

  /** Three cans under buy 2 get 1 free; taking the free one back leaves the total as it was. */
  method RemoveTheFreeItem() returns (before: real, after: real)
    ensures before == 4.0 && after == 4.0
  {
    var co := new Checkout();
    var _ := co.SetPricing("soup", 2.0);
    var _ := co.SetBuyNGetMPercentOffSpecial("soup", 2, 1, 100.0, None);
    ScanRepeatedly(co, "soup", 3);
    OneUnitEntry(co.CatalogMaps(), "soup", 3);
    FreeItemTakenBack();
    before := co.GetTotal();
    co.RemoveItem("soup");
    assert co.scannedItems == map["soup" := 2];
    OneUnitEntry(co.CatalogMaps(), "soup", 2);
    after := co.GetTotal();
  }

  /** 2 lb and then 1 lb at 5.99 under buy 2 lb get 1 lb half off: one whole group. */
  method WeighedWholeGroup() returns (t: real)
    ensures t == 14.975
  {
    var co := new Checkout();
    var _ := co.SetPricing("ground beef", 5.99);
    var _ := co.SetWeightedBuyNGetMPercentOffSpecial("ground beef", 2, 1, 50.0, None);
    co.Scan("ground beef", Some(2.0));
    co.Scan("ground beef", Some(1.0));
    assert co.weightedItems == map["ground beef" := 3.0];
    OneWeightEntry(co.CatalogMaps(), "ground beef", 3.0);
    OneHalfOffPound();
    t := co.GetTotal();
  }

  /** 1.5 lb and then 2 lb at 5.99 under buy 2 lb get 1 lb half off: one
      group of 3 lb and half a pound at full price. */
  method WeighedPartialGroup() returns (t: real)
    ensures t == 17.97
  {
    var co := new Checkout();
    var _ := co.SetPricing("ground beef", 5.99);
    var _ := co.SetWeightedBuyNGetMPercentOffSpecial("ground beef", 2, 1, 50.0, None);
    co.Scan("ground beef", Some(1.5));
    co.Scan("ground beef", Some(2.0));
    assert co.weightedItems == map["ground beef" := 3.5];
    OneWeightEntry(co.CatalogMaps(), "ground beef", 3.5);
    HalfPoundBeyondGroup();
    t := co.GetTotal();
  }
}
