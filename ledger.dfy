/** The session ledger's state as values (src/checkout.ts:259-405): unit counts
    and accumulated weights per item, how a scan or a removal changes them, and
    the total that a recomputation from scratch yields. The total sums one line
    per scanned item; being a sum over a set of keys, it does not depend on the
    order in which the maps are walked. */
module Ledger {
  import opened Contract
  import opened ItemDataService

  /** `scannedItems.get(item) || 0`. */
  function UnitCount(scanned: map<string, nat>, item: string): nat
  {
    if item in scanned then scanned[item] else 0
  }

  /** `weightedItems.get(item) || 0`. */
  function ScannedWeight(weighted: map<string, real>, item: string): real
  {
    if item in weighted then weighted[item] else 0.0
  }

  /** Every recorded unit count is at least 1: an entry is deleted rather than set to 0. */
  ghost predicate CountsPositive(scanned: map<string, nat>)
  {
    forall k :: k in scanned ==> scanned[k] >= 1
  }

  /** A unit scan (`scanUnitItem`): the item's count goes up by exactly one. */
  function AddUnit(scanned: map<string, nat>, item: string): (r: map<string, nat>)
    ensures item in r && r[item] == UnitCount(scanned, item) + 1
    ensures r - {item} == scanned - {item}
    ensures CountsPositive(scanned) ==> CountsPositive(r)
  {
    scanned[item := UnitCount(scanned, item) + 1]
  }

  /** A weighted scan (`scanWeightedItem`): the weight is added to the item's accumulated weight. */
  function AddWeight(weighted: map<string, real>, item: string, weight: real): (r: map<string, real>)
    ensures item in r && r[item] == ScannedWeight(weighted, item) + weight
    ensures r - {item} == weighted - {item}
  {
    weighted[item := ScannedWeight(weighted, item) + weight]
  }

  /** `removeItem` on the counts: nothing happens when none are scanned, the
      entry disappears when one is, and otherwise the count goes down by one. */
  function RemoveUnit(scanned: map<string, nat>, item: string): (r: map<string, nat>)
    ensures UnitCount(scanned, item) == 0 ==> r == scanned
    ensures UnitCount(scanned, item) == 1 ==> item !in r
    ensures UnitCount(scanned, item) > 1 ==> item in r && r[item] == UnitCount(scanned, item) - 1
    ensures r - {item} == scanned - {item}
    ensures CountsPositive(scanned) ==> CountsPositive(r)
  {
    var currentCount := UnitCount(scanned, item);
    if currentCount == 0 then scanned
    else if currentCount == 1 then scanned - {item}
    else scanned[item := currentCount - 1]
  }

  /** Unit scans of any two items commute. */
  lemma UnitScansCommute(scanned: map<string, nat>, a: string, b: string)
    ensures AddUnit(AddUnit(scanned, a), b) == AddUnit(AddUnit(scanned, b), a)
  {
    if a != b {
      assert AddUnit(AddUnit(scanned, a), b) == scanned[a := UnitCount(scanned, a) + 1][b := UnitCount(scanned, b) + 1];
    }
  }

  /** Weighted scans of any two items commute, also of the same item. */
  lemma WeightedScansCommute(weighted: map<string, real>, a: string, wa: real, b: string, wb: real)
    ensures AddWeight(AddWeight(weighted, a, wa), b, wb) == AddWeight(AddWeight(weighted, b, wb), a, wa)
  {
    if a != b {
      assert AddWeight(AddWeight(weighted, a, wa), b, wb)
          == weighted[a := ScannedWeight(weighted, a) + wa][b := ScannedWeight(weighted, b) + wb];
    }
  }

  /** Removing an item right after scanning it restores the counts. */
  lemma RemoveUndoesScan(scanned: map<string, nat>, item: string)
    requires CountsPositive(scanned)
    ensures RemoveUnit(AddUnit(scanned, item), item) == scanned
  {
    var r := RemoveUnit(AddUnit(scanned, item), item);
    assert r.Keys == scanned.Keys;
  }

  // ---------------------------------------------------------------------------
  // Sums over maps

  /** The sum of `lines[k]` over the keys in `keys`, taken in no particular order. */
  ghost function SumOver(keys: set<string>, lines: map<string, real>): real
    requires keys <= lines.Keys
    decreases keys
  {
    if keys == {} then 0.0
    else
      var k :| k in keys;
      lines[k] + SumOver(keys - {k}, lines)
  }

  ghost function MapSum(lines: map<string, real>): real
  {
    SumOver(lines.Keys, lines)
  }

  /** The sum may be split at any key: the key chosen by the definition is not special. */
  lemma {:induction false} SumOverRemove(keys: set<string>, lines: map<string, real>, k: string)
    requires keys <= lines.Keys && k in keys
    ensures SumOver(keys, lines) == lines[k] + SumOver(keys - {k}, lines)
    decreases keys
  {
    var j :| j in keys && SumOver(keys, lines) == lines[j] + SumOver(keys - {j}, lines);
    if j != k {
      SumOverRemove(keys - {j}, lines, k);
      SumOverRemove(keys - {k}, lines, j);
      assert keys - {j} - {k} == keys - {k} - {j};
    }
  }

  /** The sum over some keys depends only on the values at those keys. */
  lemma {:induction false} SumOverAgree(keys: set<string>, lines: map<string, real>, other: map<string, real>)
    requires keys <= lines.Keys && keys <= other.Keys
    requires forall k :: k in keys ==> lines[k] == other[k]
    ensures SumOver(keys, lines) == SumOver(keys, other)
    decreases keys
  {
    if keys != {} {
      var k :| k in keys;
      SumOverRemove(keys, lines, k);
      SumOverRemove(keys, other, k);
      SumOverAgree(keys - {k}, lines, other);
    }
  }

  /** Taking one more key into a partial sum adds exactly its line. */
  lemma SumOverAdd(done: set<string>, lines: map<string, real>, k: string)
    requires done <= lines.Keys && k in lines && k !in done
    ensures SumOver(done + {k}, lines) == SumOver(done, lines) + lines[k]
  {
    SumOverRemove(done + {k}, lines, k);
    assert done + {k} - {k} == done;
  }

  /** Deleting one line takes exactly its value off the sum. */
  lemma MapSumDelete(lines: map<string, real>, k: string)
    requires k in lines
    ensures MapSum(lines - {k}) == MapSum(lines) - lines[k]
  {
    SumOverRemove(lines.Keys, lines, k);
    assert (lines - {k}).Keys == lines.Keys - {k};
    SumOverAgree(lines.Keys - {k}, lines, lines - {k});
  }

  /** Setting one line changes the sum by the difference at that line only. */
  lemma MapSumUpdate(lines: map<string, real>, k: string, v: real)
    ensures MapSum(lines[k := v]) == MapSum(lines) - (if k in lines then lines[k] else 0.0) + v
  {
    var updated := lines[k := v];
    MapSumDelete(updated, k);
    assert updated - {k} == lines - {k};
    if k in lines {
      MapSumDelete(lines, k);
    } else {
      assert lines - {k} == lines;
    }
  }

  // ---------------------------------------------------------------------------
  // The recomputed total

  /** What one unit entry contributes: nothing when the item has no price. */
  function UnitLine(catalog: Catalog, item: string, count: nat): (r: real)
    ensures item !in catalog.prices ==> r == 0.0
  {
    match GetItemData(catalog, item, count as real)
    case None => 0.0
    case Some(data) => CalculateItemTotal(data)
  }

  /** What one weight entry contributes: nothing when the item has no price. */
  function WeightLine(catalog: Catalog, item: string, weight: real): (r: real)
    ensures item !in catalog.prices ==> r == 0.0
  {
    match GetItemData(catalog, item, weight)
    case None => 0.0
    case Some(data) => CalculateWeightedItemTotal(data)
  }

  function UnitLines(catalog: Catalog, scanned: map<string, nat>): map<string, real>
  {
    map k | k in scanned :: UnitLine(catalog, k, scanned[k])
  }

  function WeightLines(catalog: Catalog, weighted: map<string, real>): map<string, real>
  {
    map k | k in weighted :: WeightLine(catalog, k, weighted[k])
  }

  /** The total that `recalculateTotal` computes from the catalog and both ledgers. */
  ghost function Total(catalog: Catalog, scanned: map<string, nat>, weighted: map<string, real>): real
  {
    MapSum(UnitLines(catalog, scanned)) + MapSum(WeightLines(catalog, weighted))
  }

  /** Adding the line of one more unit entry to a partial sum. */
  lemma UnitLinesStep(catalog: Catalog, seen: map<string, nat>, item: string, count: nat)
    requires item !in seen
    ensures MapSum(UnitLines(catalog, seen[item := count])) == MapSum(UnitLines(catalog, seen)) + UnitLine(catalog, item, count)
  {
    var lines := UnitLines(catalog, seen);
    assert UnitLines(catalog, seen[item := count]) == lines[item := UnitLine(catalog, item, count)];
    MapSumUpdate(lines, item, UnitLine(catalog, item, count));
  }

  /** Adding the line of one more weight entry to a partial sum. */
  lemma WeightLinesStep(catalog: Catalog, seen: map<string, real>, item: string, weight: real)
    requires item !in seen
    ensures MapSum(WeightLines(catalog, seen[item := weight])) == MapSum(WeightLines(catalog, seen)) + WeightLine(catalog, item, weight)
  {
    var lines := WeightLines(catalog, seen);
    assert WeightLines(catalog, seen[item := weight]) == lines[item := WeightLine(catalog, item, weight)];
    MapSumUpdate(lines, item, WeightLine(catalog, item, weight));
  }

  /** With nothing scanned the total is 0. */
  lemma EmptyTotal(catalog: Catalog)
    ensures Total(catalog, map[], map[]) == 0.0
  {
    assert UnitLines(catalog, map[]) == map[];
    assert WeightLines(catalog, map[]) == map[];
  }

  /** A unit scan changes the total only through the scanned item's own line. */
  lemma UnitScanChangesOneLine(catalog: Catalog, scanned: map<string, nat>, weighted: map<string, real>, item: string)
    ensures Total(catalog, AddUnit(scanned, item), weighted)
         == Total(catalog, scanned, weighted)
          - (if item in scanned then UnitLine(catalog, item, scanned[item]) else 0.0)
          + UnitLine(catalog, item, UnitCount(scanned, item) + 1)
  {
    var lines := UnitLines(catalog, scanned);
    assert UnitLines(catalog, AddUnit(scanned, item)) == lines[item := UnitLine(catalog, item, UnitCount(scanned, item) + 1)];
    MapSumUpdate(lines, item, UnitLine(catalog, item, UnitCount(scanned, item) + 1));
  }

  /** A weighted scan changes the total only through the scanned item's own line. */
  lemma WeightedScanChangesOneLine(catalog: Catalog, scanned: map<string, nat>, weighted: map<string, real>,
                                   item: string, weight: real)
    ensures Total(catalog, scanned, AddWeight(weighted, item, weight))
         == Total(catalog, scanned, weighted)
          - (if item in weighted then WeightLine(catalog, item, weighted[item]) else 0.0)
          + WeightLine(catalog, item, ScannedWeight(weighted, item) + weight)
  {
    var lines := WeightLines(catalog, weighted);
    var v := WeightLine(catalog, item, ScannedWeight(weighted, item) + weight);
    assert WeightLines(catalog, AddWeight(weighted, item, weight)) == lines[item := v];
    MapSumUpdate(lines, item, v);
  }

  /** A removal changes the total only through the removed item's own line. */
  lemma RemovalChangesOneLine(catalog: Catalog, scanned: map<string, nat>, weighted: map<string, real>, item: string)
    requires UnitCount(scanned, item) > 0
    ensures Total(catalog, RemoveUnit(scanned, item), weighted)
         == Total(catalog, scanned, weighted)
          - UnitLine(catalog, item, scanned[item])
          + (if scanned[item] == 1 then 0.0 else UnitLine(catalog, item, scanned[item] - 1))
  {
    var lines := UnitLines(catalog, scanned);
    if scanned[item] == 1 {
      assert UnitLines(catalog, RemoveUnit(scanned, item)) == lines - {item};
      MapSumDelete(lines, item);
    } else {
      var v := UnitLine(catalog, item, scanned[item] - 1);
      assert UnitLines(catalog, RemoveUnit(scanned, item)) == lines[item := v];
      MapSumUpdate(lines, item, v);
    }
  }

  /** Scanning an item that has no price leaves the total as it was, on either channel. */
  lemma UnpricedScanAddsNothing(catalog: Catalog, scanned: map<string, nat>, weighted: map<string, real>,
                                item: string, weight: real)
    requires item !in catalog.prices
    ensures Total(catalog, AddUnit(scanned, item), weighted) == Total(catalog, scanned, weighted)
    ensures Total(catalog, scanned, AddWeight(weighted, item, weight)) == Total(catalog, scanned, weighted)
  {
    UnitScanChangesOneLine(catalog, scanned, weighted, item);
    WeightedScanChangesOneLine(catalog, scanned, weighted, item, weight);
  }
}
