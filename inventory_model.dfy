/**
 * The values shared by the store service and the central projection:
 * the stock record of one partition, the two kinds of inventory event,
 * and the string key "storeId|sku" that both sides use to name a partition.
 */
module InventoryModel {

  /** A point in time. Only carried along; nothing depends on its value. */
  type Instant = int

  datatype Option<T> = None | Some(value: T)

  /** The stock of one partition (a store and a SKU), as the store service keeps it. */
  datatype InventoryRecord = InventoryRecord(
    storeId: string,
    sku: string,
    quantity: int,
    version: int,
    updatedAt: Instant)

  /**
   * The closed family of inventory events: an absolute quantity or a signed
   * change. Both carry the partition, the version the write produced and its time.
   */
  datatype InventoryEvent =
    | StockReplaced(storeId: string, sku: string, quantity: int, version: int, occurredAt: Instant)
    | StockAdjusted(storeId: string, sku: string, delta: int, version: int, occurredAt: Instant)
  {
    /** The key of the partition this event belongs to. */
    function PartitionKey(): string {
      Key(storeId, sku)
    }
  }

  const Separator: char := '|'

  /** The map key of a partition: the store id, a '|' and the SKU. */
  function Key(storeId: string, sku: string): string {
    storeId + [Separator] + sku
  }

  /** The suffix the projection looks for when it totals a SKU. */
  function SkuSuffix(sku: string): string {
    [Separator] + sku
  }

  predicate EndsWith(s: string, suffix: string) {
    |suffix| <= |s| && s[|s| - |suffix|..] == suffix
  }

  /** An identifier in which the key separator does not occur. */
  predicate SeparatorFree(id: string) {
    Separator !in id
  }

  function Max(a: int, b: int): int {
    if a >= b then a else b
  }

  /** The key of every partition is recognised by the suffix of its own SKU. */
  lemma KeyEndsWithOwnSku(storeId: string, sku: string)
    ensures EndsWith(Key(storeId, sku), SkuSuffix(sku))
  {
    var k := Key(storeId, sku);
    assert k[|k| - |SkuSuffix(sku)|..] == SkuSuffix(sku);
  }

  /** A key spells out its store id, then the separator, then its SKU. */
  lemma SeparatorAfterStoreId(storeId: string, sku: string)
    ensures |Key(storeId, sku)| == |storeId| + 1 + |sku|
    ensures Key(storeId, sku)[|storeId|] == Separator
    ensures forall i :: 0 <= i < |storeId| ==> Key(storeId, sku)[i] == storeId[i]
    ensures forall j :: |storeId| < j < |Key(storeId, sku)| ==> Key(storeId, sku)[j] == sku[j - |storeId| - 1]
  {
  }

  /**
   * When the store id holds no separator, two partitions with the same key
   * are the same partition.
   */
  lemma KeyInjective(storeId1: string, sku1: string, storeId2: string, sku2: string)
    requires SeparatorFree(storeId1) && SeparatorFree(storeId2)
    requires Key(storeId1, sku1) == Key(storeId2, sku2)
    ensures storeId1 == storeId2 && sku1 == sku2
  {
    var k := Key(storeId1, sku1);
    SeparatorAfterStoreId(storeId1, sku1);
    SeparatorAfterStoreId(storeId2, sku2);
    if |storeId1| < |storeId2| {
      assert false;
    } else if |storeId2| < |storeId1| {
      assert false;
    }
    assert storeId1 == k[..|storeId1|] == storeId2;
    assert sku1 == k[|storeId1| + 1..] == sku2;
  }

  /**
   * When neither part of a key holds the separator, the key ends with
   * "|" + sku exactly for its own SKU: the projection's suffix filter then
   * selects the partitions of one SKU and no others.
   */
  lemma KeyMatchesOnlyOwnSku(storeId: string, sku: string, other: string)
    requires SeparatorFree(storeId) && SeparatorFree(sku)
    ensures EndsWith(Key(storeId, sku), SkuSuffix(other)) <==> other == sku
  {
    var k := Key(storeId, sku);
    if EndsWith(k, SkuSuffix(other)) {
      var start := |k| - |SkuSuffix(other)|;
      SeparatorAfterStoreId(storeId, sku);
      assert k[start] == SkuSuffix(other)[0] == Separator;
      if |other| < |sku| {
        // the suffix's separator would fall inside the SKU
        assert false;
      } else if |other| > |sku| {
        // the suffix's separator would fall inside the store id
        assert false;
      }
      assert other == k[start + 1..] == sku;
    }
    if other == sku {
      KeyEndsWithOwnSku(storeId, sku);
    }
  }
}
