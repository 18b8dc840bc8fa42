/**
 * The central projection. It consumes inventory events, keeps for each
 * "storeId|sku" key the last accepted version and quantity, drops every event
 * whose version is not newer than the one recorded for its key, and after an
 * accepted event recomputes the SKU's global total as the sum of all per-store
 * quantities whose key ends with "|" + sku.
 */
module CentralProjection {
  import opened InventoryModel

  /** What the entry under `k` adds to the total of `sku`. */
  function Contribution(k: string, quantity: int, sku: string): int {
    if EndsWith(k, SkuSuffix(sku)) then quantity else 0
  }

  /** The sum of the per-store quantities whose key ends with "|" + sku. */
  ghost function Total(m: map<string, int>, sku: string): int
    decreases |m|
  {
    if m == map[] then 0
    else
      var k :| k in m;
      Contribution(k, m[k], sku) + Total(m - {k}, sku)
  }

  /** The total may be taken out entry by entry in any order. */
  lemma {:induction false} TotalRemove(m: map<string, int>, k: string, sku: string)
    requires k in m
    ensures Total(m, sku) == Contribution(k, m[k], sku) + Total(m - {k}, sku)
    decreases |m|
  {
    var k' :| k' in m && Total(m, sku) == Contribution(k', m[k'], sku) + Total(m - {k'}, sku);
    if k' != k {
      TotalRemove(m - {k'}, k, sku);
      TotalRemove(m - {k}, k', sku);
      assert m - {k'} - {k} == m - {k} - {k'};
    }
  }

  /** Writing an entry whose key does not end with "|" + sku leaves that SKU's total alone. */
  lemma TotalUpdateUnmatched(m: map<string, int>, k: string, v: int, sku: string)
    requires !EndsWith(k, SkuSuffix(sku))
    ensures Total(m[k := v], sku) == Total(m, sku)
  {
    TotalRemove(m[k := v], k, sku);
    if k in m {
      TotalRemove(m, k, sku);
      assert m[k := v] - {k} == m - {k};
    } else {
      assert m[k := v] - {k} == m;
    }
  }

  /** A single entry contributes its quantity exactly when its key carries the SKU's suffix. */
  lemma TotalOfOne(k: string, v: int, sku: string)
    ensures Total(map[k := v], sku) == Contribution(k, v, sku)
  {
    TotalRemove(map[k := v], k, sku);
    assert map[k := v] - {k} == map[];
  }

  /** Two entries under distinct keys contribute independently. */
  lemma TotalOfTwo(k1: string, v1: int, k2: string, v2: int, sku: string)
    requires k1 != k2
    ensures Total(map[k1 := v1, k2 := v2], sku) == Contribution(k1, v1, sku) + Contribution(k2, v2, sku)
  {
    TotalRemove(map[k1 := v1, k2 := v2], k2, sku);
    assert map[k1 := v1, k2 := v2] - {k2} == map[k1 := v1];
    TotalOfOne(k1, v1, sku);
  }

  /** Totals over non-negative quantities are non-negative. */
  lemma {:induction false} TotalNonNegative(m: map<string, int>, sku: string)
    requires forall k :: k in m ==> m[k] >= 0
    ensures Total(m, sku) >= 0
    decreases |m|
  {
    if m != map[] {
      var k :| k in m;
      TotalRemove(m, k, sku);
      TotalNonNegative(m - {k}, sku);
    }
  }

  /** The stream filter-and-sum over the per-store entries, one entry at a time. */
  method SumForSku(m: map<string, int>, sku: string) returns (total: int)
    ensures total == Total(m, sku)
  {
    total := 0;
    var rest := m;
    while rest != map[]
      invariant total + Total(rest, sku) == Total(m, sku)
      decreases |rest|
    {
      var k :| k in rest;
      TotalRemove(rest, k, sku);
      if EndsWith(k, SkuSuffix(sku)) {
        total := total + rest[k];
      }
      rest := rest - {k};
    }
  }

  /** The projection's three maps, as values. */
  datatype ProjectionState = ProjectionState(
    totals: map<string, int>,
    versions: map<string, int>,
    perStore: map<string, int>)

  const EmptyProjection := ProjectionState(map[], map[], map[])

  function GetOrZero(m: map<string, int>, k: string): int {
    if k in m then m[k] else 0
  }

  /** An event is accepted when its version is newer than the one recorded for its key. */
  predicate Accepts(p: ProjectionState, e: InventoryEvent) {
    e.version > GetOrZero(p.versions, e.PartitionKey())
  }

  /** The per-store quantity an accepted event leaves: set by a replace, moved and clamped at zero by an adjust. */
  function NewStoreQuantity(p: ProjectionState, e: InventoryEvent): int {
    match e
    case StockReplaced(_, _, quantity, _, _) => quantity
    case StockAdjusted(_, _, delta, _, _) => Max(0, GetOrZero(p.perStore, e.PartitionKey()) + delta)
  }

  /** The projection after one event is delivered to it. */
  ghost function Step(p: ProjectionState, e: InventoryEvent): ProjectionState {
    if !Accepts(p, e) then p
    else
      var k := e.PartitionKey();
      var perStore := p.perStore[k := NewStoreQuantity(p, e)];
      ProjectionState(p.totals[e.sku := Total(perStore, e.sku)], p.versions[k := e.version], perStore)
  }

  /** The projection after a sequence of events is delivered to it in order. */
  ghost function Replay(p: ProjectionState, events: seq<InventoryEvent>): ProjectionState {
    if events == [] then p else Step(Replay(p, events[..|events| - 1]), events[|events| - 1])
  }

  /** Every SKU's reported total, 0 for an unseen one, is the sum of its per-store entries. */
  ghost predicate TotalsConsistent(p: ProjectionState) {
    forall sku :: GetOrZero(p.totals, sku) == Total(p.perStore, sku)
  }

  /** Keys with a quantity are exactly the keys with a recorded version, and every recorded version is positive. */
  ghost predicate Coherent(p: ProjectionState) {
    && p.perStore.Keys == p.versions.Keys
    && forall k :: k in p.versions ==> p.versions[k] >= 1
  }

  /** A stale event, whose version is not newer than the recorded one (0 if none), changes nothing. */
  lemma StaleEventIgnored(p: ProjectionState, e: InventoryEvent)
    requires e.version <= GetOrZero(p.versions, e.PartitionKey())
    ensures Step(p, e) == p
  {
  }

  /** An event with version 0 or below is never accepted by a coherent projection. */
  lemma NonPositiveVersionIgnored(p: ProjectionState, e: InventoryEvent)
    requires Coherent(p) && e.version <= 0
    ensures Step(p, e) == p
  {
  }

  /** Delivering the same event twice leaves the same state as delivering it once. */
  lemma StepIdempotent(p: ProjectionState, e: InventoryEvent)
    ensures Step(Step(p, e), e) == Step(p, e)
  {
  }

  /** Of two events for one partition, the older one has no effect once the newer one was applied. */
  lemma OlderEventLoses(p: ProjectionState, newer: InventoryEvent, older: InventoryEvent)
    requires newer.PartitionKey() == older.PartitionKey() && older.version < newer.version
    ensures Step(Step(p, newer), older) == Step(p, newer)
  {
  }

  /**
   * Recorded versions only grow; an accepted event records its own version and
   * leaves every other key's version and quantity as they were.
   */
  lemma StepVersions(p: ProjectionState, e: InventoryEvent)
    ensures var q := Step(p, e);
      && p.versions.Keys <= q.versions.Keys
      && (forall k :: k in p.versions ==> p.versions[k] <= q.versions[k])
      && GetOrZero(q.versions, e.PartitionKey()) >= e.version
      && (forall k :: k != e.PartitionKey() ==> GetOrZero(q.versions, k) == GetOrZero(p.versions, k))
      && (forall k :: k != e.PartitionKey() && k in p.perStore ==> k in q.perStore && q.perStore[k] == p.perStore[k])
  {
  }

  /** Every step keeps the projection coherent. */
  lemma StepCoherent(p: ProjectionState, e: InventoryEvent)
    requires Coherent(p)
    ensures Coherent(Step(p, e))
  {
  }

  /**
   * A step keeps every total equal to its sum when the event's store id and
   * SKU hold no separator: the one key it writes then matches only its own SKU,
   * whose total it recomputes.
   */
  lemma TotalsPreserved(p: ProjectionState, e: InventoryEvent)
    requires TotalsConsistent(p)
    requires SeparatorFree(e.storeId) && SeparatorFree(e.sku)
    ensures TotalsConsistent(Step(p, e))
  {
    if Accepts(p, e) {
      var q := Step(p, e);
      var k := e.PartitionKey();
      forall sku
        ensures GetOrZero(q.totals, sku) == Total(q.perStore, sku)
      {
        if sku != e.sku {
          KeyMatchesOnlyOwnSku(e.storeId, e.sku, sku);
          TotalUpdateUnmatched(p.perStore, k, NewStoreQuantity(p, e), sku);
        }
      }
    }
  }

  /**
   * Without the separator-free condition the invariant breaks: from a
   * consistent projection holding B/Y = 1, an event for store "A" and SKU
   * "X|Y" writes key "A|X|Y", which also ends with "|Y", yet only the total
   * of "X|Y" is recomputed; the total of "Y" stays 1 while its entries sum to 4.
   */
  lemma SeparatorInSkuBreaksTotals(now: Instant)
    ensures var p := Step(EmptyProjection, StockReplaced("B", "Y", 1, 1, now));
      var q := Step(p, StockReplaced("A", "X|Y", 3, 1, now));
      && TotalsConsistent(p)
      && GetOrZero(q.totals, "Y") == 1
      && Total(q.perStore, "Y") == 4
  {
    var e0 := StockReplaced("B", "Y", 1, 1, now);
    var e1 := StockReplaced("A", "X|Y", 3, 1, now);
    assert e0.PartitionKey() == "B|Y" && e1.PartitionKey() == "A|X|Y";
    TotalsPreserved(EmptyProjection, e0);
    var p := Step(EmptyProjection, e0);
    assert p.perStore == map["B|Y" := 1];
    TotalOfOne("B|Y", 1, "Y");
    var q := Step(p, e1);
    assert q.perStore == map["B|Y" := 1, "A|X|Y" := 3];
    TotalOfTwo("B|Y", 1, "A|X|Y", 3, "Y");
  }

  /**
   * A separator in the store id breaks it too: from a consistent projection
   * holding B/C = 1, an event for store "A|B" and SKU "C" writes key "A|B|C",
   * which also ends with "|B|C"; only the total of "C" is recomputed, so the
   * total of SKU "B|C" stays 0 while its entries sum to 3.
   */
  lemma SeparatorInStoreIdBreaksTotals(now: Instant)
    ensures var p := Step(EmptyProjection, StockReplaced("B", "C", 1, 1, now));
      var q := Step(p, StockReplaced("A|B", "C", 3, 1, now));
      && TotalsConsistent(p)
      && GetOrZero(q.totals, "B|C") == 0
      && Total(q.perStore, "B|C") == 3
  {
    var e0 := StockReplaced("B", "C", 1, 1, now);
    var e1 := StockReplaced("A|B", "C", 3, 1, now);
    assert e0.PartitionKey() == "B|C" && e1.PartitionKey() == "A|B|C";
    TotalsPreserved(EmptyProjection, e0);
    var p := Step(EmptyProjection, e0);
    assert p.perStore == map["B|C" := 1];
    var q := Step(p, e1);
    assert q.perStore == map["B|C" := 1, "A|B|C" := 3];
    TotalOfTwo("B|C", 1, "A|B|C", 3, "B|C");
  }

  /** Per-store quantities, and so totals, stay non-negative while no replace carries a negative quantity. */
  lemma StepNonNegative(p: ProjectionState, e: InventoryEvent)
    requires forall k :: k in p.perStore ==> p.perStore[k] >= 0
    requires forall sku :: sku in p.totals ==> p.totals[sku] >= 0
    requires e.StockReplaced? ==> e.quantity >= 0
    ensures forall k :: k in Step(p, e).perStore ==> Step(p, e).perStore[k] >= 0
    ensures forall sku :: sku in Step(p, e).totals ==> Step(p, e).totals[sku] >= 0
  {
    if Accepts(p, e) {
      TotalNonNegative(Step(p, e).perStore, e.sku);
    }
  }

  /** While totals are consistent, the reported total of a SKU is the sum of its per-store entries. */
  lemma GlobalQuantityIsSum(projection: CentralInventoryProjection, sku: string)
    requires TotalsConsistent(projection.State())
    ensures projection.GetGlobalQuantity(sku) == Total(projection.perStoreQuantities, sku)
  {
  }

  class CentralInventoryProjection {
    /** SKU to total quantity across stores. */
    var globalQuantityBySku: map<string, int>
    /** Key "storeId|sku" to the last accepted version. */
    var versionByStoreSku: map<string, int>
    /** Key "storeId|sku" to the last known quantity. */
    var perStoreQuantities: map<string, int>

    ghost function State(): ProjectionState
      reads this
    {
      ProjectionState(globalQuantityBySku, versionByStoreSku, perStoreQuantities)
    }

    ghost predicate Valid()
      reads this
    {
      Coherent(State())
    }

    constructor ()
      ensures Valid() && State() == EmptyProjection
    {
      globalQuantityBySku := map[];
      versionByStoreSku := map[];
      perStoreQuantities := map[];
    }

    /**
     * Delivers one event. A stale event leaves all three maps unchanged; an
     * accepted one records its version, then updates the per-store quantity and
     * the SKU's total.
     */
    method Apply(e: InventoryEvent)
      requires Valid()
      modifies this
      ensures Valid()
      ensures State() == Step(old(State()), e)
      ensures !old(Accepts(State(), e)) ==> unchanged(this)
    {
      var storeSku := Key(e.storeId, e.sku);
      var currentVersion := GetOrZero(versionByStoreSku, storeSku);
      if e.version <= currentVersion {
        return;
      }
      ghost var before := State();
      versionByStoreSku := versionByStoreSku[storeSku := e.version];
      match e {
        case StockReplaced(_, _, _, _, _) => ApplyReplace(e);
        case StockAdjusted(_, _, _, _, _) => ApplyAdjust(e);
      }
      assert perStoreQuantities == before.perStore[storeSku := NewStoreQuantity(before, e)];
    }

    /** Sets the per-store quantity to the event's quantity and recomputes the SKU's total. */
    method ApplyReplace(e: InventoryEvent)
      requires e.StockReplaced?
      modifies this
      ensures versionByStoreSku == old(versionByStoreSku)
      ensures perStoreQuantities == old(perStoreQuantities)[e.PartitionKey() := e.quantity]
      ensures globalQuantityBySku == old(globalQuantityBySku)[e.sku := Total(perStoreQuantities, e.sku)]
    {
      var sku := e.sku;
      perStoreQuantities := perStoreQuantities[Key(e.storeId, sku) := e.quantity];
      var newTotal := SumForSku(perStoreQuantities, sku);
      globalQuantityBySku := globalQuantityBySku[sku := newTotal];
    }

    /** Moves the per-store quantity (0 if unseen) by the delta, clamps at zero, and recomputes the SKU's total. */
    method ApplyAdjust(e: InventoryEvent)
      requires e.StockAdjusted?
      modifies this
      ensures versionByStoreSku == old(versionByStoreSku)
      ensures perStoreQuantities == old(perStoreQuantities)[e.PartitionKey() := Max(0, old(GetOrZero(perStoreQuantities, e.PartitionKey())) + e.delta)]
      ensures globalQuantityBySku == old(globalQuantityBySku)[e.sku := Total(perStoreQuantities, e.sku)]
    {
      var storeSku := Key(e.storeId, e.sku);
      var currentStoreQty := Max(0, GetOrZero(perStoreQuantities, storeSku) + e.delta);
      perStoreQuantities := perStoreQuantities[storeSku := currentStoreQty];
      var newTotal := SumForSku(perStoreQuantities, e.sku);
      globalQuantityBySku := globalQuantityBySku[e.sku := newTotal];
    }

    /** The SKU's global total, 0 for an unseen SKU (see GlobalQuantityIsSum for what it adds up to). */
    function GetGlobalQuantity(sku: string): (r: int)
      reads this
      ensures sku !in globalQuantityBySku ==> r == 0
    {
      GetOrZero(globalQuantityBySku, sku)
    }

    /** The partition's last known quantity; absent exactly when no event for it was ever accepted. */
    function GetStoreQuantity(storeId: string, sku: string): (r: Option<int>)
      reads this
      ensures r.Some? ==> Key(storeId, sku) in perStoreQuantities && r.value == perStoreQuantities[Key(storeId, sku)]
      ensures Valid() ==> (r.None? <==> Key(storeId, sku) !in versionByStoreSku)
    {
      var k := Key(storeId, sku);
      if k in perStoreQuantities then Some(perStoreQuantities[k]) else None
    }
  }
}
