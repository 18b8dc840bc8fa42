/**
 * The store and the projection together. The event bus is abstracted as
 * in-order delivery of the store's published events to the projection:
 * once every published event has been delivered, the projection's per-store
 * quantities and versions equal the store's records, and (for identifiers
 * without the key separator) every SKU's total is the sum of its partitions.
 */
module InventoryFlow {
  import opened InventoryModel
  import opened StoreInventory
  import opened CentralProjection

  /** The bus worker: takes events in the order they were published and hands each to the projection. */
  method Deliver(projection: CentralInventoryProjection, events: seq<InventoryEvent>)
    requires projection.Valid()
    modifies projection
    ensures projection.Valid()
    ensures projection.State() == Replay(old(projection.State()), events)
  {
    for i := 0 to |events|
      invariant projection.Valid()
      invariant projection.State() == Replay(old(projection.State()), events[..i])
    {
      projection.Apply(events[i]);
      assert events[..i + 1][..i] == events[..i];
    }
    assert events[..|events|] == events;
  }

  /** The projection holds, for each key the store holds, the same version and quantity, and nothing else. */
  ghost predicate Mirrors(p: ProjectionState, state: map<string, InventoryRecord>) {
    && p.versions.Keys == state.Keys
    && p.perStore.Keys == state.Keys
    && forall k :: k in state ==> p.versions[k] == state[k].version && p.perStore[k] == state[k].quantity
  }

  /** No published event names a store id or SKU containing the key separator. */
  ghost predicate SeparatorFreeLog(log: seq<InventoryEvent>) {
    forall i :: 0 <= i < |log| ==> SeparatorFree(log[i].storeId) && SeparatorFree(log[i].sku)
  }

  /** The partitions' quantities, by key. */
  ghost function Quantities(state: map<string, InventoryRecord>): map<string, int> {
    map k | k in state :: state[k].quantity
  }

  lemma SequentialPrefix(log: seq<InventoryEvent>)
    requires Sequential(log) && log != []
    ensures Sequential(log[..|log| - 1])
  {
    var prefix := log[..|log| - 1];
    forall i | 0 <= i < |prefix|
      ensures prefix[i].version == Count(prefix[..i], prefix[i].PartitionKey()) + 1
    {
      assert prefix[..i] == log[..i];
    }
  }

  /**
   * Replaying the store's log, in order, into an empty projection accepts every
   * event and leaves each per-store quantity and version equal to the store's
   * record: the projection's clamp at zero mirrors the store's.
   */
  lemma {:induction false} ReplayMirrorsStore(log: seq<InventoryEvent>)
    requires Sequential(log)
    ensures Mirrors(Replay(EmptyProjection, log), Rebuild(log))
  {
    if log != [] {
      var prefix, e := log[..|log| - 1], log[|log| - 1];
      SequentialPrefix(log);
      ReplayMirrorsStore(prefix);
      assert log[..|log| - 1] == prefix;
      var p, state, k := Replay(EmptyProjection, prefix), Rebuild(prefix), e.PartitionKey();
      RebuildCountsWrites(prefix, k);
      assert Accepts(p, e);
      assert NewStoreQuantity(p, e) == Redo(state, e)[k].quantity;
    }
  }

  /** While no identifier holds the separator, replaying events keeps every total equal to its sum. */
  lemma {:induction false} TotalsAfterReplay(p: ProjectionState, events: seq<InventoryEvent>)
    requires TotalsConsistent(p)
    requires SeparatorFreeLog(events)
    ensures TotalsConsistent(Replay(p, events))
  {
    if events != [] {
      var prefix, e := events[..|events| - 1], events[|events| - 1];
      assert SeparatorFreeLog(prefix) by {
        forall i | 0 <= i < |prefix| ensures SeparatorFree(prefix[i].storeId) && SeparatorFree(prefix[i].sku) {
          assert prefix[i] == events[i];
        }
      }
      TotalsAfterReplay(p, prefix);
      TotalsPreserved(Replay(p, prefix), e);
    }
  }

  /** After a replay, every replayed event's version is at most the one recorded for its key. */
  lemma {:induction false} ReplayRecordsVersions(p: ProjectionState, events: seq<InventoryEvent>)
    ensures forall i :: 0 <= i < |events| ==>
      events[i].version <= GetOrZero(Replay(p, events).versions, events[i].PartitionKey())
  {
    if events != [] {
      var prefix, e := events[..|events| - 1], events[|events| - 1];
      ReplayRecordsVersions(p, prefix);
      StepVersions(Replay(p, prefix), e);
      forall i | 0 <= i < |prefix|
        ensures events[i].version <= GetOrZero(Replay(p, events).versions, events[i].PartitionKey())
      {
        assert prefix[i] == events[i];
      }
    }
  }

  /** Redelivering any event that was already delivered is a no-op. */
  lemma RedeliveryIsNoOp(p: ProjectionState, events: seq<InventoryEvent>, e: InventoryEvent)
    requires e in events
    ensures Step(Replay(p, events), e) == Replay(p, events)
  {
    ReplayRecordsVersions(p, events);
    var i :| 0 <= i < |events| && events[i] == e;
  }

  /**
   * Once every event the store published is delivered, the projection mirrors
   * the store, its quantities are non-negative, and, when no identifier holds
   * the separator, each SKU's total is the sum of the store's quantities for it.
   */
  lemma ProjectionMatchesStore(store: StoreInventoryService, sku: string)
    requires store.Valid()
    ensures Mirrors(Replay(EmptyProjection, store.published), store.storeState)
    ensures forall k :: k in Replay(EmptyProjection, store.published).perStore ==>
      Replay(EmptyProjection, store.published).perStore[k] >= 0
    ensures SeparatorFreeLog(store.published) ==>
      GetOrZero(Replay(EmptyProjection, store.published).totals, sku) == Total(Quantities(store.storeState), sku)
  {
    var p := Replay(EmptyProjection, store.published);
    ReplayMirrorsStore(store.published);
    if SeparatorFreeLog(store.published) {
      TotalsAfterReplay(EmptyProjection, store.published);
      assert p.perStore == Quantities(store.storeState);
    }
  }

  /**
   * The mirror needs each partition's events delivered in version order.
   * The service publishes after its per-key update, outside the atomic
   * section, so two concurrent +1 adjusts can be enqueued as v2 then v1. The
   * store then holds 2, but the projection drops v1 as stale and holds 1.
   */
  lemma OutOfOrderDeliveryLosesWrite(now: Instant)
    ensures var e1, e2 := StockAdjusted("S", "K", 1, 1, now), StockAdjusted("S", "K", 1, 2, now);
      && Sequential([e1, e2])
      && Key("S", "K") in Rebuild([e1, e2]) && Rebuild([e1, e2])[Key("S", "K")].quantity == 2
      && Key("S", "K") in Replay(EmptyProjection, [e2, e1]).perStore
      && Replay(EmptyProjection, [e2, e1]).perStore[Key("S", "K")] == 1
  {
    var e1, e2 := StockAdjusted("S", "K", 1, 1, now), StockAdjusted("S", "K", 1, 2, now);
    assert [e1, e2][..1] == [e1] && [e1, e2][..0] == [];
    assert [e2, e1][..1] == [e2] && [e2][..0] == [];
    assert [e1][..0] == [];
    assert Rebuild([e1]) == map[Key("S", "K") := InventoryRecord("S", "K", 1, 1, now)];
    assert Replay(EmptyProjection, [e2]).versions == map[Key("S", "K") := 2];
  }

  /**
   * A fresh projection receives, in order, every event a store has published
   * (the bus worker once the queue is drained). It then mirrors the store, and
   * when no identifier holds the separator every SKU's reported global total
   * is the sum of the store's quantities for that SKU.
   */
  method ProjectPublished(store: StoreInventoryService, events: seq<InventoryEvent>) returns (projection: CentralInventoryProjection)
    requires store.Valid() && events == store.published
    ensures fresh(projection) && projection.Valid()
    ensures Mirrors(projection.State(), store.storeState)
    ensures SeparatorFreeLog(events) ==>
      forall sku :: projection.GetGlobalQuantity(sku) == Total(Quantities(store.storeState), sku)
  {
    projection := new CentralInventoryProjection();
    Deliver(projection, events);
    ReplayMirrorsStore(events);
    if SeparatorFreeLog(events) {
      TotalsAfterReplay(EmptyProjection, events);
      assert projection.perStoreQuantities == Quantities(store.storeState);
      forall sku
        ensures projection.GetGlobalQuantity(sku) == Total(Quantities(store.storeState), sku)
      {
        GlobalQuantityIsSum(projection, sku);
      }
    }
  }

  /** When neither store id holds the separator, different stores give different keys for one SKU. */
  lemma StoresKeyApart(storeA: string, storeB: string, sku: string)
    requires SeparatorFree(storeA) && SeparatorFree(storeB) && storeA != storeB
    ensures Key(storeA, sku) != Key(storeB, sku)
  {
    if Key(storeA, sku) == Key(storeB, sku) {
      KeyInjective(storeA, sku, storeB, sku);
    }
  }

  /**
   * A replace in one store and a non-negative adjust in another, for the same
   * SKU, delivered to an empty projection: both stores are recorded and the
   * SKU's total is their sum.
   */
  lemma TwoStoresAddUp(storeA: string, storeB: string, sku: string, quantity: int, delta: int, now: Instant)
    requires SeparatorFree(storeA) && SeparatorFree(storeB) && storeA != storeB
    requires delta >= 0
    ensures var p := Step(Step(EmptyProjection, StockReplaced(storeA, sku, quantity, 1, now)), StockAdjusted(storeB, sku, delta, 1, now));
      && p.perStore == map[Key(storeA, sku) := quantity, Key(storeB, sku) := delta]
      && p.totals == map[sku := quantity + delta]
  {
    var kA, kB := Key(storeA, sku), Key(storeB, sku);
    StoresKeyApart(storeA, storeB, sku);
    KeyEndsWithOwnSku(storeA, sku);
    KeyEndsWithOwnSku(storeB, sku);
    TotalOfOne(kA, quantity, sku);
    TotalOfTwo(kA, quantity, kB, delta, sku);
  }

  /**
   * A fresh store service takes a replace in one store and an adjust in
   * another for the same SKU. Both are first writes of their partitions, so
   * both published events carry version 1.
   */
  method PublishReplaceAndAdjust(storeA: string, storeB: string, sku: string, quantity: int, delta: int, now: Instant)
    returns (replaced: InventoryEvent, adjusted: InventoryEvent, ghost log: seq<InventoryEvent>)
    requires SeparatorFree(storeA) && SeparatorFree(storeB) && storeA != storeB
    requires quantity >= 0
    ensures replaced == StockReplaced(storeA, sku, quantity, 1, now)
    ensures adjusted == StockAdjusted(storeB, sku, delta, 1, now)
    ensures log == [replaced, adjusted]
  {
    var svc := new StoreInventoryService();
    StoresKeyApart(storeA, storeB, sku);
    var r := svc.ReplaceStock(storeA, sku, quantity, now);
    var a := r.value;
    var b := svc.AdjustStock(storeB, sku, delta, now);
    replaced := StockReplaced(a.storeId, a.sku, a.quantity, a.version, a.updatedAt);
    adjusted := StockAdjusted(b.storeId, b.sku, delta, b.version, b.updatedAt);
    log := svc.published;
  }

  /**
   * Replaces in two stores for one SKU, then an adjust of the first store's
   * partition with version 2: the first store's quantity moves by the delta
   * and the SKU's total is the sum of both stores.
   */
  lemma AdjustAfterTwoStores(storeA: string, storeB: string, sku: string, quantityA: int, quantityB: int, delta: int, now: Instant)
    requires SeparatorFree(storeA) && SeparatorFree(storeB) && storeA != storeB
    requires quantityA + delta >= 0
    ensures var p := Step(Step(Step(EmptyProjection,
        StockReplaced(storeA, sku, quantityA, 1, now)),
        StockReplaced(storeB, sku, quantityB, 1, now)),
        StockAdjusted(storeA, sku, delta, 2, now));
      && p.perStore == map[Key(storeA, sku) := quantityA + delta, Key(storeB, sku) := quantityB]
      && p.totals == map[sku := quantityA + delta + quantityB]
  {
    var kA, kB := Key(storeA, sku), Key(storeB, sku);
    StoresKeyApart(storeA, storeB, sku);
    KeyEndsWithOwnSku(storeA, sku);
    KeyEndsWithOwnSku(storeB, sku);
    TotalOfOne(kA, quantityA, sku);
    TotalOfTwo(kA, quantityA, kB, quantityB, sku);
    assert map[kA := quantityA, kB := quantityB][kA := quantityA + delta] == map[kA := quantityA + delta, kB := quantityB];
    TotalOfTwo(kA, quantityA + delta, kB, quantityB, sku);
  }

  /**
   * The projection states of the suffix collision: after B/Y = 1 and
   * A/"X|Y" = 3 the total of "Y" is 1 while its entries sum to 4; a
   * version-2 adjust of B/Y by 0 then recomputes the total of "Y" as 4.
   */
  lemma SuffixCollisionSteps(now: Instant)
    ensures var p := Step(Step(EmptyProjection, StockReplaced("B", "Y", 1, 1, now)), StockReplaced("A", "X|Y", 3, 1, now));
      var q := Step(p, StockAdjusted("B", "Y", 0, 2, now));
      && p.perStore == map["B|Y" := 1, "A|X|Y" := 3]
      && GetOrZero(p.totals, "Y") == 1
      && Total(p.perStore, "Y") == 4
      && q.perStore == p.perStore
      && GetOrZero(q.totals, "Y") == 4
  {
    SeparatorInSkuBreaksTotals(now);
    assert StockReplaced("B", "Y", 1, 1, now).PartitionKey() == "B|Y";
    assert StockReplaced("A", "X|Y", 3, 1, now).PartitionKey() == "A|X|Y";
  }

  /**
   * The store side of the suffix collision: B/Y = 1, A/"X|Y" = 3, then an
   * adjust of B/Y by 0. The keys differ, so the events carry versions 1, 1
   * and 2, and B/Y still holds 1.
   */
  method PublishSuffixCollision(now: Instant)
    returns (first: InventoryEvent, second: InventoryEvent, third: InventoryEvent, storeBY: Option<InventoryRecord>, ghost log: seq<InventoryEvent>)
    ensures first == StockReplaced("B", "Y", 1, 1, now)
    ensures second == StockReplaced("A", "X|Y", 3, 1, now)
    ensures third == StockAdjusted("B", "Y", 0, 2, now)
    ensures log == [first, second, third]
    ensures storeBY.Some? && storeBY.value.quantity == 1
  {
    assert Key("B", "Y") == "B|Y" && Key("A", "X|Y") == "A|X|Y";
    var svc := new StoreInventoryService();
    var r1 := svc.ReplaceStock("B", "Y", 1, now);
    var r2 := svc.ReplaceStock("A", "X|Y", 3, now);
    var b := svc.AdjustStock("B", "Y", 0, now);
    first := StockReplaced(r1.value.storeId, r1.value.sku, r1.value.quantity, r1.value.version, r1.value.updatedAt);
    second := StockReplaced(r2.value.storeId, r2.value.sku, r2.value.quantity, r2.value.version, r2.value.updatedAt);
    third := StockAdjusted(b.storeId, b.sku, 0, b.version, b.updatedAt);
    log := svc.published;
    storeBY := svc.GetStock("B", "Y");
  }

  /** Replace 10 then adjust +5 on a fresh partition: versions 1 and 2, quantity 15, a StockReplaced then a StockAdjusted. */
  method ReplaceThenAdjust(now: Instant) returns (a: InventoryRecord, b: InventoryRecord, ghost events: seq<InventoryEvent>)
    ensures a.version == 1 && a.quantity == 10
    ensures b.version == 2 && b.quantity == 15
    ensures |events| == 2 && events[0].StockReplaced? && events[1].StockAdjusted?
  {
    var svc := new StoreInventoryService();
    var r := svc.ReplaceStock("A", "SKU-X", 10, now);
    a := r.value;
    b := svc.AdjustStock("A", "SKU-X", 5, now);
    events := svc.published;
  }

  /** n successive adjustments by +1 on a fresh partition leave quantity n and version n: no update is lost. */
  method AdjustByOneRepeatedly(n: nat, now: Instant) returns (r: Option<InventoryRecord>)
    ensures n == 0 ==> r.None?
    ensures n > 0 ==> r.Some? && r.value.quantity == n && r.value.version == n
  {
    var svc := new StoreInventoryService();
    var k := Key("S", "C-SKU");
    for i := 0 to n
      invariant svc.Valid()
      invariant i == 0 ==> k !in svc.storeState
      invariant i > 0 ==> k in svc.storeState && svc.storeState[k].quantity == i && svc.storeState[k].version == i
    {
      var _ := svc.AdjustStock("S", "C-SKU", 1, now);
    }
    r := svc.GetStock("S", "C-SKU");
  }

  /** A version-2 replace of 10 followed by a stale version-1 replace of 5 leaves the total at 10. */
  method StaleEventKeepsTotal(now: Instant) returns (total: int)
    ensures total == 10
  {
    assert Key("S1", "SKU-V") == "S1|SKU-V";
    var projection := new CentralInventoryProjection();
    projection.Apply(StockReplaced("S1", "SKU-V", 10, 2, now));
    TotalRemove(projection.perStoreQuantities, "S1|SKU-V", "SKU-V");
    assert projection.perStoreQuantities - {"S1|SKU-V"} == map[];
    projection.Apply(StockReplaced("S1", "SKU-V", 5, 1, now));
    total := projection.GetGlobalQuantity("SKU-V");
  }

  /** Replace A = 4, replace B = 6, adjust A by +1: total 11, A = 5, B = 6. */
  method AggregatesAcrossStores(now: Instant) returns (total: int, a: Option<int>, b: Option<int>)
    ensures total == 11 && a == Some(5) && b == Some(6)
  {
    var projection := new CentralInventoryProjection();
    projection.Apply(StockReplaced("A", "SKU-Z", 4, 1, now));
    projection.Apply(StockReplaced("B", "SKU-Z", 6, 1, now));
    projection.Apply(StockAdjusted("A", "SKU-Z", 1, 2, now));
    AdjustAfterTwoStores("A", "B", "SKU-Z", 4, 6, 1, now);
    total := projection.GetGlobalQuantity("SKU-Z");
    a := projection.GetStoreQuantity("A", "SKU-Z");
    b := projection.GetStoreQuantity("B", "SKU-Z");
  }

  /**
   * Store A replaced to 10 and store B adjusted by +5 for the same SKU; once
   * the two published events are delivered, the total is 15 and A reads 10.
   */
  method ReplaceAndAdjustAcrossStores(now: Instant) returns (total: int, storeA: Option<int>)
    ensures total == 15 && storeA == Some(10)
  {
    var e1, e2, _ := PublishReplaceAndAdjust("A", "B", "SKU1", 10, 5, now);
    var projection := new CentralInventoryProjection();
    projection.Apply(e1);
    projection.Apply(e2);
    TwoStoresAddUp("A", "B", "SKU1", 10, 5, now);
    total := projection.GetGlobalQuantity("SKU1");
    storeA := projection.GetStoreQuantity("A", "SKU1");
  }

  /** Store S1 replaced to 5 and store S2 adjusted by +7 for the same SKU give a total of 12. */
  method TwoStoresSum(now: Instant) returns (total: int)
    ensures total == 12
  {
    var e1, e2, _ := PublishReplaceAndAdjust("S1", "S2", "SYNC1", 5, 7, now);
    var projection := new CentralInventoryProjection();
    projection.Apply(e1);
    projection.Apply(e2);
    TwoStoresAddUp("S1", "S2", "SYNC1", 5, 7, now);
    total := projection.GetGlobalQuantity("SYNC1");
  }

  /**
   * Keys are plain concatenations, so the partitions ("A|B", "C") and
   * ("A", "B|C") share the key "A|B|C": the first write to ("A", "B|C")
   * gets version 2, and ("A|B", "C") then reads the other partition's record.
   */
  method PartitionKeyCollision(now: Instant) returns (first: InventoryRecord, second: InventoryRecord, read: Option<InventoryRecord>)
    ensures first.version == 1
    ensures second.version == 2
    ensures read == Some(second) && read.value.storeId == "A" && read.value.sku == "B|C"
  {
    var svc := new StoreInventoryService();
    assert Key("A|B", "C") == Key("A", "B|C");
    var r1 := svc.ReplaceStock("A|B", "C", 1, now);
    var r2 := svc.ReplaceStock("A", "B|C", 5, now);
    first, second := r1.value, r2.value;
    read := svc.GetStock("A|B", "C");
  }

  /**
   * The total filter matches any key ending in "|" + sku, so store "A"'s SKU
   * "X|Y" is counted in SKU "Y". After B/Y = 1 and A/"X|Y" = 3 the total of
   * "Y" still reads 1 although its entries now sum to 4; after the next write
   * to B/Y it reads 4, while the only partition with SKU "Y" holds 1.
   */
  method SkuSuffixCollision(now: Instant) returns (staleTotal: int, entriesSum: int, leakedTotal: int, storeBY: Option<InventoryRecord>)
    ensures staleTotal == 1 && entriesSum == 4
    ensures leakedTotal == 4
    ensures storeBY.Some? && storeBY.value.quantity == 1
  {
    var e1, e2, e3, readBY, _ := PublishSuffixCollision(now);
    var projection := new CentralInventoryProjection();
    projection.Apply(e1);
    projection.Apply(e2);
    SuffixCollisionSteps(now);
    staleTotal := projection.GetGlobalQuantity("Y");
    entriesSum := SumForSku(projection.perStoreQuantities, "Y");
    projection.Apply(e3);
    leakedTotal := projection.GetGlobalQuantity("Y");
    storeBY := readBY;
  }
}
