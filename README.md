# Inventory consistency core, modelled in Dafny

This project models the two sequential state machines at the centre of the
inventory management service.

- **The store service** (`StoreInventoryService`). It keeps one
  `InventoryRecord` (store, SKU, quantity, version, timestamp) per partition,
  in a map keyed by the string `storeId + "|" + sku`.
  - `replaceStock` refuses a negative quantity and changes nothing.
    Otherwise it sets the quantity.
  - `adjustStock` moves the quantity by a signed delta and clamps at zero.
    An unwritten partition counts as zero.
  - Both bump the version: 1 on a partition's first write, else one more.
  - Each successful write publishes exactly one event, `StockReplaced` or
    `StockAdjusted`.
- **The central projection** (`CentralInventoryProjection`). It consumes
  those events with last-writer-wins by version per key.
  - An event whose version is not newer than the recorded one (0 if none)
    changes nothing.
  - An accepted event records its version and updates the per-store quantity.
    A replace sets it; an adjust adds the delta and clamps at zero.
  - It then recomputes the SKU's global total as the sum of every per-store
    entry whose key ends with `"|" + sku`.

Files:

- `inventory_model.dfy` (module `InventoryModel`): the record, the two-variant
  event datatype, the string key, and lemmas about keys and the suffix filter.
- `store_inventory_service.dfy` (module `StoreInventory`): the store as a class
  over a `map<string, InventoryRecord>`. A ghost `published` log holds the
  events emitted so far. The class invariant says the map is exactly what
  redoing that log produces (`Rebuild`), and every event's version is one
  more than the number of earlier events for its partition (`Sequential`).
- `central_inventory_projection.dfy` (module `CentralProjection`): the
  projection as a class over its three maps.
  - `Apply` (the source's `onEvent`) is proved against the value-level
    transition `Step`.
  - The stream filter-and-sum is the loop `SumForSku`, proved against the
    recursive sum `Total`.
- `inventory_flow.dfy` (module `InventoryFlow`): the two together.
  - Delivery is in-order application of the store's published events (`Deliver`).
  - The end-to-end lemmas cover the mirror between store and projection,
    totals and redelivery.
  - The repository's tests are restated as methods with postconditions.

Keys are modelled literally as strings, as the code builds them. Two
consequences of that are proved rather than assumed away:

- **Per-store mirror.** It holds for any identifiers, provided each
  partition's events reach the projection in version order. Replaying the
  store's log into an empty projection leaves each per-store quantity and
  version equal to the store's record (`ReplayMirrorsStore`,
  `ProjectPublished`). The service publishes after its atomic per-key update,
  so concurrent writers can enqueue one partition's events out of order. The
  projection then drops the older one as stale and loses that write
  (`OutOfOrderDeliveryLosesWrite`).
- **Totals.** Every SKU's total equals the sum of its entries only while store
  ids and SKUs contain no `'|'` (`TotalsPreserved`, `TotalsAfterReplay`).
  With a `'|'` the invariant breaks. The key of store `"A"`, SKU `"X|Y"` ends
  with `"|Y"`, so it is counted in SKU `"Y"`'s total
  (`SeparatorInSkuBreaksTotals`, `SkuSuffixCollision`). Likewise the key of
  store `"A|B"`, SKU `"C"` ends with `"|B|C"`, so it is counted in SKU
  `"B|C"`'s total (`SeparatorInStoreIdBreaksTotals`). The partitions
  `("A|B","C")` and `("A","B|C")` share one store record
  (`PartitionKeyCollision`). The request DTOs only require non-blank ids, so
  such ids reach the core.

Where the specification and the code disagree, the model follows the code:

- The code has no expected-version check, no `VersionConflict`, no retry or
  dead-letter policy and no rollback when publishing fails.
- Delivery is not synchronous. `publish` enqueues the event and a worker
  thread delivers it later, swallowing subscriber exceptions.
- So the model states its projection results for the point at which every
  published event has been delivered.

## Model

| member | source | states |
|---|---|---|
| InventoryModel.KeyEndsWithOwnSku | src/main/java/com/example/inventory/service/CentralInventoryProjection.java:55-57 | the key written for a partition always passes the total filter of its own SKU |
| InventoryModel.KeyInjective | src/main/java/com/example/inventory/service/StoreInventoryService.java:25-27 | when store ids hold no `'|'`, two (store, SKU) pairs with the same key are the same pair |
| InventoryModel.KeyMatchesOnlyOwnSku | src/main/java/com/example/inventory/service/CentralInventoryProjection.java:56-59 | when store id and SKU hold no `'|'`, the key ends with `"|" + other` if and only if `other` is its own SKU |
| StoreInventory.StoreInventoryService.constructor | src/main/java/com/example/inventory/service/StoreInventoryService.java:19-23 | a new store has no partitions and has published nothing |
| StoreInventory.StoreInventoryService.ReplaceStock | src/main/java/com/example/inventory/service/StoreInventoryService.java:30-40 | fails if and only if the quantity is negative, then changes nothing; otherwise it stores a record with the given quantity and version 1 or old + 1, the version equals the partition's write count, only that key changes, and exactly one StockReplaced with the new quantity and version is appended |
| StoreInventory.StoreInventoryService.AdjustStock | src/main/java/com/example/inventory/service/StoreInventoryService.java:43-54 | stores quantity max(0, old-or-0 + delta) with version 1 or old + 1, equal to the partition's write count; only that key changes; exactly one StockAdjusted carrying the delta (not the new quantity) is appended |
| StoreInventory.StoreInventoryService.GetStock | src/main/java/com/example/inventory/service/StoreInventoryService.java:56-58 | returns exactly the stored record, or none; none if and only if the partition was never written; a present record has quantity >= 0 and version = number of writes |
| StoreInventory.RebuildCountsWrites | src/main/java/com/example/inventory/service/StoreInventoryService.java:34-37 | a partition exists if and only if it was written, and its version equals the number of writes it received (gap-free versions) |
| StoreInventory.RecordWrite | src/main/java/com/example/inventory/service/StoreInventoryService.java:34-38 | publishing one write whose version follows the partition's record keeps the store equal to its redone log, the log sequential and quantities non-negative, and makes the version the partition's write count |
| StoreInventory.WriteIsolatesPartitions | src/main/java/com/example/inventory/service/StoreInventoryService.java:46-51 | a write leaves every other (store, SKU) pair's record unchanged, when store ids hold no `'|'` |
| CentralProjection.TotalRemove | src/main/java/com/example/inventory/service/CentralInventoryProjection.java:56-59 | the filtered sum does not depend on the order in which entries are visited |
| CentralProjection.TotalUpdateUnmatched | src/main/java/com/example/inventory/service/CentralInventoryProjection.java:69-72 | writing a key that does not end with `"|" + sku` leaves that SKU's sum unchanged |
| CentralProjection.TotalNonNegative | src/main/java/com/example/inventory/service/CentralInventoryProjection.java:69-72 | a sum over non-negative per-store quantities is non-negative |
| CentralProjection.SumForSku | src/main/java/com/example/inventory/service/CentralInventoryProjection.java:56-59 | the entry-by-entry stream sum equals the sum of all entries whose key ends with `"|" + sku` |
| CentralProjection.StaleEventIgnored | src/main/java/com/example/inventory/service/CentralInventoryProjection.java:35-38 | an event whose version is at most the recorded one (default 0) leaves all three maps unchanged |
| CentralProjection.NonPositiveVersionIgnored | src/main/java/com/example/inventory/service/CentralInventoryProjection.java:35-37 | an event with version <= 0 is always ignored |
| CentralProjection.StepIdempotent | src/main/java/com/example/inventory/service/CentralInventoryProjection.java:36-39 | applying the same event twice gives the same state as applying it once |
| CentralProjection.OlderEventLoses | src/main/java/com/example/inventory/service/CentralInventoryProjection.java:35-39 | once a newer event for a key is applied, an older one for that key has no effect |
| CentralProjection.StepVersions | src/main/java/com/example/inventory/service/CentralInventoryProjection.java:35-39 | recorded versions only grow, the event's key then has a version >= the event's, and other keys' versions and quantities are untouched |
| CentralProjection.StepCoherent | src/main/java/com/example/inventory/service/CentralInventoryProjection.java:33-46 | keys with a quantity are exactly the keys with a recorded version, and versions stay >= 1 |
| CentralProjection.TotalsPreserved | src/main/java/com/example/inventory/service/CentralInventoryProjection.java:48-74 | if every SKU's total equals its filtered sum before an event whose ids hold no `'|'`, the same holds after it |
| CentralProjection.SeparatorInSkuBreaksTotals | src/main/java/com/example/inventory/service/CentralInventoryProjection.java:55-60 | with SKU `"X|Y"` the invariant breaks: the total of `"Y"` stays 1 while its filtered sum becomes 4 |
| CentralProjection.SeparatorInStoreIdBreaksTotals | src/main/java/com/example/inventory/service/CentralInventoryProjection.java:55-60 | with store id `"A\|B"` the invariant breaks: the total of `"B\|C"` stays 0 while its filtered sum becomes 3 |
| CentralProjection.StepNonNegative | src/main/java/com/example/inventory/service/CentralInventoryProjection.java:65-68 | per-store quantities and totals stay non-negative while replace quantities are non-negative |
| CentralProjection.CentralInventoryProjection.constructor | src/main/java/com/example/inventory/service/CentralInventoryProjection.java:16-26 | a new projection has three empty maps |
| CentralProjection.CentralInventoryProjection.Apply | src/main/java/com/example/inventory/service/CentralInventoryProjection.java:33-46 | the new state is Step of the old state; a stale event changes nothing; the coherence invariant is kept |
| CentralProjection.CentralInventoryProjection.ApplyReplace | src/main/java/com/example/inventory/service/CentralInventoryProjection.java:48-61 | the per-store quantity becomes the event's quantity and the SKU's total becomes the new filtered sum; versions are untouched |
| CentralProjection.CentralInventoryProjection.ApplyAdjust | src/main/java/com/example/inventory/service/CentralInventoryProjection.java:65-74 | the per-store quantity becomes max(0, old-or-0 + delta) and the SKU's total becomes the new filtered sum; versions are untouched |
| CentralProjection.CentralInventoryProjection.GetGlobalQuantity | src/main/java/com/example/inventory/service/CentralInventoryProjection.java:76-78 | 0 for a SKU that has no total |
| CentralProjection.GlobalQuantityIsSum | src/main/java/com/example/inventory/service/CentralInventoryProjection.java:76-78 | while totals are consistent, the reported total of a SKU is the sum of its per-store entries |
| CentralProjection.CentralInventoryProjection.GetStoreQuantity | src/main/java/com/example/inventory/service/CentralInventoryProjection.java:80-82 | the per-store quantity, absent if and only if no event for that key was ever accepted |
| InventoryFlow.Deliver | src/main/java/com/example/inventory/service/InMemoryEventBus.java:42-55 | delivering a sequence of events in order leaves the projection at Replay of its old state over them |
| InventoryFlow.ReplayMirrorsStore | src/main/java/com/example/inventory/service/CentralInventoryProjection.java:65-68 | replaying a store's log into an empty projection gives each store key the store's version and quantity, and no other key appears |
| InventoryFlow.TotalsAfterReplay | src/main/java/com/example/inventory/service/CentralInventoryProjection.java:69-73 | replaying events with `'|'`-free ids keeps every total equal to its filtered sum |
| InventoryFlow.ReplayRecordsVersions | src/main/java/com/example/inventory/service/CentralInventoryProjection.java:35-39 | after a replay, each replayed event's version is at most the version recorded for its key |
| InventoryFlow.RedeliveryIsNoOp | src/main/java/com/example/inventory/service/CentralInventoryProjection.java:36-38 | redelivering any event that was already delivered changes nothing |
| InventoryFlow.ProjectionMatchesStore | src/main/java/com/example/inventory/service/CentralInventoryProjection.java:33-74 | once a valid store's published events are delivered, the projection mirrors the store and its quantities are non-negative; with `'|'`-free ids each SKU's total is the sum of the store's quantities for it |
| InventoryFlow.ProjectPublished | src/main/java/com/example/inventory/service/InMemoryEventBus.java:42-55 | a fresh projection that receives all of a valid store's published events in order mirrors the store, and with `'\|'`-free ids its reported global total of every SKU is the sum of the store's quantities for it |
| InventoryFlow.OutOfOrderDeliveryLosesWrite | src/main/java/com/example/inventory/service/StoreInventoryService.java:46-52 | two +1 adjusts of one partition leave the store at 2, but delivered as v2 then v1 they leave the projection at 1: the mirror needs version-ordered delivery per partition |
| InventoryFlow.StoresKeyApart | src/main/java/com/example/inventory/service/StoreInventoryService.java:25-27 | two different separator-free stores get different keys for the same SKU |
| InventoryFlow.PublishReplaceAndAdjust | src/test/java/com/example/inventory/InventoryFlowTest.java:29-32 | a fresh store's replace in one store and adjust in another are first writes: they publish exactly a version-1 StockReplaced then a version-1 StockAdjusted |
| InventoryFlow.TwoStoresAddUp | src/test/java/com/example/inventory/ConsistencyIntegrationTest.java:30-35 | delivering those two events to an empty projection records both stores' quantities and makes the SKU's total their sum |
| InventoryFlow.AdjustAfterTwoStores | src/test/java/com/example/inventory/CentralInventoryProjectionTest.java:34-40 | after replaces in two stores and a version-2 adjust of the first, the first store holds its quantity plus the delta and the total is the sum of both stores |
| InventoryFlow.PublishSuffixCollision | src/main/java/com/example/inventory/service/StoreInventoryService.java:30-54 | writes to B/Y, A/"X\|Y", then B/Y again publish versions 1, 1 and 2 (the keys differ), and B/Y still holds 1 |
| InventoryFlow.SuffixCollisionSteps | src/main/java/com/example/inventory/service/CentralInventoryProjection.java:56-60 | delivering those events: the total of "Y" is 1 while its entries sum to 4, and the adjust of B/Y by 0 makes it 4 |
| InventoryFlow.ReplaceThenAdjust | src/test/java/com/example/inventory/StoreInventoryServiceTest.java:21-37 | replace 10 then adjust +5 gives versions 1 and 2, quantity 15, and a StockReplaced followed by a StockAdjusted |
| InventoryFlow.AdjustByOneRepeatedly | src/test/java/com/example/inventory/StoreInventoryServiceTest.java:39-57 | n sequential adjusts by +1 on a fresh partition give quantity n and version n (none for n = 0) |
| InventoryFlow.StaleEventKeepsTotal | src/test/java/com/example/inventory/CentralInventoryProjectionTest.java:14-26 | a v2 replace of 10 then a v1 replace of 5 leaves the total at 10 |
| InventoryFlow.AggregatesAcrossStores | src/test/java/com/example/inventory/CentralInventoryProjectionTest.java:28-41 | 4 and 6 then +1 on A give total 11, A = 5, B = 6 |
| InventoryFlow.ReplaceAndAdjustAcrossStores | src/test/java/com/example/inventory/InventoryFlowTest.java:26-41 | replace A = 10 and adjust B by +5, once their published events are delivered, give total 15 and A = 10 |
| InventoryFlow.TwoStoresSum | src/test/java/com/example/inventory/ConsistencyIntegrationTest.java:26-36 | S1 = 5 and S2 +7, once delivered, give total 12 |
| InventoryFlow.PartitionKeyCollision | src/main/java/com/example/inventory/service/StoreInventoryService.java:25-27 | partitions ("A\|B","C") and ("A","B\|C") share a key: the latter's first write gets version 2, and reading the former returns the latter's record |
| InventoryFlow.SkuSuffixCollision | src/main/java/com/example/inventory/service/CentralInventoryProjection.java:56-60 | store A's SKU "X\|Y" leaks into SKU "Y": its total first lags its filtered sum (1 vs 4), then reads 4 while the only "Y" partition holds 1 |

## Left out

- The event bus (`InMemoryEventBus`) is not modelled as such. It has a blocking queue, a daemon worker thread, Micrometer observation and context snapshots, and it swallows subscriber exceptions. Delivery is modelled as in-order application of the store's published events (`Deliver`), with one subscriber, the projection.
- Concurrency is not modelled. That covers `ConcurrentHashMap.compute` atomicity, concurrent readers and the 8-thread test. Each write is one atomic sequential step, and the thread test becomes `AdjustByOneRepeatedly`.
- InventoryFlow.ReplayMirrorsStore, InventoryFlow.ProjectionMatchesStore and InventoryFlow.ProjectPublished assume each partition's events are published, and so delivered, in version order. The service publishes outside its per-key atomic update, so concurrent writers do not guarantee that order; `OutOfOrderDeliveryLosesWrite` shows the projection then diverges from the store.
- The REST controllers, request DTO validation, observation configuration, `@PostConstruct` subscription and the load-test script are not modelled. They are adapters around the core.
- Optimistic locking (`If-Match` / expected version), retries, dead-lettering and rollback on publish failure are not modelled. The code has none of them.
- Timestamps (`Instant.now()`) are a parameter `now`; no result depends on their value.
- `Objects.requireNonNull` checks are not modelled: Dafny strings cannot be null.
- The `InventoryRecord` setters and no-argument constructor are not modelled. The core never calls them.
- StoreInventory.StoreInventoryService.AdjustStock: does not model Java `int` overflow of `currentQty + delta` or `long` overflow of the version. Quantities and versions are mathematical integers.
- StoreInventory.StoreInventoryService.ReplaceStock: does not model `long` overflow of the version.
- CentralProjection.CentralInventoryProjection.ApplyAdjust: does not model `int` overflow of the per-store sum or of the SKU total.
- CentralProjection.CentralInventoryProjection.ApplyReplace: does not model `int` overflow of the SKU total. The unused read of the previous total has no effect and is omitted.
