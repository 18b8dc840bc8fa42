/**
 * The per-partition stock store. A map from the key "storeId|sku" to the
 * partition's record; every successful write bumps the partition's version
 * and publishes one event. The events published so far are kept as a ghost
 * log: the store's state is exactly what redoing that log produces.
 */
module StoreInventory {
  import opened InventoryModel

  datatype StoreError = IllegalArgument(message: string)

  datatype Result<T> = Ok(value: T) | Err(error: StoreError)

  /** The record stored for a partition, if it was ever written. */
  function Lookup(state: map<string, InventoryRecord>, storeId: string, sku: string): Option<InventoryRecord> {
    var k := Key(storeId, sku);
    if k in state then Some(state[k]) else None
  }

  /** The version a write gives a partition: 1 on the first write, else one more than before. */
  function NextVersion(current: Option<InventoryRecord>): int {
    if current.None? then 1 else current.value.version + 1
  }

  /** The record a replace writes over the partition's current record. */
  function ReplacedRecord(current: Option<InventoryRecord>, storeId: string, sku: string, quantity: int, now: Instant): InventoryRecord {
    InventoryRecord(storeId, sku, quantity, NextVersion(current), now)
  }

  /** The record an adjust writes: the quantity moves by delta and never drops below zero. */
  function AdjustedRecord(current: Option<InventoryRecord>, storeId: string, sku: string, delta: int, now: Instant): InventoryRecord {
    var currentQty := if current.None? then 0 else current.value.quantity;
    InventoryRecord(storeId, sku, Max(0, currentQty + delta), NextVersion(current), now)
  }

  /** The store after redoing the write that published `e`. */
  function Redo(state: map<string, InventoryRecord>, e: InventoryEvent): map<string, InventoryRecord> {
    var current := Lookup(state, e.storeId, e.sku);
    state[e.PartitionKey() :=
      match e
      case StockReplaced(storeId, sku, quantity, _, now) => ReplacedRecord(current, storeId, sku, quantity, now)
      case StockAdjusted(storeId, sku, delta, _, now) => AdjustedRecord(current, storeId, sku, delta, now)]
  }

  /** The store that results from redoing a log of writes, oldest first, from an empty store. */
  ghost function Rebuild(log: seq<InventoryEvent>): map<string, InventoryRecord> {
    if log == [] then map[] else Redo(Rebuild(log[..|log| - 1]), log[|log| - 1])
  }

  /** The number of events in the log that belong to the partition with key `k`. */
  function Count(log: seq<InventoryEvent>, k: string): nat {
    if log == [] then 0
    else Count(log[..|log| - 1], k) + (if log[|log| - 1].PartitionKey() == k then 1 else 0)
  }

  /** Every event's version is one more than the number of earlier events of its partition. */
  ghost predicate Sequential(log: seq<InventoryEvent>) {
    forall i :: 0 <= i < |log| ==> log[i].version == Count(log[..i], log[i].PartitionKey()) + 1
  }

  /** No stored quantity is negative and every stored version is at least 1. */
  ghost predicate WellFormed(state: map<string, InventoryRecord>) {
    forall k :: k in state ==> state[k].quantity >= 0 && state[k].version >= 1
  }

  /**
   * A partition is present exactly when some write reached it, and its
   * version is the number of writes it has received: versions are gap-free.
   */
  lemma {:induction false} RebuildCountsWrites(log: seq<InventoryEvent>, k: string)
    ensures k in Rebuild(log) <==> Count(log, k) > 0
    ensures k in Rebuild(log) ==> Rebuild(log)[k].version == Count(log, k)
  {
    if log != [] {
      RebuildCountsWrites(log[..|log| - 1], k);
    }
  }

  /** Appending one write whose version follows its partition's count keeps the log sequential. */
  lemma SequentialAppend(log: seq<InventoryEvent>, e: InventoryEvent)
    requires Sequential(log)
    requires e.version == Count(log, e.PartitionKey()) + 1
    ensures Sequential(log + [e])
  {
    var log' := log + [e];
    forall i | 0 <= i < |log'|
      ensures log'[i].version == Count(log'[..i], log'[i].PartitionKey()) + 1
    {
      if i < |log| {
        assert log'[..i] == log[..i];
      } else {
        assert log'[..i] == log;
      }
    }
  }

  /**
   * Publishing one more write whose version follows the partition's current
   * record keeps the log's invariants: the store becomes that write redone,
   * the log stays sequential, quantities stay non-negative, and the
   * partition's version is its new write count.
   */
  lemma RecordWrite(log: seq<InventoryEvent>, e: InventoryEvent)
    requires Sequential(log) && WellFormed(Rebuild(log))
    requires e.version == NextVersion(Lookup(Rebuild(log), e.storeId, e.sku))
    requires e.StockReplaced? ==> e.quantity >= 0
    ensures Rebuild(log + [e]) == Redo(Rebuild(log), e)
    ensures Sequential(log + [e]) && WellFormed(Rebuild(log + [e]))
    ensures Count(log + [e], e.PartitionKey()) == e.version
  {
    var k := e.PartitionKey();
    RebuildCountsWrites(log, k);
    SequentialAppend(log, e);
    assert (log + [e])[..|log|] == log;
  }

  /**
   * A write changes only the partition it names: when store ids hold no
   * separator, every other (store, SKU) pair reads the same record as before.
   */
  lemma WriteIsolatesPartitions(state: map<string, InventoryRecord>, e: InventoryEvent, storeId: string, sku: string)
    requires SeparatorFree(e.storeId) && SeparatorFree(storeId)
    requires storeId != e.storeId || sku != e.sku
    ensures Lookup(Redo(state, e), storeId, sku) == Lookup(state, storeId, sku)
  {
    if Key(storeId, sku) == e.PartitionKey() {
      KeyInjective(storeId, sku, e.storeId, e.sku);
    }
  }

  class StoreInventoryService {
    /** Key "storeId|sku" to the partition's record. */
    var storeState: map<string, InventoryRecord>
    /** The events published so far, in call order. */
    ghost var published: seq<InventoryEvent>

    ghost predicate Valid()
      reads this
    {
      && storeState == Rebuild(published)
      && Sequential(published)
      && WellFormed(storeState)
    }

    constructor ()
      ensures Valid()
      ensures storeState == map[] && published == []
    {
      storeState := map[];
      published := [];
    }

    /**
     * Sets a partition's quantity. A negative quantity is refused and changes
     * nothing; otherwise the partition's version goes up by one (1 on its first
     * write) and one StockReplaced event with the new quantity and version is published.
     */
    method ReplaceStock(storeId: string, sku: string, quantity: int, now: Instant) returns (r: Result<InventoryRecord>)
      requires Valid()
      modifies this
      ensures Valid()
      ensures r.Err? <==> quantity < 0
      ensures r.Err? ==> storeState == old(storeState) && published == old(published)
      ensures r.Ok? ==>
        && r.value == InventoryRecord(storeId, sku, quantity, r.value.version, now)
        && r.value.version == (if Key(storeId, sku) in old(storeState) then old(storeState)[Key(storeId, sku)].version + 1 else 1)
        && r.value.version == Count(published, Key(storeId, sku))
        && storeState == old(storeState)[Key(storeId, sku) := r.value]
        && published == old(published) + [StockReplaced(storeId, sku, quantity, r.value.version, now)]
    {
      if quantity < 0 {
        return Err(IllegalArgument("quantity must be >= 0"));
      }
      var k := Key(storeId, sku);
      var next := ReplacedRecord(Lookup(storeState, storeId, sku), storeId, sku, quantity, now);
      var e := StockReplaced(storeId, sku, next.quantity, next.version, next.updatedAt);
      RecordWrite(published, e);
      storeState := storeState[k := next];
      published := published + [e];
      r := Ok(next);
    }

    /**
     * Moves a partition's quantity by delta, clamping at zero, with an unwritten
     * partition counting as zero. The version goes up by one (1 on its first
     * write) and one StockAdjusted event carrying the delta is published.
     */
    method AdjustStock(storeId: string, sku: string, delta: int, now: Instant) returns (r: InventoryRecord)
      requires Valid()
      modifies this
      ensures Valid()
      ensures r.storeId == storeId && r.sku == sku && r.updatedAt == now
      ensures var k := Key(storeId, sku);
        && r.quantity == Max(0, (if k in old(storeState) then old(storeState)[k].quantity else 0) + delta)
        && r.version == (if k in old(storeState) then old(storeState)[k].version + 1 else 1)
        && r.version == Count(published, k)
        && storeState == old(storeState)[k := r]
      ensures published == old(published) + [StockAdjusted(storeId, sku, delta, r.version, now)]
    {
      var k := Key(storeId, sku);
      var next := AdjustedRecord(Lookup(storeState, storeId, sku), storeId, sku, delta, now);
      var e := StockAdjusted(storeId, sku, delta, next.version, next.updatedAt);
      RecordWrite(published, e);
      storeState := storeState[k := next];
      published := published + [e];
      r := next;
    }

    /**
     * The stored record of a partition, or none. A partition is absent exactly
     * when it was never written; a present one has a non-negative quantity and
     * a version equal to the number of writes it received.
     */
    function GetStock(storeId: string, sku: string): (r: Option<InventoryRecord>)
      reads this
      ensures r.Some? <==> Key(storeId, sku) in storeState
      ensures r.Some? ==> r.value == storeState[Key(storeId, sku)]
      ensures Valid() ==> (r.None? <==> Count(published, Key(storeId, sku)) == 0)
      ensures Valid() && r.Some? ==> r.value.quantity >= 0 && r.value.version == Count(published, Key(storeId, sku))
    {
      RebuildCountsWrites(published, Key(storeId, sku));
      Lookup(storeState, storeId, sku)
    }
  }
}
