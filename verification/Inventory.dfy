/** The inventory_levels table and its batch updates
    (internal/features/inventory/adapter/postgres/repository.go, internal/features/inventory/service.go).
    A guarded batch UPDATE changes every row whose guard holds and leaves the others, so an
    insufficient batch is partially applied until its transaction rolls back. */
module Inventory {
  type ProductId = nat

  datatype Level = Level(available: int, reserved: int)

  type Levels = map<ProductId, Level>

  type Quantities = map<ProductId, int>

  // Reserve: available_stock >= qty

  function Reserved(levels: Levels, q: Quantities): Levels {
    map p | p in levels ::
      if p in q && levels[p].available >= q[p]
      then Level(levels[p].available - q[p], levels[p].reserved + q[p]) else levels[p]
  }

  predicate CanReserve(levels: Levels, q: Quantities) {
    forall p | p in q :: p in levels && levels[p].available >= q[p]
  }

  // Deduct and ReleaseBatch: reserved_stock >= qty

  function Deducted(levels: Levels, q: Quantities): Levels {
    map p | p in levels ::
      if p in q && levels[p].reserved >= q[p]
      then Level(levels[p].available, levels[p].reserved - q[p]) else levels[p]
  }

  function Released(levels: Levels, q: Quantities): Levels {
    map p | p in levels ::
      if p in q && levels[p].reserved >= q[p]
      then Level(levels[p].available + q[p], levels[p].reserved - q[p]) else levels[p]
  }

  predicate Holds(levels: Levels, q: Quantities) {
    forall p | p in q :: p in levels && levels[p].reserved >= q[p]
  }

  // RestockBatch: no guard and no row count

  function Restocked(levels: Levels, q: Quantities): Levels {
    map p | p in levels ::
      if p in q then Level(levels[p].available + q[p], levels[p].reserved) else levels[p]
  }

  /** What inventory.Restore is asked to do: nothing, ReleaseBatch or RestockBatch. */
  datatype Restore = Skip | Release | Restock

  function Restored(levels: Levels, q: Quantities, b: Restore): Levels {
    match b
    case Skip => levels
    case Release => Released(levels, q)
    case Restock => Restocked(levels, q)
  }

  predicate CanRestore(levels: Levels, q: Quantities, b: Restore) {
    b.Release? ==> Holds(levels, q)
  }

  /** AdjustStock: an upsert that sets the units on hand, refused below the reserved quantity.
      The insert arm reserves nothing; a negative quantity violates the table's check. */
  predicate CanAdjust(levels: Levels, p: ProductId, n: int) {
    if p in levels then levels[p].reserved <= n else n >= 0
  }

  function Adjusted(levels: Levels, p: ProductId, n: int): Levels {
    if p in levels then levels[p := Level(n - levels[p].reserved, levels[p].reserved)]
    else levels[p := Level(n, 0)]
  }

  predicate CanTopUp(levels: Levels, p: ProductId, qty: int) {
    p in levels && levels[p].available + qty >= 0
  }

  function ToppedUp(levels: Levels, p: ProductId, qty: int): Levels
    requires p in levels
  {
    levels[p := Level(levels[p].available + qty, levels[p].reserved)]
  }

  lemma RestoreKeepsKeys(levels: Levels, q: Quantities, b: Restore)
    ensures Restored(levels, q, b).Keys == levels.Keys
  {
  }

  /** RowsAffected() == len(ids) exactly when every requested row passed its guard. */
  lemma CountedAll<K>(hit: set<K>, all: set<K>)
    requires hit <= all
    ensures |hit| == |all| <==> hit == all
  {
    assert all == hit + (all - hit);
  }

  /** ReleaseBatch undoes Reserve on every product of an accepted reservation. */
  lemma ReleaseUndoesReserve(levels: Levels, q: Quantities)
    requires CanReserve(levels, q)
    requires forall p | p in levels :: levels[p].reserved >= 0
    ensures Holds(Reserved(levels, q), q)
    ensures Released(Reserved(levels, q), q) == levels
  {
    var held := Reserved(levels, q);
    forall p | p in levels ensures Released(held, q)[p] == levels[p] {
    }
  }
}
