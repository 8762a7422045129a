/** What reserving, selling and releasing the licence keys of one order do to the tables. */
module Allocation {
  import opened Foundations
  import opened Schema

  function SetStatus(keys: map<KeyId, LicenseKey>, chosen: set<KeyId>, status: KeyStatus): map<KeyId, LicenseKey> {
    map k | k in keys :: if k in chosen then keys[k].(status := status) else keys[k]
  }

  /** Keys a reservation may lock: available, unassigned, and not locked by another transaction. */
  function ReservationPool(
    keys: map<KeyId, LicenseKey>, assignments: map<KeyId, ItemId>, locked: set<KeyId>
  ): set<KeyId> {
    set k | k in keys && keys[k].status.Available? && k !in assignments && k !in locked
  }

  /** Keys a completion without reservation may sell; the code does not exclude assigned keys here. */
  function SalePool(keys: map<KeyId, LicenseKey>): set<KeyId> {
    set k | k in keys && keys[k].status.Available?
  }

  /** The keys of a pool that are of one product. */
  function Stock(keys: map<KeyId, LicenseKey>, pool: set<KeyId>, product: ProductId): set<KeyId> {
    set k | k in pool && k in keys && keys[k].product == product
  }

  predicate EnoughStock(
    keys: map<KeyId, LicenseKey>, items: map<ItemId, OrderItem>, order: OrderId, pool: set<KeyId>
  ) {
    forall i <- ItemsOf(items, order) ::
      items[i].quantity <= |Stock(keys, pool, items[i].product)|
  }

  /** Whether key `k` is among the lowest ids that the order's item for `k`'s product needs. */
  predicate IsClaimed(
    keys: map<KeyId, LicenseKey>, items: map<ItemId, OrderItem>, order: OrderId, pool: set<KeyId>, k: KeyId)
    requires k in keys
  {
    var matching := ItemsFor(items, order, keys[k].product);
    matching != {} && k in FirstIds(Stock(keys, pool, keys[k].product), items[Least(matching)].quantity)
  }

  /** The assignments an order takes from a pool. */
  function Claims(
    keys: map<KeyId, LicenseKey>, items: map<ItemId, OrderItem>, order: OrderId, pool: set<KeyId>
  ): map<KeyId, ItemId> {
    map k | k in pool && k in keys && IsClaimed(keys, items, order, pool, k) ::
      Least(ItemsFor(items, order, keys[k].product))
  }

  function Grant(db: Database, claims: map<KeyId, ItemId>, status: KeyStatus): Database {
    db.(keys := SetStatus(db.keys, claims.Keys, status), assignments := db.assignments + claims)
  }

  /** Every item of the order holds exactly its quantity of reserved keys of its own product. */
  predicate FullyReserved(
    keys: map<KeyId, LicenseKey>, items: map<ItemId, OrderItem>, assignments: map<KeyId, ItemId>, order: OrderId
  ) {
    && (forall k <- HeldFor(assignments, items, order) ::
          k in keys && keys[k] == LicenseKey(items[assignments[k]].product, Reserved))
    && (forall i <- ItemsOf(items, order) :: |HeldBy(assignments, i)| == items[i].quantity)
  }

  /** The keys an order has reserved: none, all it needs, or an error. */
  function LockedReservation(
    keys: map<KeyId, LicenseKey>, items: map<ItemId, OrderItem>, assignments: map<KeyId, ItemId>, order: OrderId
  ): Result<set<KeyId>, Error> {
    var held := HeldFor(assignments, items, order);
    if held == {} then Ok({})
    else if FullyReserved(keys, items, assignments, order) then Ok(held)
    else Err(ReservationInconsistent)
  }

  /** Direct orders from before order items existed get their single item on first use. */
  function EnsureItems(db: Database, order: OrderId, price: Money): (r: Result<Database, Error>)
    requires order in db.orders
    ensures r.Ok? ==> r.value == db.(items := r.value.items, nextItem := r.value.nextItem)
  {
    if ItemsOf(db.items, order) != {} || db.orders[order].source.Cart? then Ok(db)
    else if db.orders[order].product.Some? then
      var item := OrderItem(order, db.orders[order].product.value, 1, price);
      Ok(db.(items := db.items[db.nextItem := item], nextItem := db.nextItem + 1))
    else Err(NoProductReference)
  }

  function PayableTotal(db: Database, order: OrderId): Result<Money, Error>
    requires order in db.orders
  {
    if db.orders[order].total.Some? then Ok(db.orders[order].total.value) else Err(NoAuthoritativeTotal)
  }

  /** The part of a reservation after the order's items are known: reuse the reservation or establish it. */
  function Hold(db: Database, order: OrderId, locked: set<KeyId>): Result<Database, Error> {
    if ItemsOf(db.items, order) == {} then Err(NoProductReference)
    else
      var held :- LockedReservation(db.keys, db.items, db.assignments, order);
      var pool := ReservationPool(db.keys, db.assignments, locked);
      if held != {} then Ok(db)
      else if EnoughStock(db.keys, db.items, order, pool) then Ok(Grant(db, Claims(db.keys, db.items, order, pool), Reserved))
      else Err(NoKeysAvailable)
  }

  /** `reserve_order_licenses`. */
  function Reserve(db: Database, order: OrderId, locked: set<KeyId>): Result<Database, Error> {
    if order !in db.orders then Err(DoesNotExist)
    else if db.orders[order].status.Paid? then Err(PaidOrderCannotReserve)
    else
      var price :- PayableTotal(db, order);
      var ready :- EnsureItems(db, order, price);
      Hold(ready, order, locked)
  }

  /** `release_order_license_reservation`. */
  function Release(db: Database, order: OrderId): Result<Database, Error> {
    if order !in db.orders then Err(DoesNotExist)
    else if db.orders[order].status.Paid? then Err(PaidOrderCannotRelease)
    else if ItemsOf(db.items, order) == {} then Ok(db)
    else
      var held :- LockedReservation(db.keys, db.items, db.assignments, order);
      Ok(Return(db, held))
  }

  /** Give keys back: they become available again and their assignments are deleted. */
  function Return(db: Database, held: set<KeyId>): Database {
    db.(keys := SetStatus(db.keys, held, Available), assignments := db.assignments - held)
  }

  // ---------------------------------------------------------------- what a claim is

  /** With one item per product, an item's claim is the lowest ids of its product in the pool. */
  lemma ItemClaim(
    keys: map<KeyId, LicenseKey>, items: map<ItemId, OrderItem>, order: OrderId, pool: set<KeyId>, i: ItemId)
    requires UniqueProducts(items) && i in ItemsOf(items, order)
    ensures HeldBy(Claims(keys, items, order, pool), i)
         == SeqSet(FirstIds(Stock(keys, pool, items[i].product), items[i].quantity))
  {
    assert ItemsFor(items, order, items[i].product) == {i};
  }

  /**
   * Allocation takes exactly each item's quantity, of the item's product, from the pool, and never
   * passes over a lower id. Sets of different items are disjoint because claims form a map.
   */
  lemma ClaimsMeetDemand(
    keys: map<KeyId, LicenseKey>, items: map<ItemId, OrderItem>, order: OrderId, pool: set<KeyId>)
    requires UniqueProducts(items) && EnoughStock(keys, items, order, pool)
    ensures Claims(keys, items, order, pool).Keys <= pool * keys.Keys
    ensures forall k <- Claims(keys, items, order, pool) ::
              && Claims(keys, items, order, pool)[k] in ItemsOf(items, order)
              && items[Claims(keys, items, order, pool)[k]].product == keys[k].product
    ensures forall i <- ItemsOf(items, order) :: |HeldBy(Claims(keys, items, order, pool), i)| == items[i].quantity
    ensures forall k, other | k in Claims(keys, items, order, pool) && other in pool * keys.Keys
              && other !in Claims(keys, items, order, pool) && keys[other].product == keys[k].product :: k < other
  {
    forall i | i in ItemsOf(items, order)
      ensures |HeldBy(Claims(keys, items, order, pool), i)| == items[i].quantity
    {
      ItemClaim(keys, items, order, pool, i);
      DistinctCount(FirstIds(Stock(keys, pool, items[i].product), items[i].quantity));
    }
    ClaimsAreLowest(keys, items, order, pool);
    hide HeldBy;
  }

  lemma ClaimsAreLowest(
    keys: map<KeyId, LicenseKey>, items: map<ItemId, OrderItem>, order: OrderId, pool: set<KeyId>)
    ensures forall k, other | k in Claims(keys, items, order, pool) && other in pool * keys.Keys
              && other !in Claims(keys, items, order, pool) && keys[other].product == keys[k].product :: k < other
  {
    forall k, other | k in Claims(keys, items, order, pool) && other in pool * keys.Keys
      && other !in Claims(keys, items, order, pool) && keys[other].product == keys[k].product
      ensures k < other
    {
      assert other in Stock(keys, pool, keys[k].product);
    }
  }
}
