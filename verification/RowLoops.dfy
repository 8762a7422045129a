/** The loops the order services run over query results, proved against the specification of the tables. */
module RowLoops {
  import opened Foundations
  import opened Schema
  import opened Allocation
  import opened Payments
  import opened Carts

  /** One item per product in an order, of positive quantity, and the item sequence ahead of every item. */
  ghost predicate Tidy(items: map<ItemId, OrderItem>, nextItem: ItemId) {
    UniqueProducts(items) && PositiveQuantities(items) && forall i <- items :: i < nextItem
  }

  lemma ConstraintsAreTidy(db: Database)
    requires Constraints(db)
    ensures Tidy(db.items, db.nextItem)
  {
  }

  /** An unsaved `LicenseAssignment`. */
  datatype Assignment = Assignment(key: KeyId, item: ItemId)

  /** The items of an order in `ORDER BY product_id, id`. */
  function ItemsByProduct(items: map<ItemId, OrderItem>, order: OrderId): seq<ItemId> {
    ItemsAlong(items, order, AllIds(Products(items, order)))
  }

  function ItemsAlong(items: map<ItemId, OrderItem>, order: OrderId, products: seq<ProductId>): seq<ItemId> {
    if products == [] then []
    else
      var last := products[|products| - 1];
      ItemsAlong(items, order, products[..|products| - 1]) + AllIds(ItemsFor(items, order, last))
  }

  lemma {:induction false} ItemsAlongLists(items: map<ItemId, OrderItem>, order: OrderId, products: seq<ProductId>)
    ensures forall i :: i in ItemsAlong(items, order, products) <==> i in ItemsOf(items, order) && items[i].product in products
  {
    if products != [] {
      var n := |products| - 1;
      ItemsAlongLists(items, order, products[..n]);
      assert products == products[..n] + [products[n]];
    }
  }

  /** The query lists exactly the items of the order. */
  lemma ItemsByProductLists(items: map<ItemId, OrderItem>, order: OrderId)
    ensures forall i :: i in ItemsByProduct(items, order) <==> i in ItemsOf(items, order)
  {
    ItemsAlongLists(items, order, AllIds(Products(items, order)));
  }

  /** The rows written by `bulk_create`. */
  function AsRows(list: seq<Assignment>): map<KeyId, ItemId> {
    if list == [] then map[]
    else AsRows(list[..|list| - 1])[list[|list| - 1].key := list[|list| - 1].item]
  }

  /** No key is listed for two items. */
  ghost predicate Consistent(list: seq<Assignment>) {
    forall a, b | a in list && b in list && a.key == b.key :: a.item == b.item
  }

  lemma {:induction false} RowsOfList(list: seq<Assignment>)
    requires Consistent(list)
    ensures forall k, i :: k in AsRows(list) && AsRows(list)[k] == i <==> Assignment(k, i) in list
  {
    if list != [] {
      var n := |list| - 1;
      assert list == list[..n] + [list[n]];
      RowsOfList(list[..n]);
    }
  }

  // ---------------------------------------------------------------- loops over query results

  /**
   * `_locked_reservation_assignments`, for any assignment table: the counting loop returns
   * nothing iff the order's items have no assignment, all of them iff each item has exactly its
   * quantity of reserved keys of its product, and raises otherwise.
   */
  method LockedReservationAssignments(
    keys: map<KeyId, LicenseKey>, items: map<ItemId, OrderItem>, assignments: map<KeyId, ItemId>,
    order: OrderId, orderItems: seq<ItemId>
  ) returns (held: Result<seq<KeyId>, Error>)
    requires forall i :: i in orderItems <==> i in ItemsOf(items, order)
    ensures match held
            case Ok(ks) => LockedReservation(keys, items, assignments, order) == Ok(SeqSet(ks)) && Ascending(ks)
            case Err(error) => LockedReservation(keys, items, assignments, order) == Err(error)
  {
    hide CountUpTo, HeldBy, LockedReservation;
    var listed := AllIds(HeldFor(assignments, items, order));
    assert SeqSet(listed) == HeldFor(assignments, items, order);
    CountNone(assignments, listed);
    if listed == [] {
      NothingHeld(keys, items, assignments, order);
      return Ok([]);
    }
    assert forall m | 0 <= m < |listed| :: listed[m] in HeldFor(assignments, items, order);
    assert listed[0] in HeldFor(assignments, items, order);
    var counts := map i | i in orderItems :: 0;
    for n := 0 to |listed|
      invariant counts.Keys == SeqSet(orderItems)
      invariant forall i <- counts :: counts[i] == CountUpTo(assignments, listed, i, n)
      invariant forall m | 0 <= m < n :: IsReservedFor(keys, items, assignments, listed[m])
    {
      var k := listed[n];
      assert k in SeqSet(listed);
      var item := assignments[k];
      if item !in counts || k !in keys || keys[k].product != items[item].product || keys[k].status != Reserved {
        BadKey(keys, items, assignments, order, k);
        return Err(ReservationInconsistent);
      }
      CountOne(assignments, listed, n);
      counts := counts[item := counts[item] + 1];
    }
    CountAll(assignments, items, order, listed);
    var mismatch := AnyMismatch(counts, items, orderItems);
    if mismatch.Some? {
      BadCount(keys, items, assignments, order, mismatch.value);
      return Err(ReservationInconsistent);
    }
    forall i | i in ItemsOf(items, order)
      ensures |HeldBy(assignments, i)| == items[i].quantity
    {
      assert i in orderItems;
    }
    AllGood(keys, items, assignments, order);
    held := Ok(listed);
  }

  /** An item whose count differs from its quantity, if there is one. */
  method AnyMismatch(counts: map<ItemId, nat>, items: map<ItemId, OrderItem>, orderItems: seq<ItemId>) returns (mismatch: Option<ItemId>)
    requires forall i <- orderItems :: i in counts && i in items
    ensures mismatch.None? ==> forall i <- orderItems :: counts[i] == items[i].quantity
    ensures mismatch.Some? ==> mismatch.value in orderItems && counts[mismatch.value] != items[mismatch.value].quantity
  {
    for m := 0 to |orderItems|
      invariant forall j | 0 <= j < m :: counts[orderItems[j]] == items[orderItems[j]].quantity
    {
      if counts[orderItems[m]] != items[orderItems[m]].quantity {
        return Some(orderItems[m]);
      }
    }
    mismatch := None;
  }

  lemma NothingHeld(keys: map<KeyId, LicenseKey>, items: map<ItemId, OrderItem>, assignments: map<KeyId, ItemId>, order: OrderId)
    requires HeldFor(assignments, items, order) == {}
    ensures LockedReservation(keys, items, assignments, order) == Ok({})
  {
  }

  lemma BadKey(
    keys: map<KeyId, LicenseKey>, items: map<ItemId, OrderItem>, assignments: map<KeyId, ItemId>, order: OrderId, k: KeyId)
    requires k in HeldFor(assignments, items, order) && !IsReservedFor(keys, items, assignments, k)
    ensures LockedReservation(keys, items, assignments, order) == Err(ReservationInconsistent)
  {
  }

  lemma BadCount(
    keys: map<KeyId, LicenseKey>, items: map<ItemId, OrderItem>, assignments: map<KeyId, ItemId>, order: OrderId, i: ItemId)
    requires i in ItemsOf(items, order) && |HeldBy(assignments, i)| != items[i].quantity
    requires HeldFor(assignments, items, order) != {}
    ensures LockedReservation(keys, items, assignments, order) == Err(ReservationInconsistent)
  {
  }

  lemma AllGood(keys: map<KeyId, LicenseKey>, items: map<ItemId, OrderItem>, assignments: map<KeyId, ItemId>, order: OrderId)
    requires forall k <- HeldFor(assignments, items, order) :: IsReservedFor(keys, items, assignments, k)
    requires forall i <- ItemsOf(items, order) :: |HeldBy(assignments, i)| == items[i].quantity
    ensures LockedReservation(keys, items, assignments, order) == Ok(HeldFor(assignments, items, order))
  {
  }

  ghost predicate IsReservedFor(
    keys: map<KeyId, LicenseKey>, items: map<ItemId, OrderItem>, assignments: map<KeyId, ItemId>, k: KeyId)
    requires k in assignments && assignments[k] in items
  {
    k in keys && keys[k] == LicenseKey(items[assignments[k]].product, Reserved)
  }

  ghost function CountUpTo(assignments: map<KeyId, ItemId>, listed: seq<KeyId>, i: ItemId, n: nat): nat
    requires n <= |listed|
  {
    |HeldBy(assignments, i) * SeqSet(listed[..n])|
  }

  lemma CountNone(assignments: map<KeyId, ItemId>, listed: seq<KeyId>)
    ensures forall i :: CountUpTo(assignments, listed, i, 0) == 0
  {
    assert listed[..0] == [];
    assert forall i :: HeldBy(assignments, i) * SeqSet<KeyId>([]) == {};
  }

  /** One more listed assignment adds one to its own item's count and nothing to any other. */
  lemma CountOne(assignments: map<KeyId, ItemId>, listed: seq<KeyId>, n: nat)
    requires n < |listed| && Ascending(listed) && listed[n] in assignments
    ensures forall i :: CountUpTo(assignments, listed, i, n + 1)
                     == CountUpTo(assignments, listed, i, n) + if i == assignments[listed[n]] then 1 else 0
  {
    assert listed[..n + 1] == listed[..n] + [listed[n]];
    assert listed[n] !in SeqSet(listed[..n]);
    forall i
      ensures CountUpTo(assignments, listed, i, n + 1)
           == CountUpTo(assignments, listed, i, n) + if i == assignments[listed[n]] then 1 else 0
    {
      assert HeldBy(assignments, i) * SeqSet(listed[..n + 1])
          == HeldBy(assignments, i) * SeqSet(listed[..n]) + if i == assignments[listed[n]] then {listed[n]} else {};
    }
  }

  /** Counting over the whole list counts everything an item of the order holds. */
  lemma CountAll(assignments: map<KeyId, ItemId>, items: map<ItemId, OrderItem>, order: OrderId, listed: seq<KeyId>)
    requires SeqSet(listed) == HeldFor(assignments, items, order)
    ensures forall i <- ItemsOf(items, order) :: CountUpTo(assignments, listed, i, |listed|) == |HeldBy(assignments, i)|
  {
    assert listed[..|listed|] == listed;
    forall i | i in ItemsOf(items, order)
      ensures HeldBy(assignments, i) * SeqSet(listed) == HeldBy(assignments, i)
    {
    }
  }

  /** The unsaved assignments of one item, for the first `n` of its keys. */
  ghost predicate ListsItem(list: seq<Assignment>, ks: seq<KeyId>, item: ItemId) {
    forall k <- ks :: Assignment(k, item) in list
  }

  ghost function ItemKeys(keys: map<KeyId, LicenseKey>, items: map<ItemId, OrderItem>, pool: set<KeyId>, item: ItemId): seq<KeyId>
    requires item in items
  {
    FirstIds(Stock(keys, pool, items[item].product), items[item].quantity)
  }

  /** Exactly the claims of the listed items. */
  ghost predicate ListsClaims(
    list: seq<Assignment>, keys: map<KeyId, LicenseKey>, items: map<ItemId, OrderItem>, pool: set<KeyId>, done: seq<ItemId>)
    requires forall i <- done :: i in items
  {
    && (forall a <- list :: a.item in done && a.key in ItemKeys(keys, items, pool, a.item))
    && (forall i <- done :: ListsItem(list, ItemKeys(keys, items, pool, i), i))
  }

  /**
   * The allocation loop of `reserve_order_licenses` and `_fulfil_order`: item by item, the lowest
   * ids of the item's product, all or nothing. No status is written before the loop is over.
   */
  method SelectKeys(
    keys: map<KeyId, LicenseKey>, items: map<ItemId, OrderItem>, order: OrderId, orderItems: seq<ItemId>, pool: set<KeyId>
  ) returns (selected: Result<seq<Assignment>, Error>)
    requires UniqueProducts(items) && forall i :: i in orderItems <==> i in ItemsOf(items, order)
    requires forall m | 0 <= m < |orderItems| :: orderItems[m] in items
    ensures selected.Ok? <==> EnoughStock(keys, items, order, pool)
    ensures selected.Ok? ==> AsRows(selected.value) == Claims(keys, items, order, pool) && Consistent(selected.value)
    ensures selected.Ok? && orderItems != [] && items[orderItems[0]].quantity >= 1 ==>
              selected.value != [] && ItemKeys(keys, items, pool, orderItems[0]) != []
              && selected.value[0].key == ItemKeys(keys, items, pool, orderItems[0])[0]
    ensures selected.Err? ==> selected.error == NoKeysAvailable
  {
    hide ListsClaims, AsRows, Claims;
    var list: seq<Assignment> := [];
    assert ListsClaims(list, keys, items, pool, orderItems[..0]) by { NothingListed(keys, items, pool, orderItems[..0]); }
    for n := 0 to |orderItems|
      invariant forall m | 0 <= m < n ::
        items[orderItems[m]].quantity <= |Stock(keys, pool, items[orderItems[m]].product)|
      invariant ListsClaims(list, keys, items, pool, orderItems[..n])
      invariant n == 0 ==> list == []
      invariant n > 0 && items[orderItems[0]].quantity >= 1 ==>
        list != [] && ItemKeys(keys, items, pool, orderItems[0]) != []
        && list[0].key == ItemKeys(keys, items, pool, orderItems[0])[0]
    {
      var item := orderItems[n];
      var itemKeys := FirstIds(Stock(keys, pool, items[item].product), items[item].quantity);
      if |itemKeys| != items[item].quantity {
        assert !EnoughStock(keys, items, order, pool) by { assert item in ItemsOf(items, order); }
        return Err(NoKeysAvailable);
      }
      var extended := Append(list, itemKeys, item);
      ListedOneMore(list, extended, keys, items, pool, orderItems, n);
      list := extended;
    }
    assert orderItems[..|orderItems|] == orderItems;
    ListedAll(list, keys, items, order, orderItems, pool);
    selected := Ok(list);
  }

  /** The inner loop: one unsaved assignment for each of the item's keys. */
  method Append(list: seq<Assignment>, itemKeys: seq<KeyId>, item: ItemId) returns (extended: seq<Assignment>)
    ensures |extended| == |list| + |itemKeys|
    ensures forall j | 0 <= j < |list| :: extended[j] == list[j]
    ensures forall j | 0 <= j < |itemKeys| :: extended[|list| + j] == Assignment(itemKeys[j], item)
  {
    extended := list;
    for j := 0 to |itemKeys|
      invariant |extended| == |list| + j
      invariant forall m | 0 <= m < |list| :: extended[m] == list[m]
      invariant forall m | 0 <= m < j :: extended[|list| + m] == Assignment(itemKeys[m], item)
    {
      extended := extended + [Assignment(itemKeys[j], item)];
    }
  }

  lemma NothingListed(keys: map<KeyId, LicenseKey>, items: map<ItemId, OrderItem>, pool: set<KeyId>, none: seq<ItemId>)
    requires none == []
    ensures ListsClaims([], keys, items, pool, none)
  {
  }

  lemma ListedOneMore(
    list: seq<Assignment>, extended: seq<Assignment>, keys: map<KeyId, LicenseKey>, items: map<ItemId, OrderItem>,
    pool: set<KeyId>, orderItems: seq<ItemId>, n: nat)
    requires n < |orderItems| && forall i <- orderItems :: i in items
    requires ListsClaims(list, keys, items, pool, orderItems[..n])
    requires var ks := ItemKeys(keys, items, pool, orderItems[n]);
             && |extended| == |list| + |ks|
             && (forall j | 0 <= j < |list| :: extended[j] == list[j])
             && (forall j | 0 <= j < |ks| :: extended[|list| + j] == Assignment(ks[j], orderItems[n]))
    ensures ListsClaims(extended, keys, items, pool, orderItems[..n + 1])
  {
    var ks := ItemKeys(keys, items, pool, orderItems[n]);
    assert orderItems[..n + 1] == orderItems[..n] + [orderItems[n]];
    hide ItemKeys;
    forall a | a in extended
      ensures a in list || (a.item == orderItems[n] && a.key in ks)
    {
      var j :| 0 <= j < |extended| && extended[j] == a;
      if j < |list| {
        assert list[j] in list;
      } else {
        assert extended[|list| + (j - |list|)] == Assignment(ks[j - |list|], orderItems[n]);
      }
    }
    forall a | a in list
      ensures a in extended
    {
      var j :| 0 <= j < |list| && list[j] == a;
      assert extended[j] in extended;
    }
    forall k | k in ks
      ensures Assignment(k, orderItems[n]) in extended
    {
      var j :| 0 <= j < |ks| && ks[j] == k;
      assert extended[|list| + j] in extended;
    }
    forall i | i in orderItems[..n + 1]
      ensures ListsItem(extended, ItemKeys(keys, items, pool, i), i)
    {
      if i in orderItems[..n] {
        assert ListsItem(list, ItemKeys(keys, items, pool, i), i);
      }
    }
  }

  /** A list of all items' claims writes exactly the claimed rows. */
  lemma ListedAll(
    list: seq<Assignment>, keys: map<KeyId, LicenseKey>, items: map<ItemId, OrderItem>, order: OrderId, orderItems: seq<ItemId>,
    pool: set<KeyId>)
    requires UniqueProducts(items) && forall i :: i in orderItems <==> i in ItemsOf(items, order)
    requires ListsClaims(list, keys, items, pool, orderItems)
    ensures AsRows(list) == Claims(keys, items, order, pool) && Consistent(list)
  {
    var claims := Claims(keys, items, order, pool);
    forall a | a in list
      ensures a.key in claims && claims[a.key] == a.item
    {
      ItemClaim(keys, items, order, pool, a.item);
      assert a.key in HeldBy(claims, a.item);
    }
    forall k | k in claims
      ensures Assignment(k, claims[k]) in list
    {
      var i := claims[k];
      assert i in orderItems && ListsItem(list, ItemKeys(keys, items, pool, i), i);
      ItemClaim(keys, items, order, pool, i);
      assert k in HeldBy(claims, i);
    }
    hide Claims, ListsClaims, ListsItem;
    SameRows(list, claims);
  }

  lemma SameRows(list: seq<Assignment>, claims: map<KeyId, ItemId>)
    requires forall a <- list :: a.key in claims && claims[a.key] == a.item
    requires forall k <- claims :: Assignment(k, claims[k]) in list
    ensures AsRows(list) == claims && Consistent(list)
  {
    RowsOfList(list);
    forall k | k in AsRows(list)
      ensures k in claims && claims[k] == AsRows(list)[k]
    {
      assert Assignment(k, AsRows(list)[k]) in list;
    }
    forall k | k in claims
      ensures k in AsRows(list)
    {
      assert Assignment(k, claims[k]) in list;
    }
  }

  /** The loop that sets the status of every key of a reservation, and the update that saves them. */
  method SetStatuses(keys: map<KeyId, LicenseKey>, chosen: seq<KeyId>, status: KeyStatus) returns (after: map<KeyId, LicenseKey>)
    requires forall k <- chosen :: k in keys
    ensures after == SetStatus(keys, SeqSet(chosen), status)
  {
    after := keys;
    for n := 0 to |chosen|
      invariant after == SetStatus(keys, SeqSet(chosen[..n]), status)
    {
      assert chosen[..n + 1] == chosen[..n] + [chosen[n]];
      assert chosen[n] in chosen;
      after := after[chosen[n] := after[chosen[n]].(status := status)];
    }
    assert chosen[..|chosen|] == chosen;
  }

  lemma ReservedKeysExist(
    keys: map<KeyId, LicenseKey>, items: map<ItemId, OrderItem>, assignments: map<KeyId, ItemId>, order: OrderId, held: set<KeyId>)
    requires LockedReservation(keys, items, assignments, order) == Ok(held)
    ensures held <= keys.Keys
  {
  }

  /** The assignments a reservation adds: none when the order holds a complete reservation already. */
  method SelectReservation(db: Database, order: OrderId, orderItems: seq<ItemId>, locked: set<KeyId>)
    returns (selected: Result<seq<Assignment>, Error>)
    requires Tidy(db.items, db.nextItem) && orderItems == ItemsByProduct(db.items, order)
    ensures match selected
            case Ok(list) =>
              && Hold(db, order, locked) == Ok(Grant(db, AsRows(list), Reserved))
              && SeqSet(KeysListed(list)) == AsRows(list).Keys && AsRows(list).Keys <= db.keys.Keys
            case Err(error) => Hold(db, order, locked) == Err(error)
  {
    ItemsByProductLists(db.items, order);
    hide ItemsByProduct, LockedReservation, EnoughStock, Claims, ReservationPool, KeysListed, AsRows, SetStatus, Consistent;
    if orderItems == [] {
      assert forall i <- db.items :: i in ItemsOf(db.items, order) <==> i in orderItems;
      return Err(NoProductReference);
    }
    assert orderItems[0] in ItemsOf(db.items, order);
    assert forall m | 0 <= m < |orderItems| :: orderItems[m] in ItemsOf(db.items, order);
    var existing := LockedReservationAssignments(db.keys, db.items, db.assignments, order, orderItems);
    if existing.Err? { return Err(existing.error); }
    if existing.value != [] {
      assert existing.value[0] in SeqSet(existing.value);
      GrantNothing(db);
      return Ok([]);
    }
    selected := SelectKeys(db.keys, db.items, order, orderItems, ReservationPool(db.keys, db.assignments, locked));
    if selected.Ok? {
      KeysListedAreRows(selected.value);
      ClaimedKeysExist(db, order, ReservationPool(db.keys, db.assignments, locked));
    }
  }

  lemma ClaimedKeysExist(db: Database, order: OrderId, pool: set<KeyId>)
    ensures Claims(db.keys, db.items, order, pool).Keys <= db.keys.Keys
  {
  }

  lemma GrantNothing(db: Database)
    ensures Grant(db, AsRows([]), Reserved) == db && AsRows([]) == map[] && KeysListed([]) == []
  {
    assert db.assignments + map[] == db.assignments;
  }

  /** What `_fulfil_order` writes: the unsaved assignments, and the returned keys, which become sold. */
  datatype Sale = Sale(list: seq<Assignment>, licenseKeys: seq<KeyId>)

  function KeysListed(list: seq<Assignment>): seq<KeyId> {
    seq(|list|, j requires 0 <= j < |list| => list[j].key)
  }

  lemma KeysListedAreRows(list: seq<Assignment>)
    requires Consistent(list)
    ensures SeqSet(KeysListed(list)) == AsRows(list).Keys
  {
    RowsOfList(list);
    forall k
      ensures k in SeqSet(KeysListed(list)) <==> k in AsRows(list)
    {
      if k in KeysListed(list) {
        var j :| 0 <= j < |list| && KeysListed(list)[j] == k;
        assert Assignment(k, list[j].item) in list;
      }
      if k in AsRows(list) {
        var j :| 0 <= j < |list| && list[j] == Assignment(k, AsRows(list)[k]);
        assert KeysListed(list)[j] in KeysListed(list);
      }
    }
  }

  /** The keys and assignments `_fulfil_order` chooses, and the first key it returns. */
  method SelectSale(db: Database, order: OrderId, orderItems: seq<ItemId>, requireReservation: bool)
    returns (selected: Result<Sale, Error>)
    requires Tidy(db.items, db.nextItem) && orderItems == ItemsByProduct(db.items, order)
    ensures match selected
            case Ok(sale) =>
              && sale.licenseKeys != [] && SeqSet(sale.licenseKeys) <= db.keys.Keys
              && Fulfil(db, order, requireReservation) == Ok(Fulfilment(Sold(db, sale), Some(sale.licenseKeys[0])))
            case Err(error) => Fulfil(db, order, requireReservation) == Err(error)
  {
    ItemsByProductLists(db.items, order);
    hide ItemsByProduct, LockedReservation, EnoughStock, Claims, SalePool, KeysListed, FirstClaim, AsRows, SetStatus, Consistent;
    if orderItems == [] {
      assert forall i <- db.items :: i in ItemsOf(db.items, order) <==> i in orderItems;
      return Err(NoProductReference);
    }
    assert orderItems[0] in ItemsOf(db.items, order);
    assert forall m | 0 <= m < |orderItems| :: orderItems[m] in ItemsOf(db.items, order);
    var existing := LockedReservationAssignments(db.keys, db.items, db.assignments, order, orderItems);
    if existing.Err? { return Err(existing.error); }
    if existing.value != [] {
      FirstOfAscending(existing.value);
      ReservedSale(db, existing.value);
      ReservedKeysExist(db.keys, db.items, db.assignments, order, SeqSet(existing.value));
      return Ok(Sale([], existing.value));
    }
    if requireReservation { return Err(ReservationInconsistent); }
    var list := SelectKeys(db.keys, db.items, order, orderItems, SalePool(db.keys));
    if list.Err? { return Err(list.error); }
    KeysListedAreRows(list.value);
    if exists k <- KeysListed(list.value) :: k in db.assignments { return Err(IntegrityError); }
    FirstSale(db, order, orderItems[0], list.value);
    ClaimedKeysExist(db, order, SalePool(db.keys));
    selected := Ok(Sale(list.value, KeysListed(list.value)));
  }

  /** The tables after a sale is written. */
  ghost function Sold(db: Database, sale: Sale): Database {
    db.(keys := SetStatus(db.keys, SeqSet(sale.licenseKeys), KeyStatus.Sold), assignments := db.assignments + AsRows(sale.list))
  }

  lemma ReservedSale(db: Database, held: seq<KeyId>)
    ensures Sold(db, Sale([], held)) == db.(keys := SetStatus(db.keys, SeqSet(held), KeyStatus.Sold))
  {
    assert db.assignments + map[] == db.assignments;
  }

  lemma {:induction false} ItemsAlongStart(items: map<ItemId, OrderItem>, order: OrderId, products: seq<ProductId>)
    requires products != [] && ItemsFor(items, order, products[0]) != {}
    ensures ItemsAlong(items, order, products) != []
    ensures ItemsAlong(items, order, products)[0] in ItemsFor(items, order, products[0])
  {
    var n := |products| - 1;
    if n > 0 {
      ItemsAlongStart(items, order, products[..n]);
    } else {
      assert AllIds(ItemsFor(items, order, products[0]))[0] in AllIds(ItemsFor(items, order, products[0]));
      assert ItemsAlong(items, order, products[..n]) == [];
    }
  }

  /** The first listed item is of the order's first product. */
  lemma FirstItem(items: map<ItemId, OrderItem>, order: OrderId)
    requires ItemsByProduct(items, order) != []
    ensures ItemsByProduct(items, order)[0] in ItemsFor(items, order, FirstProduct(items, order))
  {
    var products := AllIds(Products(items, order));
    assert products == [] ==> ItemsAlong(items, order, products) == [];
    assert products[0] in products;
    FirstOfAscending(products);
    assert SeqSet(products) == Products(items, order);
    assert ItemsFor(items, order, products[0]) != {} by {
      var i :| i in items && items[i].order == order && items[i].product == products[0];
      assert i in ItemsFor(items, order, products[0]);
    }
    ItemsAlongStart(items, order, products);
  }

  /** The first key listed for a sale from stock is the one the order records. */
  lemma FirstSale(db: Database, order: OrderId, item: ItemId, list: seq<Assignment>)
    requires UniqueProducts(db.items) && PositiveQuantities(db.items)
    requires ItemsByProduct(db.items, order) != [] && ItemsByProduct(db.items, order)[0] == item && item in db.items
    requires AsRows(list) == Claims(db.keys, db.items, order, SalePool(db.keys))
    requires list != [] && ItemKeys(db.keys, db.items, SalePool(db.keys), item) != []
    requires list[0].key == ItemKeys(db.keys, db.items, SalePool(db.keys), item)[0]
    ensures KeysListed(list) != []
    ensures FirstClaim(db, order, AsRows(list)) == Some(KeysListed(list)[0])
  {
    FirstItem(db.items, order);
    var claims := AsRows(list);
    var product := FirstProduct(db.items, order);
    var ks := ItemKeys(db.keys, db.items, SalePool(db.keys), item);
    ItemClaim(db.keys, db.items, order, SalePool(db.keys), item);
    FirstOfAscending(ks);
    assert ItemsFor(db.items, order, product) == {item};
    assert Stock(db.keys, claims.Keys, product) == SeqSet(ks);
  }

  lemma FirstOfAscending(ids: seq<nat>)
    requires ids != [] && Ascending(ids)
    ensures SeqSet(ids) != {} && Least(SeqSet(ids)) == ids[0]
  {
    assert ids[0] in SeqSet(ids);
  }

  // ---------------------------------------------------------------- checkout

  /** Whether some cart row's product has been withdrawn from sale. */
  method AnyUnavailable(cart: map<RowId, CartRow>, catalogue: map<ProductId, Product>, rows: seq<RowId>) returns (found: bool)
    requires forall r <- rows :: r in cart
    ensures found <==> exists r <- rows :: !OnSale(catalogue, cart[r].product)
  {
    for n := 0 to |rows|
      invariant forall m | 0 <= m < n :: OnSale(catalogue, cart[rows[m]].product)
    {
      if !OnSale(catalogue, cart[rows[n]].product) {
        return true;
      }
    }
    found := false;
  }

  method SumRows(cart: map<RowId, CartRow>, catalogue: map<ProductId, Product>, rows: seq<RowId>) returns (total: Money)
    requires Priced(cart, catalogue, rows)
    ensures total == CartTotal(cart, catalogue, rows)
  {
    total := 0;
    for n := 0 to |rows|
      invariant Priced(cart, catalogue, rows[..n]) && total == CartTotal(cart, catalogue, rows[..n])
    {
      assert rows[..n + 1][..n] == rows[..n] && rows[n] in rows;
      total := total + LineTotal(catalogue[cart[rows[n]].product].price, cart[rows[n]].quantity);
    }
    assert rows[..|rows|] == rows;
  }

  /** The `bulk_create` of the order's items. */
  method SnapshotRows(cart: map<RowId, CartRow>, catalogue: map<ProductId, Product>, order: OrderId, low: ItemId, rows: seq<RowId>)
    returns (lines: map<ItemId, OrderItem>)
    requires Priced(cart, catalogue, rows)
    ensures lines == Snapshot(cart, catalogue, order, low, rows)
  {
    lines := map[];
    for n := 0 to |rows|
      invariant Priced(cart, catalogue, rows[..n]) && lines == Snapshot(cart, catalogue, order, low, rows[..n])
    {
      assert rows[..n + 1][..n] == rows[..n] && rows[n] in rows;
      lines := lines[low + n := Line(cart, catalogue, order, rows[n])];
    }
    assert rows[..|rows|] == rows;
  }
}
