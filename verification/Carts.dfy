/** The cart operations, and the orders that checkout and direct purchase create. */
module Carts {
  import opened Foundations
  import opened Schema
  import opened Invariants

  // ---------------------------------------------------------------- operations

  function RowsFor(cart: map<RowId, CartRow>, user: UserId, product: ProductId): set<RowId> {
    set r | r in cart && cart[r].user == user && cart[r].product == product
  }

  /** A user's cart rows with ids below `n`, in id order. */
  function RowsOf(cart: map<RowId, CartRow>, user: UserId, n: nat): (rows: seq<RowId>)
    ensures Ascending(rows)
    ensures forall r :: r in rows <==> r in cart && cart[r].user == user && r < n
  {
    if n == 0 then []
    else if n - 1 in cart && cart[n - 1].user == user then
      var rows := RowsOf(cart, user, n - 1);
      assert forall a | 0 <= a < |rows| :: rows[a] in rows;
      rows + [n - 1]
    else RowsOf(cart, user, n - 1)
  }

  predicate OnSale(catalogue: map<ProductId, Product>, product: ProductId) {
    product in catalogue && catalogue[product].active
  }

  /** `add_cart_item`. */
  function AddItem(db: Database, user: UserId, product: ProductId, quantity: int): Result<Database, Error> {
    if !OnSale(db.catalogue, product) then Err(ProductUnavailable)
    else
      var existing := RowsFor(db.cart, user, product);
      var total := quantity + if existing == {} then 0 else db.cart[Least(existing)].quantity;
      if total > MAX_CART_ITEM_QUANTITY then Err(CartConflict)
      else if total < 1 then Err(IntegrityError)
      else if existing != {} then
        Ok(db.(cart := db.cart[Least(existing) := CartRow(user, product, total)]))
      else
        Ok(db.(cart := db.cart[db.nextRow := CartRow(user, product, total)], nextRow := db.nextRow + 1))
  }

  /** `set_cart_item_quantity`. */
  function SetQuantity(db: Database, user: UserId, row: RowId, quantity: int): Result<Database, Error> {
    if row !in db.cart || db.cart[row].user != user then Err(CartItemNotFound)
    else if !(1 <= quantity <= MAX_CART_ITEM_QUANTITY) then Err(ValidationError)
    else Ok(db.(cart := db.cart[row := db.cart[row].(quantity := quantity)]))
  }

  /** `remove_cart_item`. */
  function RemoveItem(db: Database, user: UserId, row: RowId): Result<Database, Error> {
    if row !in db.cart || db.cart[row].user != user then Err(CartItemNotFound)
    else Ok(db.(cart := db.cart - {row}))
  }

  function WithoutUser(cart: map<RowId, CartRow>, user: UserId): map<RowId, CartRow> {
    map r | r in cart && cart[r].user != user :: cart[r]
  }

  /** `clear_cart`. */
  function ClearCart(db: Database, user: UserId): Database {
    db.(cart := WithoutUser(db.cart, user))
  }

  /** Every listed cart row exists and its product has a price. */
  predicate Priced(cart: map<RowId, CartRow>, catalogue: map<ProductId, Product>, rows: seq<RowId>) {
    forall r <- rows :: r in cart && cart[r].product in catalogue
  }

  /** The order item a cart row turns into, at the current catalogue price. */
  function Line(cart: map<RowId, CartRow>, catalogue: map<ProductId, Product>, order: OrderId, r: RowId): OrderItem
    requires r in cart && cart[r].product in catalogue
  {
    OrderItem(order, cart[r].product, cart[r].quantity, catalogue[cart[r].product].price)
  }

  function CartTotal(cart: map<RowId, CartRow>, catalogue: map<ProductId, Product>, rows: seq<RowId>): Money
    requires Priced(cart, catalogue, rows)
  {
    if rows == [] then 0
    else
      var last := rows[|rows| - 1];
      CartTotal(cart, catalogue, rows[..|rows| - 1]) + LineTotal(catalogue[cart[last].product].price, cart[last].quantity)
  }

  /** One order item per cart row, with consecutive ids from `low`. */
  function Snapshot(
    cart: map<RowId, CartRow>, catalogue: map<ProductId, Product>, order: OrderId, low: ItemId, rows: seq<RowId>
  ): (items: map<ItemId, OrderItem>)
    requires Priced(cart, catalogue, rows)
    ensures forall i :: i in items <==> low <= i < low + |rows|
    ensures forall i <- items :: items[i] == Line(cart, catalogue, order, rows[i - low])
  {
    if rows == [] then map[]
    else
      var n := |rows| - 1;
      Snapshot(cart, catalogue, order, low, rows[..n])[low + n := Line(cart, catalogue, order, rows[n])]
  }

  function InsertOrder(db: Database, row: Order, items: map<ItemId, OrderItem>, nextItem: ItemId): Database {
    db.(orders := db.orders[db.nextOrder := row], nextOrder := db.nextOrder + 1,
        items := db.items + items, nextItem := nextItem)
  }

  /** `checkout_cart`: the id of the new order is `db.nextOrder`. */
  function Checkout(db: Database, user: UserId): Result<Database, Error> {
    var rows := RowsOf(db.cart, user, db.nextRow);
    if rows == [] then Err(EmptyCart)
    else if exists r <- rows :: !OnSale(db.catalogue, db.cart[r].product) then Err(ProductUnavailable)
    else
      var items := Snapshot(db.cart, db.catalogue, db.nextOrder, db.nextItem, rows);
      Ok(ClearCart(InsertOrder(db, CheckoutRow(db, rows), items, db.nextItem + |rows|), user))
  }

  function CheckoutRow(db: Database, rows: seq<RowId>): Order
    requires Priced(db.cart, db.catalogue, rows)
  {
    Order(Cart, None, Some(CartTotal(db.cart, db.catalogue, rows)), OrderStatus.Created, None, None, None)
  }

  /** `create_direct_order`. */
  function DirectOrder(db: Database, product: ProductId): Result<Database, Error> {
    if product !in db.catalogue then Err(DoesNotExist)
    else
      var price := db.catalogue[product].price;
      var row := Order(Direct, Some(product), Some(price), OrderStatus.Created, None, None, None);
      Ok(InsertOrder(db, row, map[db.nextItem := OrderItem(db.nextOrder, product, 1, price)], db.nextItem + 1))
  }

  // ---------------------------------------------------------------- new orders keep the invariant

  /** Later items of other orders do not change an order's value. */
  lemma {:induction false} ValueOfOldOrder(items: map<ItemId, OrderItem>, added: map<ItemId, OrderItem>, order: OrderId, low: nat, n: nat)
    requires low <= n && (forall i <- items :: i < low)
    requires forall i <- added :: low <= i && added[i].order != order
    ensures OrderValue(items + added, order, n) == OrderValue(items, order, low)
  {
    if n > low {
      ValueOfOldOrder(items, added, order, low, n - 1);
    } else if low > 0 {
      ValueBelow(items, added, order, low);
    }
  }

  lemma {:induction false} ValueBelow(items: map<ItemId, OrderItem>, added: map<ItemId, OrderItem>, order: OrderId, n: nat)
    requires forall i <- added :: n <= i
    ensures OrderValue(items + added, order, n) == OrderValue(items, order, n)
  {
    if n > 0 {
      ValueBelow(items, added, order, n - 1);
    }
  }

  lemma {:induction false} ValueOfNobody(items: map<ItemId, OrderItem>, order: OrderId, n: nat)
    requires forall i <- items :: items[i].order != order
    ensures OrderValue(items, order, n) == 0
  {
    if n > 0 {
      ValueOfNobody(items, order, n - 1);
    }
  }

  /** A well-formed new order: unpaid, without attempt, with items of distinct products worth its total. */
  ghost predicate NewOrder(db: Database, row: Order, added: map<ItemId, OrderItem>, next: ItemId) {
    && row.status == OrderStatus.Created && row.pricePaid == None && row.licenseKey == None && row.attempt == None
    && added != map[] && db.nextItem <= next
    && (forall i <- added :: db.nextItem <= i < next && added[i].order == db.nextOrder && added[i].quantity >= 1)
    && UniqueProducts(added)
    && (row.source.Cart? ==> row.product == None)
    && (row.source.Direct? ==> forall i, j | i in added && j in added :: i == j)
    && row.total == Some(OrderValue(db.items + added, db.nextOrder, next))
  }

  lemma NewOrderKeys(
    keys: map<KeyId, LicenseKey>, assignments: map<KeyId, ItemId>, items: map<ItemId, OrderItem>, orders: map<OrderId, Order>,
    order: OrderId, row: Order, added: map<ItemId, OrderItem>)
    requires KeyStates(keys, assignments, items, orders) && Holdings(assignments, items, orders)
    requires order !in orders && items.Keys !! added.Keys && !row.HoldsKeys()
    requires forall i <- added :: added[i].order == order
    ensures KeyStates(keys, assignments, items + added, orders[order := row])
    ensures Holdings(assignments, items + added, orders[order := row])
  {
    forall i | i in added
      ensures HeldBy(assignments, i) == {}
    {
    }
  }

  lemma NewOrderPayments(orders: map<OrderId, Order>, payments: map<PaymentId, Payment>, emails: multiset<OrderId>, order: OrderId, row: Order)
    requires Authority(orders, payments) && Outcomes(orders, payments) && Agreement(orders, payments) && Notified(orders, emails)
    requires order !in orders && !row.HoldsKeys() && row.pricePaid == None
    ensures Authority(orders[order := row], payments) && Outcomes(orders[order := row], payments)
    ensures Agreement(orders[order := row], payments) && Notified(orders[order := row], emails)
  {
    assert PaidPayments(payments, order) == {};
    assert order !in emails;
  }

  lemma NewOrderUnique(items: map<ItemId, OrderItem>, added: map<ItemId, OrderItem>, order: OrderId)
    requires UniqueProducts(items) && UniqueProducts(added) && PositiveQuantities(items) && PositiveQuantities(added)
    requires (forall i <- items :: items[i].order != order) && (forall i <- added :: added[i].order == order)
    ensures UniqueProducts(items + added) && PositiveQuantities(items + added)
  {
  }

  lemma OldOrderKeepsItems(items: map<ItemId, OrderItem>, added: map<ItemId, OrderItem>, order: OrderId)
    requires items.Keys !! added.Keys && ItemsOf(items, order) != {}
    ensures ItemsOf(items + added, order) != {}
  {
    var i :| i in ItemsOf(items, order);
    assert i in ItemsOf(items + added, order);
  }

  lemma NewOrderItems(db: Database, row: Order, added: map<ItemId, OrderItem>, next: ItemId)
    requires Sequences(db) && NewOrder(db, row, added, next)
    requires UniqueProducts(db.items) && PositiveQuantities(db.items)
    requires Valued(db.orders, db.items, db.nextItem) && NonEmptyOrders(db.orders, db.items)
    requires Holdings(db.assignments, db.items, db.orders)
    ensures var items := db.items + added;
            && UniqueProducts(items) && PositiveQuantities(items)
            && Valued(db.orders[db.nextOrder := row], items, next)
            && NonEmptyOrders(db.orders[db.nextOrder := row], items)
  {
    hide OrderValue, HeldBy, UniqueProducts;
    var items := db.items + added;
    NewOrderUnique(db.items, added, db.nextOrder);
    forall o | o in db.orders
      ensures OrderValue(items, o, next) == OrderValue(db.items, o, db.nextItem) && ItemsOf(items, o) != {}
    {
      ValueOfOldOrder(db.items, added, o, db.nextItem, next);
      OldOrderKeepsItems(db.items, added, o);
    }
    var i :| i in added;
    assert i in ItemsOf(items, db.nextOrder);
  }

  lemma NewOrderDelivered(
    assignments: map<KeyId, ItemId>, items: map<ItemId, OrderItem>, orders: map<OrderId, Order>,
    order: OrderId, row: Order, added: map<ItemId, OrderItem>)
    requires Delivered(assignments, items, orders)
    requires order !in orders && items.Keys !! added.Keys && !row.status.Paid? && row.licenseKey == None
    ensures Delivered(assignments, items + added, orders[order := row])
  {
  }

  lemma NewOrderDirect(
    orders: map<OrderId, Order>, items: map<ItemId, OrderItem>, added: map<ItemId, OrderItem>, order: OrderId, row: Order)
    requires DirectItems(orders, items) && order !in orders && items.Keys !! added.Keys
    requires (forall i <- items :: items[i].order != order) && (forall i <- added :: added[i].order == order)
    requires row.source.Direct? ==> forall i, j | i in added && j in added :: i == j
    ensures DirectItems(orders[order := row], items + added)
  {
  }

  lemma NewOrderKeepsInv(db: Database, row: Order, added: map<ItemId, OrderItem>, next: ItemId)
    requires Inv(db) && NewOrder(db, row, added, next)
    ensures Inv(InsertOrder(db, row, added, next))
  {
    assert db.nextOrder !in db.orders && db.items.Keys !! added.Keys;
    assert forall i <- db.items :: db.items[i].order != db.nextOrder;
    NewOrderParts(db, row, added, next);
  }

  lemma NewOrderParts(db: Database, row: Order, added: map<ItemId, OrderItem>, next: ItemId)
    requires Inv(db) && NewOrder(db, row, added, next)
    requires db.nextOrder !in db.orders && db.items.Keys !! added.Keys && forall i <- db.items :: db.items[i].order != db.nextOrder
    ensures Inv(InsertOrder(db, row, added, next))
  {
    hide KeyStates, Holdings, Authority, Outcomes, Valued, Agreement, NonEmptyOrders, DirectItems, Delivered, Notified, UniqueProducts,
         PositiveQuantities, UniqueTransactions, CartRows;
    NewOrderKeys(db.keys, db.assignments, db.items, db.orders, db.nextOrder, row, added);
    NewOrderPayments(db.orders, db.payments, db.emails, db.nextOrder, row);
    NewOrderItems(db, row, added, next);
    NewOrderDirect(db.orders, db.items, added, db.nextOrder, row);
    NewOrderDelivered(db.assignments, db.items, db.orders, db.nextOrder, row, added);
  }

  lemma DirectOrderKeepsInv(db: Database, product: ProductId)
    requires Inv(db) && product in db.catalogue
    ensures Inv(DirectOrder(db, product).value)
  {
    var price := db.catalogue[product].price;
    var row := Order(Direct, Some(product), Some(price), OrderStatus.Created, None, None, None);
    var item := OrderItem(db.nextOrder, product, 1, price);
    assert forall i <- db.items :: i < db.nextItem && db.items[i].order != db.nextOrder;
    DirectOrderParts(db, product, row, item);
  }

  lemma DirectOrderParts(db: Database, product: ProductId, row: Order, item: OrderItem)
    requires Inv(db) && product in db.catalogue
    requires row == Order(Direct, Some(product), Some(item.unitPrice), OrderStatus.Created, None, None, None)
    requires item == OrderItem(db.nextOrder, product, 1, db.catalogue[product].price)
    requires forall i <- db.items :: i < db.nextItem && db.items[i].order != db.nextOrder
    ensures Inv(DirectOrder(db, product).value)
  {
    hide KeyStates, Holdings, Authority, Outcomes, Valued, Agreement, NonEmptyOrders, DirectItems, Delivered, Notified,
         PositiveQuantities, UniqueTransactions, CartRows, OrderValue;
    assert db.nextItem in map[db.nextItem := item];
    LastLineValue(db.items, db.nextOrder, db.nextItem, item);
    ValueOfNobody(db.items, db.nextOrder, db.nextItem);
    NewOrderKeepsInv(db, row, map[db.nextItem := item], db.nextItem + 1);
  }

  // ---------------------------------------------------------------- checkout keeps the invariant

  /** The total charged at checkout is the value of the order's item snapshots. */
  lemma {:induction false} SnapshotValue(
    items: map<ItemId, OrderItem>, cart: map<RowId, CartRow>, catalogue: map<ProductId, Product>,
    order: OrderId, low: ItemId, rows: seq<RowId>)
    requires Priced(cart, catalogue, rows)
    requires forall i <- items :: i < low && items[i].order != order
    ensures OrderValue(items + Snapshot(cart, catalogue, order, low, rows), order, low + |rows|)
         == CartTotal(cart, catalogue, rows)
  {
    hide LineTotal, OrderValue, Snapshot;
    if rows == [] {
      EmptySnapshot(items, cart, catalogue, order, low, rows);
      ValueOfNobody(items, order, low);
    } else {
      var n := |rows| - 1;
      SnapshotStep(items, cart, catalogue, order, low, rows);
      SnapshotValue(items, cart, catalogue, order, low, rows[..n]);
      LastLineValue(items + Snapshot(cart, catalogue, order, low, rows[..n]), order, low + n,
                    Line(cart, catalogue, order, rows[n]));
    }
  }

  lemma EmptySnapshot(
    items: map<ItemId, OrderItem>, cart: map<RowId, CartRow>, catalogue: map<ProductId, Product>,
    order: OrderId, low: ItemId, rows: seq<RowId>)
    requires rows == []
    ensures items + Snapshot(cart, catalogue, order, low, rows) == items
  {
  }

  lemma SnapshotStep(
    items: map<ItemId, OrderItem>, cart: map<RowId, CartRow>, catalogue: map<ProductId, Product>,
    order: OrderId, low: ItemId, rows: seq<RowId>)
    requires rows != [] && Priced(cart, catalogue, rows)
    ensures items + Snapshot(cart, catalogue, order, low, rows)
         == items + Snapshot(cart, catalogue, order, low, rows[..|rows| - 1])
            + map[low + |rows| - 1 := Line(cart, catalogue, order, rows[|rows| - 1])]
  {
  }

  lemma LastLineValue(items: map<ItemId, OrderItem>, order: OrderId, n: ItemId, line: OrderItem)
    requires line.order == order
    ensures OrderValue(items + map[n := line], order, n + 1)
         == OrderValue(items, order, n) + LineTotal(line.unitPrice, line.quantity)
  {
    ValueBelow(items, map[n := line], order, n);
  }

  /** Distinct cart products give distinct order products: one row per product in a user's cart. */
  lemma SnapshotIsUnique(
    cart: map<RowId, CartRow>, catalogue: map<ProductId, Product>, order: OrderId, low: ItemId, user: UserId, n: nat)
    requires CartRows(cart) && Priced(cart, catalogue, RowsOf(cart, user, n))
    ensures UniqueProducts(Snapshot(cart, catalogue, order, low, RowsOf(cart, user, n)))
    ensures PositiveQuantities(Snapshot(cart, catalogue, order, low, RowsOf(cart, user, n)))
  {
    var rows := RowsOf(cart, user, n);
    var added := Snapshot(cart, catalogue, order, low, rows);
    forall i | i in added
      ensures added[i].quantity >= 1
    {
      assert rows[i - low] in rows;
    }
    forall i, j | i in added && j in added && added[i].product == added[j].product
      ensures i == j
    {
      assert rows[i - low] in rows && rows[j - low] in rows;
    }
  }

  lemma CartChangeKeepsInv(db: Database, cart: map<RowId, CartRow>, nextRow: RowId)
    requires Inv(db) && CartRows(cart) && forall r <- cart :: r < nextRow
    ensures Inv(db.(cart := cart, nextRow := nextRow))
  {
    hide KeyStates, Holdings, Authority, Outcomes, Valued, Agreement, NonEmptyOrders, DirectItems, Delivered, Notified, UniqueProducts,
         PositiveQuantities, UniqueTransactions, CartRows;
  }

  lemma SnapshotIsNewOrder(db: Database, user: UserId, rows: seq<RowId>)
    requires CartRows(db.cart) && forall i <- db.items :: i < db.nextItem && db.items[i].order != db.nextOrder
    requires rows == RowsOf(db.cart, user, db.nextRow) && rows != [] && Priced(db.cart, db.catalogue, rows)
    ensures NewOrder(db, CheckoutRow(db, rows), Snapshot(db.cart, db.catalogue, db.nextOrder, db.nextItem, rows),
                     db.nextItem + |rows|)
  {
    hide OrderValue, CartTotal, Snapshot, RowsOf, UniqueProducts, CartRows;
    var added := Snapshot(db.cart, db.catalogue, db.nextOrder, db.nextItem, rows);
    SnapshotValue(db.items, db.cart, db.catalogue, db.nextOrder, db.nextItem, rows);
    SnapshotIsUnique(db.cart, db.catalogue, db.nextOrder, db.nextItem, user, db.nextRow);
    assert db.nextItem in added;
  }

  lemma CheckoutKeepsInv(db: Database, user: UserId)
    requires Inv(db) && Checkout(db, user).Ok?
    ensures Inv(Checkout(db, user).value)
  {
    assert forall i <- db.items :: i < db.nextItem && db.items[i].order != db.nextOrder;
    CheckoutParts(db, user, RowsOf(db.cart, user, db.nextRow));
  }

  lemma CheckoutParts(db: Database, user: UserId, rows: seq<RowId>)
    requires Inv(db) && Checkout(db, user).Ok? && rows == RowsOf(db.cart, user, db.nextRow)
    requires forall i <- db.items :: i < db.nextItem && db.items[i].order != db.nextOrder
    ensures Inv(Checkout(db, user).value)
  {
    hide KeyStates, Holdings, Authority, Outcomes, Valued, Agreement, NonEmptyOrders, DirectItems, Delivered, Notified, UniqueProducts,
         PositiveQuantities, UniqueTransactions, CartRows, NewOrder, Snapshot, CartTotal, RowsOf, Sequences;
    assert Priced(db.cart, db.catalogue, rows);
    var added := Snapshot(db.cart, db.catalogue, db.nextOrder, db.nextItem, rows);
    SnapshotIsNewOrder(db, user, rows);
    NewOrderKeepsInv(db, CheckoutRow(db, rows), added, db.nextItem + |rows|);
    ClearCartKeepsInv(InsertOrder(db, CheckoutRow(db, rows), added, db.nextItem + |rows|), user);
  }

  lemma NewRowKeepsRows(cart: map<RowId, CartRow>, r: RowId, row: CartRow)
    requires CartRows(cart) && r !in cart && RowsFor(cart, row.user, row.product) == {}
    requires 1 <= row.quantity <= MAX_CART_ITEM_QUANTITY
    ensures CartRows(cart[r := row])
  {
    assert forall q | q in cart && cart[q].user == row.user && cart[q].product == row.product ::
        q in RowsFor(cart, row.user, row.product);
  }

  lemma ChangedRowKeepsRows(cart: map<RowId, CartRow>, r: RowId, quantity: nat)
    requires CartRows(cart) && r in cart && 1 <= quantity <= MAX_CART_ITEM_QUANTITY
    ensures CartRows(cart[r := cart[r].(quantity := quantity)])
  {
  }

  lemma AddItemKeepsRows(db: Database, user: UserId, product: ProductId, quantity: int)
    requires CartRows(db.cart) && (forall r <- db.cart :: r < db.nextRow) && AddItem(db, user, product, quantity).Ok?
    ensures CartRows(AddItem(db, user, product, quantity).value.cart)
  {
    hide CartRows;
    var existing := RowsFor(db.cart, user, product);
    if existing == {} {
      NewRowKeepsRows(db.cart, db.nextRow, CartRow(user, product, quantity));
    } else {
      var r := Least(existing);
      ChangedRowKeepsRows(db.cart, r, quantity + db.cart[r].quantity);
    }
  }

  lemma AddItemKeepsInv(db: Database, user: UserId, product: ProductId, quantity: int)
    requires Inv(db) && AddItem(db, user, product, quantity).Ok?
    ensures Inv(AddItem(db, user, product, quantity).value)
  {
    var after := AddItem(db, user, product, quantity).value;
    AddItemKeepsRows(db, user, product, quantity);
    CartChangeKeepsInv(db, after.cart, after.nextRow);
  }

  lemma SetQuantityKeepsInv(db: Database, user: UserId, row: RowId, quantity: int)
    requires Inv(db) && SetQuantity(db, user, row, quantity).Ok?
    ensures Inv(SetQuantity(db, user, row, quantity).value)
  {
    ChangedRowKeepsRows(db.cart, row, quantity);
    CartChangeKeepsInv(db, SetQuantity(db, user, row, quantity).value.cart, db.nextRow);
  }

  lemma RemoveItemKeepsInv(db: Database, user: UserId, row: RowId)
    requires Inv(db) && RemoveItem(db, user, row).Ok?
    ensures Inv(RemoveItem(db, user, row).value)
  {
    CartChangeKeepsInv(db, RemoveItem(db, user, row).value.cart, db.nextRow);
  }

  lemma ClearCartKeepsInv(db: Database, user: UserId)
    requires Inv(db)
    ensures Inv(ClearCart(db, user))
  {
    CartChangeKeepsInv(db, WithoutUser(db.cart, user), db.nextRow);
  }

  // ---------------------------------------------------------------- what the operations mean

  /** Units of a product in a user's cart. */
  function Quantity(cart: map<RowId, CartRow>, user: UserId, product: ProductId): nat {
    var rows := RowsFor(cart, user, product);
    if rows == {} then 0 else cart[Least(rows)].quantity
  }

  /** The one row of a product determines its quantity. */
  lemma QuantityOfRow(cart: map<RowId, CartRow>, r: RowId)
    requires CartRows(cart) && r in cart
    ensures Quantity(cart, cart[r].user, cart[r].product) == cart[r].quantity >= 1
  {
    assert r in RowsFor(cart, cart[r].user, cart[r].product);
  }

  /**
   * Adding succeeds exactly when the product is on sale and the new quantity lies in 1..99, and
   * then changes the quantity of that product in that cart by the amount asked for, and no other.
   */
  lemma AddIsExact(db: Database, user: UserId, product: ProductId, quantity: int)
    requires CartRows(db.cart) && forall r <- db.cart :: r < db.nextRow
    ensures AddItem(db, user, product, quantity).Ok? <==>
              (product in db.catalogue && db.catalogue[product].active && 1 <= Quantity(db.cart, user, product) + quantity <= 99)
    ensures AddItem(db, user, product, quantity).Err? ==>
              AddItem(db, user, product, quantity).error ==
              if product !in db.catalogue || !db.catalogue[product].active then ProductUnavailable
              else if Quantity(db.cart, user, product) + quantity > 99 then CartConflict else IntegrityError
    ensures AddItem(db, user, product, quantity).Ok? ==>
              forall u, p :: Quantity(AddItem(db, user, product, quantity).value.cart, u, p)
                          == Quantity(db.cart, u, p) + if u == user && p == product then quantity else 0
  {
    if AddItem(db, user, product, quantity).Ok? {
      forall u: UserId, p: ProductId
        ensures Quantity(AddItem(db, user, product, quantity).value.cart, u, p)
             == Quantity(db.cart, u, p) + if u == user && p == product then quantity else 0
      {
        AddChangesQuantity(db, user, product, quantity, u, p);
      }
    }
    hide CartRows;
  }

  lemma AddChangesQuantity(db: Database, user: UserId, product: ProductId, quantity: int, u: UserId, p: ProductId)
    requires CartRows(db.cart) && (forall r <- db.cart :: r < db.nextRow) && AddItem(db, user, product, quantity).Ok?
    ensures Quantity(AddItem(db, user, product, quantity).value.cart, u, p)
         == Quantity(db.cart, u, p) + if u == user && p == product then quantity else 0
  {
    hide CartRows, Quantity;
    var after := AddItem(db, user, product, quantity).value;
    var existing := RowsFor(db.cart, user, product);
    AddItemKeepsRows(db, user, product, quantity);
    if u != user || p != product {
      assert RowsFor(after.cart, u, p) == RowsFor(db.cart, u, p);
      SameQuantity(db.cart, after.cart, u, p);
    } else if existing == {} {
      QuantityOfRow(after.cart, db.nextRow);
      NoQuantity(db.cart, user, product);
    } else {
      QuantityOfRow(after.cart, Least(existing));
      QuantityOfRow(db.cart, Least(existing));
    }
  }

  lemma SameQuantity(before: map<RowId, CartRow>, after: map<RowId, CartRow>, user: UserId, product: ProductId)
    requires RowsFor(after, user, product) == RowsFor(before, user, product)
    requires forall r <- RowsFor(before, user, product) :: after[r] == before[r]
    ensures Quantity(after, user, product) == Quantity(before, user, product)
  {
  }

  lemma NoQuantity(cart: map<RowId, CartRow>, user: UserId, product: ProductId)
    requires RowsFor(cart, user, product) == {}
    ensures Quantity(cart, user, product) == 0
  {
  }

  /**
   * Checkout succeeds exactly when the cart has a row and every product in it is on sale. The new
   * order then has an item for exactly the products in the cart, with the cart's quantity and the
   * catalogue's price.
   */
  lemma CheckoutIsExact(db: Database, user: UserId)
    requires CartRows(db.cart) && (forall r <- db.cart :: r < db.nextRow)
    requires forall i <- db.items :: i < db.nextItem && db.items[i].order != db.nextOrder
    ensures Checkout(db, user).Ok? <==>
              && (exists r <- db.cart :: db.cart[r].user == user)
              && (forall r <- db.cart | db.cart[r].user == user ::
                    db.cart[r].product in db.catalogue && db.catalogue[db.cart[r].product].active)
    ensures Checkout(db, user).Err? ==>
              Checkout(db, user).error == if exists r <- db.cart :: db.cart[r].user == user then ProductUnavailable else EmptyCart
    ensures Checkout(db, user).Ok? ==> OrdersCart(db, Checkout(db, user).value.items, user)
  {
    hide CartTotal, Snapshot, Quantity;
    var rows := RowsOf(db.cart, user, db.nextRow);
    if rows != [] {
      assert rows[0] in rows;
    }
    assert forall r <- db.cart | db.cart[r].user == user :: r in rows;
    if Checkout(db, user).Ok? {
      assert Priced(db.cart, db.catalogue, rows);
      SnapshotOrdersCart(db, user, rows);
    }
  }

  ghost predicate OrdersCart(db: Database, items: map<ItemId, OrderItem>, user: UserId) {
    && (forall i <- items | items[i].order == db.nextOrder ::
          && items[i].quantity == Quantity(db.cart, user, items[i].product) >= 1
          && items[i].product in db.catalogue && items[i].unitPrice == db.catalogue[items[i].product].price)
    && (forall r <- db.cart | db.cart[r].user == user ::
          exists i <- items :: items[i].order == db.nextOrder && items[i].product == db.cart[r].product)
  }

  lemma SnapshotOrdersCart(db: Database, user: UserId, rows: seq<RowId>)
    requires CartRows(db.cart) && (forall r <- db.cart :: r < db.nextRow)
    requires forall i <- db.items :: i < db.nextItem && db.items[i].order != db.nextOrder
    requires rows == RowsOf(db.cart, user, db.nextRow) && Priced(db.cart, db.catalogue, rows)
    ensures OrdersCart(db, db.items + Snapshot(db.cart, db.catalogue, db.nextOrder, db.nextItem, rows), user)
  {
    hide Quantity, RowsOf, CartRows, Snapshot;
    var items := db.items + Snapshot(db.cart, db.catalogue, db.nextOrder, db.nextItem, rows);
    forall i | i in items && items[i].order == db.nextOrder
      ensures items[i].quantity == Quantity(db.cart, user, items[i].product) >= 1
      ensures items[i].product in db.catalogue && items[i].unitPrice == db.catalogue[items[i].product].price
    {
      assert rows[i - db.nextItem] in rows;
      QuantityOfRow(db.cart, rows[i - db.nextItem]);
    }
    forall r | r in db.cart && db.cart[r].user == user
      ensures exists i <- items :: items[i].order == db.nextOrder && items[i].product == db.cart[r].product
    {
      RowIsOrdered(db, items, rows, r);
    }
  }

  lemma RowIsOrdered(db: Database, items: map<ItemId, OrderItem>, rows: seq<RowId>, r: RowId)
    requires Priced(db.cart, db.catalogue, rows) && r in rows
    requires items == db.items + Snapshot(db.cart, db.catalogue, db.nextOrder, db.nextItem, rows)
    ensures exists i <- items :: items[i].order == db.nextOrder && items[i].product == db.cart[r].product
  {
    var m :| 0 <= m < |rows| && rows[m] == r;
    var i: ItemId := db.nextItem + m;
    assert i in items && items[i] == Line(db.cart, db.catalogue, db.nextOrder, r);
  }

  /** The database differs at most in its cart rows. */
  ghost predicate OnlyCart(before: Database, after: Database) {
    after == before.(cart := after.cart, nextRow := after.nextRow)
  }

  /**
   * Setting succeeds exactly for a row of the user's own cart and a quantity in 1..99, and then that
   * product has that quantity in that cart and every other quantity stays.
   */
  lemma SetIsExact(db: Database, user: UserId, row: RowId, quantity: int)
    requires CartRows(db.cart)
    ensures var result := SetQuantity(db, user, row, quantity);
            if row !in db.cart || db.cart[row].user != user then result == Err(CartItemNotFound)
            else if quantity < 1 || 99 < quantity then result == Err(ValidationError)
            else
              && result.Ok? && OnlyCart(db, result.value)
              && forall u, p :: Quantity(result.value.cart, u, p)
                             == if u == user && p == db.cart[row].product then quantity else Quantity(db.cart, u, p)
  {
    if row in db.cart && db.cart[row].user == user && 1 <= quantity <= 99 {
      var after := db.cart[row := db.cart[row].(quantity := quantity)];
      ChangedRowKeepsRows(db.cart, row, quantity);
      QuantityOfRow(after, row);
      forall u: UserId, p: ProductId | u != user || p != db.cart[row].product
        ensures Quantity(after, u, p) == Quantity(db.cart, u, p)
      {
        assert RowsFor(after, u, p) == RowsFor(db.cart, u, p);
        SameQuantity(db.cart, after, u, p);
      }
      hide CartRows, Quantity;
    }
  }

  /** Removal succeeds exactly for a row of the user's own cart, and then that cart lacks that product and nothing else changes. */
  lemma RemoveIsExact(db: Database, user: UserId, row: RowId)
    requires CartRows(db.cart)
    ensures var result := RemoveItem(db, user, row);
            if row !in db.cart || db.cart[row].user != user then result == Err(CartItemNotFound)
            else
              && result.Ok? && OnlyCart(db, result.value)
              && forall u, p :: Quantity(result.value.cart, u, p)
                             == if u == user && p == db.cart[row].product then 0 else Quantity(db.cart, u, p)
  {
    if row in db.cart && db.cart[row].user == user {
      var after := db.cart - {row};
      forall u: UserId, p: ProductId
        ensures Quantity(after, u, p) == if u == user && p == db.cart[row].product then 0 else Quantity(db.cart, u, p)
      {
        if u == user && p == db.cart[row].product {
          assert RowsFor(after, u, p) == {};
          NoQuantity(after, u, p);
        } else {
          assert RowsFor(after, u, p) == RowsFor(db.cart, u, p);
          SameQuantity(db.cart, after, u, p);
        }
      }
    }
  }

  /** Clearing empties the user's cart and no other. */
  lemma ClearIsExact(db: Database, user: UserId)
    ensures OnlyCart(db, ClearCart(db, user))
    ensures forall u, p :: Quantity(ClearCart(db, user).cart, u, p) == if u == user then 0 else Quantity(db.cart, u, p)
  {
    var after := WithoutUser(db.cart, user);
    forall u: UserId, p: ProductId
      ensures Quantity(after, u, p) == if u == user then 0 else Quantity(db.cart, u, p)
    {
      if u == user {
        assert RowsFor(after, u, p) == {};
        NoQuantity(after, u, p);
      } else {
        assert RowsFor(after, u, p) == RowsFor(db.cart, u, p);
        SameQuantity(db.cart, after, u, p);
      }
    }
  }

  /** One unpaid order more, of this source and product, worth its items; other orders and items stay. */
  ghost predicate OrderedExactly(before: Database, after: Database, source: Source, product: Option<ProductId>) {
    && after == before.(orders := after.orders, items := after.items, nextOrder := before.nextOrder + 1, nextItem := after.nextItem,
                        cart := after.cart)
    && after.orders == before.orders[before.nextOrder := Order(source, product, Some(OrderValue(after.items, before.nextOrder, after.nextItem)),
                                                               OrderStatus.Created, None, None, None)]
    && (forall i <- before.items :: i in after.items && after.items[i] == before.items[i])
    && (forall i <- after.items | i !in before.items :: after.items[i].order == before.nextOrder)
  }

  lemma InsertIsExact(
    db: Database, row: Order, added: map<ItemId, OrderItem>, next: ItemId, cart: map<RowId, CartRow>,
    source: Source, product: Option<ProductId>)
    requires (forall i <- db.items :: i < db.nextItem) && (forall i <- added :: db.nextItem <= i && added[i].order == db.nextOrder)
    requires row == Order(source, product, Some(OrderValue(db.items + added, db.nextOrder, next)), OrderStatus.Created, None, None, None)
    ensures OrderedExactly(db, InsertOrder(db, row, added, next).(cart := cart), source, product)
  {
    hide OrderValue;
  }

  lemma ItemsOfNobody(db: Database)
    requires Inv(db)
    ensures forall i <- db.items :: i < db.nextItem && db.items[i].order != db.nextOrder
  {
  }

  /** Checkout makes one unpaid cart order and empties the user's cart, and no other. */
  lemma CheckoutOrders(db: Database, user: UserId)
    requires Inv(db) && Checkout(db, user).Ok?
    ensures OrderedExactly(db, Checkout(db, user).value, Source.Cart, None)
    ensures forall u, p :: Quantity(Checkout(db, user).value.cart, u, p) == if u == user then 0 else Quantity(db.cart, u, p)
  {
    hide Inv, RowsOf, Quantity, CartTotal, OrderValue, OrderedExactly, Snapshot, WithoutUser;
    var rows := RowsOf(db.cart, user, db.nextRow);
    ItemsOfNobody(db);
    assert Priced(db.cart, db.catalogue, rows);
    SnapshotValue(db.items, db.cart, db.catalogue, db.nextOrder, db.nextItem, rows);
    InsertIsExact(db, CheckoutRow(db, rows), Snapshot(db.cart, db.catalogue, db.nextOrder, db.nextItem, rows),
                  db.nextItem + |rows|, WithoutUser(db.cart, user), Source.Cart, None);
    ClearIsExact(db, user);
  }

  /** A direct order is for one unit at the price of that moment; it fails only for a product that does not exist. */
  lemma DirectOrderIsExact(db: Database, product: ProductId)
    requires Inv(db)
    ensures var result := DirectOrder(db, product);
            if product !in db.catalogue then result == Err(DoesNotExist)
            else
              && result.Ok? && result.value.cart == db.cart
              && OrderedExactly(db, result.value, Direct, Some(product))
              && result.value.items == db.items[db.nextItem := OrderItem(db.nextOrder, product, 1, db.catalogue[product].price)]
  {
    hide Inv, OrderValue, OrderedExactly;
    ItemsOfNobody(db);
    if product in db.catalogue {
      var price := db.catalogue[product].price;
      var row := Order(Direct, Some(product), Some(price), OrderStatus.Created, None, None, None);
      OneUnit(db, product, price);
      var item := OrderItem(db.nextOrder, product, 1, price);
      InsertIsExact(db, row, map[db.nextItem := item], db.nextItem + 1, db.cart, Direct, Some(product));
      assert db.items + map[db.nextItem := item] == db.items[db.nextItem := item];
    }
  }

  lemma OneUnit(db: Database, product: ProductId, price: Money)
    requires forall i <- db.items :: i < db.nextItem && db.items[i].order != db.nextOrder
    ensures OrderValue(db.items + map[db.nextItem := OrderItem(db.nextOrder, product, 1, price)], db.nextOrder, db.nextItem + 1) == price
  {
    hide OrderValue;
    LastLineValue(db.items, db.nextOrder, db.nextItem, OrderItem(db.nextOrder, product, 1, price));
    ValueOfNobody(db.items, db.nextOrder, db.nextItem);
  }
}
