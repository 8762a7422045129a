/** What no transaction ever undoes. */
module History {
  import opened Foundations
  import opened Schema
  import opened Allocation
  import opened Payments
  import opened Invariants
  import opened Transitions
  import opened Effects
  import opened Carts
  import opened Webhooks

  /** Payments are never deleted, their order and amount never change, a paid one stays paid, and an ended one never reopens. */
  ghost predicate PaymentsPersist(before: map<PaymentId, Payment>, after: map<PaymentId, Payment>) {
    forall p <- before ::
      && p in after
      && after[p].order == before[p].order && after[p].amount == before[p].amount
      && (before[p].status.Paid? ==> after[p].status.Paid?)
      && (!before[p].status.Active() ==> !after[p].status.Active())
  }

  /** Orders are never deleted, only the attempt of an unpaid order changes, and a paid row is final. */
  ghost predicate OrdersPersist(before: map<OrderId, Order>, after: map<OrderId, Order>) {
    forall o <- before ::
      && o in after
      && after[o].source == before[o].source && after[o].total == before[o].total
      && (!after[o].status.Paid? ==> after[o] == before[o].(attempt := after[o].attempt))
      && (before[o].status.Paid? ==> after[o] == before[o])
  }

  /** Item snapshots are immutable, and existing orders gain no items. */
  ghost predicate ItemsPersist(orders: map<OrderId, Order>, before: map<ItemId, OrderItem>, after: map<ItemId, OrderItem>) {
    && (forall i <- before :: i in after && after[i] == before[i])
    && (forall o <- orders :: ItemsOf(after, o) == ItemsOf(before, o))
  }

  ghost predicate IsSold(db: Database, k: KeyId) {
    && k in db.assignments && db.assignments[k] in db.items
    && db.items[db.assignments[k]].order in db.orders
    && db.orders[db.items[db.assignments[k]].order].status.Paid?
  }

  /** A key delivered to a paid order stays assigned and sold. */
  ghost predicate DeliveriesPersist(before: Database, after: Database) {
    forall k <- before.assignments | IsSold(before, k) ::
      && k in after.assignments && after.assignments[k] == before.assignments[k]
      && k in before.keys && k in after.keys && after.keys[k] == before.keys[k]
  }

  ghost predicate Later(before: Database, after: Database) {
    && PaymentsPersist(before.payments, after.payments)
    && OrdersPersist(before.orders, after.orders)
    && ItemsPersist(before.orders, before.items, after.items)
    && DeliveriesPersist(before, after)
    && before.events <= after.events
  }

  lemma LaterIsReflexive(db: Database)
    requires Inv(db)
    ensures Later(db, db)
  {
  }

  lemma LaterIsTransitive(a: Database, b: Database, c: Database)
    requires Later(a, b) && Later(b, c)
    ensures Later(a, c)
  {
  }

  // ---------------------------------------------------------------- the four moves

  /** One unpaid order row and one unpaid payment row change; the rest of the claim is about keys. */
  lemma RowsAreLater(db: Database, after: Database, order: OrderId, row: Order, payment: PaymentId, paid: Payment)
    requires DeliveriesPersist(db, after)
    requires after.items == db.items && after.events == db.events
    requires order in db.orders && !db.orders[order].status.Paid? && after.orders == db.orders[order := row]
    requires row.source == db.orders[order].source && row.total == db.orders[order].total
    requires !row.status.Paid? ==> row == db.orders[order].(attempt := row.attempt)
    requires after.payments == db.payments[payment := paid]
    requires payment in db.payments ==>
               && (db.payments[payment].status.Paid? ==> paid.status.Paid?)
               && (!db.payments[payment].status.Active() ==> !paid.status.Active())
               && paid.order == db.payments[payment].order && paid.amount == db.payments[payment].amount
    ensures Later(db, after)
  {
    hide DeliveriesPersist;
  }

  /** Adding assignments for unassigned keys disturbs no delivery. */
  lemma GrantPersists(db: Database, claims: map<KeyId, ItemId>, after: Database)
    requires KeyStates(db.keys, db.assignments, db.items, db.orders)
    requires claims.Keys !! db.assignments.Keys
    requires after.assignments == db.assignments + claims
    requires after.keys.Keys == db.keys.Keys && forall k <- db.keys | k !in claims :: after.keys[k] == db.keys[k]
    ensures DeliveriesPersist(db, after)
  {
  }

  /** Freeing the keys of an unpaid order disturbs no delivery. */
  lemma WithdrawnPersists(db: Database, order: OrderId, after: Database)
    requires KeyStates(db.keys, db.assignments, db.items, db.orders)
    requires order in db.orders && !db.orders[order].status.Paid?
    requires var held := HeldFor(db.assignments, db.items, order);
             && after.assignments == db.assignments - held
             && after.keys == SetStatus(db.keys, held, Available)
    ensures DeliveriesPersist(db, after)
  {
  }

  lemma SalePersists(db: Database, order: OrderId, after: Database)
    requires KeyStates(db.keys, db.assignments, db.items, db.orders)
    requires order in db.orders && !db.orders[order].status.Paid?
    requires after.assignments == db.assignments
    requires after.keys == SetStatus(db.keys, HeldFor(db.assignments, db.items, order), Sold)
    ensures DeliveriesPersist(db, after)
  {
  }

  lemma OpenedIsLater(
    db: Database, payment: PaymentId, order: OrderId, provider: Option<ProviderName>, amount: Money, claims: map<KeyId, ItemId>)
    requires KeyStates(db.keys, db.assignments, db.items, db.orders)
    requires CanOpen(db, order, amount, claims) && payment !in db.payments
    ensures Later(db, Opened(db, payment, order, provider, amount, claims))
  {
    var after := Opened(db, payment, order, provider, amount, claims);
    ClaimsAreUnassigned(db.keys, db.assignments, db.items, db.orders, order, claims);
    hide KeyStates, Later, DeliveriesPersist, Covers;
    GrantPersists(db, claims, after);
    RowsAreLater(db, after, order, after.orders[order], payment, after.payments[payment]);
  }

  lemma WithdrawnIsLater(db: Database, payment: PaymentId, order: OrderId)
    requires KeyStates(db.keys, db.assignments, db.items, db.orders)
    requires payment in db.payments && db.payments[payment].status.Active()
    requires order in db.orders && db.payments[payment].order == order && !db.orders[order].status.Paid?
    ensures Later(db, Withdrawn(db, payment))
  {
    var after := Withdrawn(db, payment);
    hide KeyStates, Later, DeliveriesPersist, HeldFor, SetStatus;
    WithdrawnPersists(db, order, after);
    RowsAreLater(db, after, order, after.orders[order], payment, after.payments[payment]);
  }

  lemma SettledFromReservationIsLater(db: Database, payment: PaymentId, order: OrderId, price: Money)
    requires KeyStates(db.keys, db.assignments, db.items, db.orders) && MaySettle(db, payment, order)
    ensures Later(db, SettledFromReservation(db, payment, price))
  {
    var after := SettledFromReservation(db, payment, price);
    hide KeyStates, Later, DeliveriesPersist, HeldFor, SetStatus;
    SalePersists(db, order, after);
    RowsAreLater(db, after, order, after.orders[order], payment, after.payments[payment]);
  }

  lemma SettledFromStockIsLater(
    db: Database, payment: PaymentId, order: OrderId, price: Money, claims: map<KeyId, ItemId>, firstKey: Option<KeyId>)
    requires KeyStates(db.keys, db.assignments, db.items, db.orders)
    requires MaySettle(db, payment, order) && CanOpen(db, order, price, claims)
    ensures Later(db, SettledFromStock(db, payment, price, claims, firstKey))
  {
    var after := SettledFromStock(db, payment, price, claims, firstKey);
    ClaimsAreUnassigned(db.keys, db.assignments, db.items, db.orders, order, claims);
    hide KeyStates, Later, DeliveriesPersist, Covers;
    GrantPersists(db, claims, after);
    RowsAreLater(db, after, order, after.orders[order], payment, after.payments[payment]);
  }

  // ---------------------------------------------------------------- the transactions

  lemma FailIsLater(db: Database, payment: PaymentId)
    requires Inv(db) && payment in db.payments && db.payments[payment].order in db.orders
    ensures Fail(db, payment).Ok? && Later(db, Fail(db, payment).value)
  {
    FailEffect(db, payment);
    LaterIsReflexive(db);
    PaymentStanding(db.orders, db.payments, payment);
    hide KeyStates, Holdings, Authority, Outcomes, Valued, Agreement, NonEmptyOrders, DirectItems, Delivered, Notified, UniqueProducts,
         PositiveQuantities, UniqueTransactions, CartRows, Sequences, Later;
    if db.payments[payment].status.Active() {
      WithdrawnIsLater(db, payment, db.payments[payment].order);
    }
  }

  lemma CompleteIsLater(db: Database, payment: PaymentId)
    requires Inv(db) && payment in db.payments && db.payments[payment].order in db.orders
    ensures Complete(db, payment).Ok? ==> Later(db, Complete(db, payment).value.db)
  {
    CompleteEffect(db, payment);
    LaterIsReflexive(db);
    PaymentStanding(db.orders, db.payments, payment);
    RowTotal(db.orders, db.payments, payment);
    CompletionCaseIsLater(db, payment, db.payments[payment].order);
  }

  lemma CompletionCaseIsLater(db: Database, payment: PaymentId, order: OrderId)
    requires Inv(db) && Later(db, db) && payment in db.payments && order in db.orders && db.payments[payment].order == order
    requires db.orders[order].total == Some(db.payments[payment].amount)
    ensures CompletionCase(db, payment).Ok? ==> Later(db, CompletionCase(db, payment).value.db)
  {
    hide KeyStates, Holdings, Authority, Outcomes, Valued, Agreement, NonEmptyOrders, DirectItems, Delivered, Notified, UniqueProducts,
         PositiveQuantities, UniqueTransactions, CartRows, Sequences, EnoughStock, Claims, Later, SalePool;
    var row := db.orders[order];
    if !row.status.Paid? && row.attempt == Some(payment) {
      SettledFromReservationIsLater(db, payment, order, db.payments[payment].amount);
    } else if !row.status.Paid? && row.attempt == None && EnoughStock(db.keys, db.items, order, SalePool(db.keys)) {
      var claims := Claims(db.keys, db.items, order, SalePool(db.keys));
      ClaimsCover(db, order, SalePool(db.keys));
      SettledFromStockIsLater(db, payment, order, db.payments[payment].amount, claims, FirstClaim(db, order, claims));
    }
  }

  lemma FreshOpeningIsLater(
    db: Database, order: OrderId, stored: Option<ProviderName>, provider: ProviderName, amount: Money, schedule: Schedule)
    requires Inv(db) && order in db.orders && !db.orders[order].HoldsKeys() && db.orders[order].total == Some(amount)
    ensures FreshOpening(db, order, stored, provider, amount, schedule).Ok? ==>
              Later(db, FreshOpening(db, order, stored, provider, amount, schedule).value.db)
  {
    NewIdIsFree(db, schedule);
    hide KeyStates, Holdings, Authority, Outcomes, Valued, Agreement, NonEmptyOrders, DirectItems, Delivered, Notified, UniqueProducts,
         PositiveQuantities, UniqueTransactions, CartRows, Sequences, EnoughStock, Claims, Later;
    var pool := ReservationPool(db.keys, db.assignments, schedule.locked);
    if EnoughStock(db.keys, db.items, order, pool) {
      ClaimsCover(db, order, pool);
      OpenedIsLater(db, NewId(db, schedule), order, stored, amount, Claims(db.keys, db.items, order, pool));
    }
  }

  lemma OpenCreateIsLater(db: Database, order: OrderId, given: Option<ProviderName>, settings: Settings, schedule: Schedule)
    requires Inv(db)
    ensures OpenCreate(db, order, given, settings, schedule).Ok? ==> Later(db, OpenCreate(db, order, given, settings, schedule).value.db)
  {
    OpenCreateEffect(db, order, given, settings, schedule);
    hide Inv, Later, FreshOpening;
    if order in db.orders && !db.orders[order].HoldsKeys() && db.orders[order].total.Some? && ChooseProvider(given, settings).Ok? {
      var provider := ChooseProvider(given, settings).value;
      FreshOpeningIsLater(db, order, Some(provider), provider, db.orders[order].total.value, schedule);
    }
  }

  lemma OpenPayIsLater(db: Database, order: OrderId, given: Option<ProviderName>, settings: Settings, schedule: Schedule)
    requires Inv(db)
    ensures OpenPay(db, order, given, settings, schedule).Ok? ==> Later(db, OpenPay(db, order, given, settings, schedule).value.db)
  {
    OpenPayEffect(db, order, given, settings, schedule);
    LaterIsReflexive(db);
    PayCaseIsLater(db, order, given, settings, schedule);
  }

  lemma PayCaseIsLater(db: Database, order: OrderId, given: Option<ProviderName>, settings: Settings, schedule: Schedule)
    requires Inv(db) && Later(db, db)
    ensures PayCase(db, order, given, settings, schedule).Ok? ==> Later(db, PayCase(db, order, given, settings, schedule).value.db)
  {
    hide KeyStates, Holdings, Authority, Outcomes, Valued, Agreement, NonEmptyOrders, DirectItems, Delivered, Notified, UniqueProducts,
         PositiveQuantities, UniqueTransactions, CartRows, Sequences, Later, FreshOpening;
    if order in db.orders && !db.orders[order].HoldsKeys() && db.orders[order].total.Some? && ChooseProvider(given, settings).Ok? {
      var provider := ChooseProvider(given, settings).value;
      FreshOpeningIsLater(db, order, None, provider, db.orders[order].total.value, schedule);
    }
  }

  lemma StoreReferenceIsLater(db: Database, payment: PaymentId, provider: ProviderName, reference: string)
    requires Inv(db)
    ensures var stored := StoreReference(db, payment, provider, reference);
            stored.Ok? ==> Later(db, stored.value)
  {
    LaterIsReflexive(db);
    if payment in db.payments {
      DetailsAreLater(db, payment, db.payments[payment].(provider := Some(provider), transactionId := Some(reference)));
    }
    hide Inv, Later;
  }

  lemma DetailsAreLater(db: Database, payment: PaymentId, row: Payment)
    requires Later(db, db) && payment in db.payments
    requires row == db.payments[payment].(provider := row.provider, transactionId := row.transactionId)
    ensures Later(db, db.(payments := db.payments[payment := row]))
  {
    hide IsSold, ItemsPersist, OrdersPersist;
  }

  lemma InsertOrderIsLater(db: Database, row: Order, added: map<ItemId, OrderItem>, next: ItemId)
    requires Inv(db) && NewOrder(db, row, added, next) && db.items.Keys !! added.Keys
    ensures Later(db, InsertOrder(db, row, added, next))
  {
    hide KeyStates, Holdings, Authority, Outcomes, Valued, Agreement, NonEmptyOrders, DirectItems, Delivered, Notified, UniqueProducts,
         PositiveQuantities, UniqueTransactions, CartRows, Later, Sequences, OrderValue;
    LaterIsReflexive(db);
    FreshIds(db);
    InsertedIsLater(db, InsertOrder(db, row, added, next));
  }

  /** Changes confined to catalogue, cart, stock of unassigned keys and event log. */
  ghost predicate Aside(db: Database, after: Database) {
    && after.payments == db.payments && after.orders == db.orders && after.items == db.items
    && after.assignments == db.assignments && db.events <= after.events
    && forall k <- db.assignments | k in db.keys :: k in after.keys && after.keys[k] == db.keys[k]
  }

  lemma AsideIsLater(db: Database, after: Database)
    requires KeyStates(db.keys, db.assignments, db.items, db.orders) && Aside(db, after)
    ensures Later(db, after)
  {
  }

  lemma CheckoutIsLater(db: Database, user: UserId)
    requires Inv(db) && Checkout(db, user).Ok?
    ensures Later(db, Checkout(db, user).value)
  {
    assert forall i <- db.items :: i < db.nextItem && db.items[i].order != db.nextOrder;
    CheckoutPartsAreLater(db, user, RowsOf(db.cart, user, db.nextRow));
  }

  lemma CheckoutPartsAreLater(db: Database, user: UserId, rows: seq<RowId>)
    requires Inv(db) && Checkout(db, user).Ok? && rows == RowsOf(db.cart, user, db.nextRow)
    requires forall i <- db.items :: i < db.nextItem && db.items[i].order != db.nextOrder
    ensures Later(db, Checkout(db, user).value)
  {
    hide KeyStates, Holdings, Authority, Outcomes, Valued, Agreement, NonEmptyOrders, DirectItems, Delivered, Notified, UniqueProducts,
         PositiveQuantities, UniqueTransactions, CartRows, NewOrder, Snapshot, CartTotal, RowsOf, Sequences;
    assert Priced(db.cart, db.catalogue, rows);
    SnapshotIsNewOrder(db, user, rows);
    InsertOrderIsLater(db, CheckoutRow(db, rows),
                       Snapshot(db.cart, db.catalogue, db.nextOrder, db.nextItem, rows), db.nextItem + |rows|);
  }

  lemma FreshIds(db: Database)
    requires Sequences(db)
    ensures db.nextOrder !in db.orders && db.nextItem !in db.items && db.nextPayment !in db.payments
  {
  }

  lemma DirectOrderIsLater(db: Database, product: ProductId)
    requires Inv(db) && product in db.catalogue
    ensures Later(db, DirectOrder(db, product).value)
  {
    hide KeyStates, Holdings, Authority, Outcomes, Valued, Agreement, NonEmptyOrders, DirectItems, Delivered, Notified, UniqueProducts,
         PositiveQuantities, UniqueTransactions, CartRows, Later, Sequences;
    LaterIsReflexive(db);
    FreshIds(db);
    InsertedIsLater(db, DirectOrder(db, product).value);
  }

  /** A new order with new items of its own changes no existing row. */
  lemma InsertedIsLater(db: Database, after: Database)
    requires Later(db, db) && db.nextOrder !in db.orders
    requires (forall o <- db.orders :: o in after.orders && after.orders[o] == db.orders[o])
    requires (forall i <- db.items :: i in after.items && after.items[i] == db.items[i])
    requires (forall i <- after.items | i !in db.items :: after.items[i].order == db.nextOrder)
    requires after.payments == db.payments && after.assignments == db.assignments && after.keys == db.keys
    requires after.events == db.events
    ensures Later(db, after)
  {
    forall o | o in db.orders
      ensures ItemsOf(after.items, o) == ItemsOf(db.items, o)
    {
    }
  }

  lemma ProcessIsLater(db: Database, event: Event)
    requires Inv(db)
    ensures Process(db, event).Ok? ==> Later(db, Process(db, event).value)
  {
    var recorded := Record(db, event);
    RecordKeepsInv(db, event);
    LaterIsReflexive(db);
    AsideIsLater(db, recorded);
    ProcessPartsAreLater(db, recorded, event);
  }

  lemma ProcessPartsAreLater(db: Database, recorded: Database, event: Event)
    requires recorded == Record(db, event) && Inv(recorded) && Later(db, db) && Later(db, recorded)
    ensures Process(db, event).Ok? ==> Later(db, Process(db, event).value)
  {
    hide Inv, Later, Complete, Fail;
    if event.session.Some? && ReferredPayment(db, event.session.value).Ok? {
      var payment := ReferredPayment(db, event.session.value).value;
      CompleteIsLater(recorded, payment);
      FailIsLater(recorded, payment);
      LaterIsTransitive(db, recorded, Fail(recorded, payment).value);
      if Complete(recorded, payment).Ok? {
        LaterIsTransitive(db, recorded, Complete(recorded, payment).value.db);
      }
    }
  }
}
