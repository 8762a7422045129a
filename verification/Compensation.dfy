/** Failing an attempt undoes its opening, and the two writes in the code that are only safe under a condition. */
module Compensation {
  import opened Foundations
  import opened Schema
  import opened Allocation
  import opened Payments
  import opened Invariants
  import opened Transitions
  import opened Effects
  import opened History
  import opened Runs
  import opened Safety
  import opened OutOfOrder

  // ---------------------------------------------------------------- opening and failing

  /** The database with nothing but one more failed payment. */
  function WithFailedPayment(db: Database, payment: PaymentId, order: OrderId, provider: Option<ProviderName>, amount: Money): Database {
    db.(payments := db.payments[payment := Payment(order, Failed, provider, None, amount)],
        nextPayment := if payment < db.nextPayment then db.nextPayment else payment + 1)
  }

  lemma WithdrawUndoesOpen(
    db: Database, payment: PaymentId, order: OrderId, provider: Option<ProviderName>, amount: Money, claims: map<KeyId, ItemId>)
    requires KeyStates(db.keys, db.assignments, db.items, db.orders) && order in db.orders
    requires HeldFor(db.assignments, db.items, order) == {} && db.orders[order].attempt == None
    requires Covers(db.keys, db.items, order, claims)
    ensures Withdrawn(Opened(db, payment, order, provider, amount, claims), payment)
         == WithFailedPayment(db, payment, order, provider, amount)
  {
    ClaimsAreUnassigned(db.keys, db.assignments, db.items, db.orders, order, claims);
    HeldAfterGrant(db.assignments, db.items, order, claims);
    GrantReturned(db.keys, db.assignments, claims);
    hide KeyStates, Covers, HeldFor, SetStatus;
    var row, p := db.orders[order], payment;
    var created := Payment(order, PaymentStatus.Created, provider, None, amount);
    assert db.orders[order := row.(attempt := Some(p))][order := row] == db.orders;
    assert db.payments[p := created][p := created.(status := Failed)] == db.payments[p := created.(status := Failed)];
  }

  lemma GrantReturned(keys: map<KeyId, LicenseKey>, assignments: map<KeyId, ItemId>, claims: map<KeyId, ItemId>)
    requires forall k <- claims :: k in keys && keys[k].status == Available && k !in assignments
    ensures SetStatus(SetStatus(keys, claims.Keys, Reserved), claims.Keys, Available) == keys
    ensures (assignments + claims) - claims.Keys == assignments
  {
  }

  lemma HeldAfterGrant(assignments: map<KeyId, ItemId>, items: map<ItemId, OrderItem>, order: OrderId, claims: map<KeyId, ItemId>)
    requires HeldFor(assignments, items, order) == {} && claims.Keys !! assignments.Keys
    requires forall k <- claims :: claims[k] in items && items[claims[k]].order == order
    ensures HeldFor(assignments + claims, items, order) == claims.Keys
  {
    forall k | k in HeldFor(assignments + claims, items, order)
      ensures k in claims.Keys
    {
      assert k in claims || k !in HeldFor(assignments, items, order);
    }
  }

  lemma FreshOpeningUndone(
    db: Database, order: OrderId, stored: Option<ProviderName>, provider: ProviderName, amount: Money, schedule: Schedule)
    requires Inv(db) && order in db.orders && !db.orders[order].HoldsKeys() && db.orders[order].total == Some(amount)
    requires FreshOpening(db, order, stored, provider, amount, schedule).Ok?
    ensures var opening := FreshOpening(db, order, stored, provider, amount, schedule).value;
            Compensate(opening.db, opening.payment, opening.createdItem) == Ok(WithFailedPayment(db, opening.payment, order, stored, amount))
  {
    hide KeyStates, Holdings, Authority, Outcomes, Valued, Agreement, NonEmptyOrders, DirectItems, Delivered, Notified, UniqueProducts,
         PositiveQuantities, UniqueTransactions, CartRows, Sequences, EnoughStock, Claims, HeldFor, Withdrawn, Fail, SetStatus;
    var pool := ReservationPool(db.keys, db.assignments, schedule.locked);
    var claims := Claims(db.keys, db.items, order, pool);
    ClaimsCover(db, order, pool);
    OrderHoldsNothing(db, order);
    var payment := NewId(db, schedule);
    NewIdIsFree(db, schedule);
    OpenedKeepsInv(db, payment, order, stored, amount, claims);
    FailEffect(Opened(db, payment, order, stored, amount, claims), payment);
    WithdrawUndoesOpen(db, payment, order, stored, amount, claims);
  }

  /** Opening an attempt with `create_payment` and compensating it leaves one failed payment and nothing else. */
  lemma CreateThenCompensate(db: Database, order: OrderId, given: Option<ProviderName>, settings: Settings, schedule: Schedule)
    requires Inv(db) && OpenCreate(db, order, given, settings, schedule).Ok?
    ensures var opening := OpenCreate(db, order, given, settings, schedule).value;
            var failed := WithFailedPayment(db, opening.payment, order, Some(opening.provider), opening.amount);
            Compensate(opening.db, opening.payment, opening.createdItem) == Ok(failed)
  {
    hide KeyStates, Holdings, Authority, Outcomes, Valued, Agreement, NonEmptyOrders, DirectItems, Delivered, Notified, UniqueProducts,
         PositiveQuantities, UniqueTransactions, CartRows, Sequences, OpenCreate, FreshOpening, Compensate;
    OpenCreateEffect(db, order, given, settings, schedule);
    var provider := ChooseProvider(given, settings).value;
    var amount := db.orders[order].total.value;
    FreshOpeningUndone(db, order, Some(provider), provider, amount, schedule);
    FreshOpeningShape(db, order, Some(provider), provider, amount, schedule);
  }

  /**
   * The same for `pay_order`: a new attempt leaves one failed payment without provider, a resumed one
   * is withdrawn, which frees its order's keys.
   */
  lemma PayThenCompensate(db: Database, order: OrderId, given: Option<ProviderName>, settings: Settings, schedule: Schedule)
    requires Inv(db) && OpenPay(db, order, given, settings, schedule).Ok?
    ensures order in db.orders
    ensures var opening := OpenPay(db, order, given, settings, schedule).value;
            && (db.orders[order].attempt == None ==>
                  Compensate(opening.db, opening.payment, opening.createdItem)
                  == Ok(WithFailedPayment(db, opening.payment, order, None, opening.amount)))
            && (db.orders[order].attempt.Some? ==>
                  opening.payment in db.payments && db.payments[opening.payment].order in db.orders
                  && Compensate(opening.db, opening.payment, opening.createdItem) == Ok(Withdrawn(db, opening.payment)))
  {
    hide KeyStates, Holdings, Outcomes, Valued, Agreement, NonEmptyOrders, DirectItems, Delivered, Notified, UniqueProducts, CartOrders,
         PositiveQuantities, UniqueTransactions, CartRows, Sequences, OpenPay, FreshOpening, Withdrawn, Fail, ResumeProvider;
    OpenPayEffect(db, order, given, settings, schedule);
    if db.orders[order].attempt.Some? {
      FailEffect(db, db.orders[order].attempt.value);
    } else {
      var provider := ChooseProvider(given, settings).value;
      var amount := db.orders[order].total.value;
      FreshOpeningUndone(db, order, None, provider, amount, schedule);
      FreshOpeningShape(db, order, None, provider, amount, schedule);
    }
  }

  lemma FreshOpeningShape(
    db: Database, order: OrderId, stored: Option<ProviderName>, provider: ProviderName, amount: Money, schedule: Schedule)
    requires order in db.orders && FreshOpening(db, order, stored, provider, amount, schedule).Ok?
    ensures var opening := FreshOpening(db, order, stored, provider, amount, schedule).value;
            opening.provider == provider && opening.amount == amount
  {
    hide Claims, EnoughStock;
  }

  /**
   * With any steps of any process in between: if the attempt opened for an order without one is
   * still in charge, failing it puts the order back as it was (row, items, no keys), marks only
   * that payment failed, frees exactly this order's keys, and disturbs no other order.
   */
  lemma CompensationUndoesOpening(w: World, steps: seq<Step>, order: OrderId, payment: PaymentId)
    requires Sound(w) && order in w.db.orders && w.db.orders[order].attempt == None
    requires order in Run(w, steps).db.orders && Run(w, steps).db.orders[order].attempt == Some(payment)
    ensures payment in Run(w, steps).db.payments && Run(w, steps).db.payments[payment].order == order
    ensures var db := Run(w, steps).db;
            && Fail(db, payment).Ok?
            && Restored(w.db, db, Fail(db, payment).value, order, payment)
  {
    RunIsSound(w, steps);
    var db := Run(w, steps).db;
    ChargeIsActive(db, payment, order);
    ChargeIsOwn(db.orders, db.payments, payment, order);
    FailEffect(db, payment);
    hide Sound, Run;
    WithdrawnRestores(w.db, db, order, payment);
  }

  lemma ChargeIsOwn(orders: map<OrderId, Order>, payments: map<PaymentId, Payment>, payment: PaymentId, order: OrderId)
    requires Authority(orders, payments) && order in orders && orders[order].attempt == Some(payment)
    ensures payment in payments && payments[payment].order == order
  {
  }

  ghost predicate Restored(start: Database, before: Database, after: Database, order: OrderId, payment: PaymentId) {
    && order in start.orders && order in after.orders && payment in before.payments
    && after.orders[order] == start.orders[order]
    && ItemsOf(after.items, order) == ItemsOf(start.items, order)
    && HeldFor(after.assignments, after.items, order) == {}
    && after.payments == before.payments[payment := before.payments[payment].(status := Failed)]
    && (forall k <- HeldFor(before.assignments, before.items, order) :: k in after.keys && after.keys[k].status == Available)
    && (forall k <- before.keys | k !in HeldFor(before.assignments, before.items, order) :: k in after.keys && after.keys[k] == before.keys[k])
    && UntouchedElsewhere(before, after, order)
  }

  lemma WithdrawnRestores(start: Database, db: Database, order: OrderId, payment: PaymentId)
    requires Inv(db) && Later(start, db) && order in start.orders && start.orders[order].attempt == None
    requires order in db.orders && db.orders[order].attempt == Some(payment) && !db.orders[order].status.Paid?
    requires payment in db.payments && db.payments[payment].order == order
    ensures Restored(start, db, Withdrawn(db, payment), order, payment)
  {
    hide Holdings, Authority, Outcomes, Valued, Agreement, NonEmptyOrders, DirectItems, Delivered, Notified, UniqueProducts,
         PositiveQuantities, UniqueTransactions, CartRows, Sequences, UntouchedElsewhere, DeliveriesPersist, PaymentsPersist;
    HeldKeysExist(db.keys, db.assignments, db.items, db.orders, order);
    WithdrawnUntouched(db, payment, order);
    hide KeyStates;
    HeldAfterReturn(db.assignments, db.items, order);
  }

  lemma HeldKeysExist(
    keys: map<KeyId, LicenseKey>, assignments: map<KeyId, ItemId>, items: map<ItemId, OrderItem>, orders: map<OrderId, Order>,
    order: OrderId)
    requires KeyStates(keys, assignments, items, orders)
    ensures HeldFor(assignments, items, order) <= keys.Keys
  {
  }

  lemma HeldAfterReturn(assignments: map<KeyId, ItemId>, items: map<ItemId, OrderItem>, order: OrderId)
    ensures HeldFor(assignments - HeldFor(assignments, items, order), items, order) == {}
  {
  }

  // ---------------------------------------------------------------- legacy orders, run alone

  /** A direct order from before order items: unpaid, without attempt, with a product and a total but no item. */
  ghost predicate Legacy(db: Database, order: OrderId) {
    && Sequences(db)
    && KeyStates(db.keys, db.assignments, db.items, db.orders) && Holdings(db.assignments, db.items, db.orders)
    && UniqueProducts(db.items) && PositiveQuantities(db.items)
    && order in db.orders && !db.orders[order].status.Paid? && db.orders[order].attempt == None
    && db.orders[order].source.Direct? && db.orders[order].product.Some? && db.orders[order].total.Some?
    && ItemsOf(db.items, order) == {} && ActivePayments(db.payments, order) == {}
  }

  function LegacyItem(db: Database, order: OrderId): OrderItem
    requires order in db.orders && db.orders[order].product.Some? && db.orders[order].total.Some?
  {
    OrderItem(order, db.orders[order].product.value, 1, db.orders[order].total.value)
  }

  /** The opened state of a legacy order: the new item, the new payment, and the claimed keys. */
  function LegacyOpened(db: Database, payment: PaymentId, order: OrderId, provider: ProviderName, claims: map<KeyId, ItemId>): Database
    requires order in db.orders && db.orders[order].product.Some? && db.orders[order].total.Some?
  {
    Opened(WithItem(db, LegacyItem(db, order)), payment, order, Some(provider), db.orders[order].total.value, claims)
  }

  function WithItem(db: Database, item: OrderItem): Database {
    db.(items := db.items[db.nextItem := item], nextItem := db.nextItem + 1)
  }

  lemma LegacyItemIsStocked(db: Database, order: OrderId)
    requires Legacy(db, order)
    ensures var ready := WithItem(db, LegacyItem(db, order));
            Stocked(ready, order) && ItemsOf(ready.items, order) == {db.nextItem}
  {
    var item := LegacyItem(db, order);
    assert db.nextItem !in db.items;
    assert HeldBy(db.assignments, db.nextItem) == {};
    assert forall j <- db.items :: j !in ItemsOf(db.items, order);
    assert db.nextItem in ItemsOf(db.items[db.nextItem := item], order);
  }

  /** Reserving for a fresh payment on a legacy order that just got its item. */
  lemma LegacyReserve(ready: Database, payment: PaymentId, order: OrderId, provider: ProviderName, amount: Money, locked: set<KeyId>)
    returns (claims: map<KeyId, ItemId>)
    requires Stocked(ready, order) && order in ready.orders && !ready.orders[order].HoldsKeys()
    requires ready.orders[order].total == Some(amount)
    requires ReserveFor(InsertPayment(ready, payment, order, Some(provider), amount), order, payment, locked).Ok?
    ensures Covers(ready.keys, ready.items, order, claims)
    ensures ReserveFor(InsertPayment(ready, payment, order, Some(provider), amount), order, payment, locked)
         == Ok(Opened(ready, payment, order, Some(provider), amount, claims))
  {
    hide KeyStates, Holdings, UniqueProducts, PositiveQuantities, EnoughStock, Claims, ReservationPool, Reserve, Covers, ItemsOf;
    var pool := ReservationPool(ready.keys, ready.assignments, locked);
    claims := Claims(ready.keys, ready.items, order, pool);
    ReserveEffect(InsertPayment(ready, payment, order, Some(provider), amount), order, locked);
    PoolIsOnSale(ready.keys, ready.assignments, locked);
    ClaimsCover(ready, order, pool);
  }

  lemma LegacyOpening(db: Database, order: OrderId, given: Option<ProviderName>, settings: Settings, schedule: Schedule)
    returns (claims: map<KeyId, ItemId>, provider: ProviderName)
    requires Legacy(db, order) && OpenCreate(db, order, given, settings, schedule).Ok?
    ensures Covers(db.keys, db.items[db.nextItem := LegacyItem(db, order)], order, claims)
    ensures OpenCreate(db, order, given, settings, schedule)
         == Ok(Opening(LegacyOpened(db, NewId(db, schedule), order, provider, claims), NewId(db, schedule), db.orders[order].total.value, provider,
                       Some(db.nextItem)))
  {
    hide KeyStates, Holdings, UniqueProducts, PositiveQuantities, Sequences, ReserveFor, Covers, ItemsOf, Stocked, ActivePayments;
    provider := ChooseProvider(given, settings).value;
    LegacyItemIsStocked(db, order);
    claims := LegacyReserve(WithItem(db, LegacyItem(db, order)), NewId(db, schedule), order, provider, db.orders[order].total.value,
                            schedule.locked);
  }

  lemma PoolIsOnSale(keys: map<KeyId, LicenseKey>, assignments: map<KeyId, ItemId>, locked: set<KeyId>)
    ensures ReservationPool(keys, assignments, locked) <= SalePool(keys)
  {
  }

  /** Run alone on a legacy order, opening and compensating leaves one failed payment and nothing else. */
  lemma LegacyCreateThenCompensate(db: Database, order: OrderId, given: Option<ProviderName>, settings: Settings, schedule: Schedule)
    requires Legacy(db, order) && OpenCreate(db, order, given, settings, schedule).Ok?
    ensures var opening := OpenCreate(db, order, given, settings, schedule).value;
            var failed := WithFailedPayment(db, opening.payment, order, Some(opening.provider), opening.amount);
            Compensate(opening.db, opening.payment, opening.createdItem) == Ok(failed.(nextItem := db.nextItem + 1))
  {
    hide OpenCreate, Compensate, Covers, Legacy;
    var claims, provider := LegacyOpening(db, order, given, settings, schedule);
    LegacyUndone(db, NewId(db, schedule), order, provider, claims);
  }

  lemma LegacyUndone(db: Database, payment: PaymentId, order: OrderId, provider: ProviderName, claims: map<KeyId, ItemId>)
    requires Legacy(db, order) && Covers(db.keys, db.items[db.nextItem := LegacyItem(db, order)], order, claims)
    ensures Compensate(LegacyOpened(db, payment, order, provider, claims), payment, Some(db.nextItem))
         == Ok(WithFailedPayment(db, payment, order, Some(provider), db.orders[order].total.value).(nextItem := db.nextItem + 1))
  {
    hide KeyStates, Holdings, UniqueProducts, PositiveQuantities, Sequences, Covers, HeldFor, HeldBy, SetStatus, Fail, ItemsOf,
         Withdrawn;
    LegacyItemIsStocked(db, order);
    LegacyOpenedIsStocked(db, payment, order, provider, claims);
    NewItemHoldsNothing(db);
    FailOfAuthorised(LegacyOpened(db, payment, order, provider, claims), payment, order);
    assert db.items[db.nextItem := LegacyItem(db, order)] - {db.nextItem} == db.items;
    assert db.assignments - {} == db.assignments;
  }

  lemma LegacyOpenedIsStocked(db: Database, payment: PaymentId, order: OrderId, provider: ProviderName, claims: map<KeyId, ItemId>)
    requires Legacy(db, order) && Covers(db.keys, db.items[db.nextItem := LegacyItem(db, order)], order, claims)
    ensures Stocked(LegacyOpened(db, payment, order, provider, claims), order)
    ensures Withdrawn(LegacyOpened(db, payment, order, provider, claims), payment)
         == WithFailedPayment(WithItem(db, LegacyItem(db, order)), payment, order, Some(provider), db.orders[order].total.value)
  {
    hide KeyStates, Holdings, UniqueProducts, PositiveQuantities, Sequences, HeldFor, HeldBy, SetStatus, ItemsOf, Withdrawn;
    var amount := db.orders[order].total.value;
    var ready := WithItem(db, LegacyItem(db, order));
    var row := db.orders[order].(attempt := Some(payment));
    LegacyItemIsStocked(db, order);
    OrderHoldsNothing(ready, order);
    ClaimsAreUnassigned(ready.keys, ready.assignments, ready.items, ready.orders, order, claims);
    GrantKeepsKeyStates(ready.keys, ready.assignments, ready.items, ready.orders, order, claims, row);
    GrantKeepsHoldings(ready.assignments, ready.items, ready.orders, order, claims, row);
    WithdrawUndoesOpen(ready, payment, order, Some(provider), amount, claims);
  }

  lemma NewItemHoldsNothing(db: Database)
    requires Sequences(db) && KeyStates(db.keys, db.assignments, db.items, db.orders)
    ensures HeldBy(db.assignments, db.nextItem) == {} && db.nextItem !in db.items
  {
  }

  /** Failing the payment in charge of a stocked order withdraws it. */
  lemma FailOfAuthorised(db: Database, payment: PaymentId, order: OrderId)
    requires Stocked(db, order) && payment in db.payments && order in db.orders && db.payments[payment].order == order
    requires !db.orders[order].status.Paid? && db.orders[order].attempt == Some(payment) && db.payments[payment].status.Active()
    ensures Fail(db, payment) == Ok(Withdrawn(db, payment))
  {
    hide KeyStates, Holdings, UniqueProducts, PositiveQuantities, ItemsOf, Release, HeldFor, SetStatus;
    ReleaseEffect(db.(payments := db.payments[payment := db.payments[payment].(status := Failed)]), order);
  }

  // ---------------------------------------------------------------- the compensating item delete

  /**
   * Compensation also deletes the order item its opening created, without looking at the order
   * again. On coherent tables the result is coherent exactly when the order is still unpaid and no
   * other attempt is in charge; otherwise the delete strands sold or reserved keys.
   */
  lemma ItemDeleteIsSafeIff(db: Database, payment: PaymentId, item: ItemId, order: OrderId) returns (after: Database)
    requires Coherent(db) && payment in db.payments && db.payments[payment].order == order && order in db.orders
    requires item in ItemsOf(db.items, order)
    ensures Compensate(db, payment, Some(item)) == Ok(after)
    ensures Coherent(after)
            <==> !db.orders[order].status.Paid?
                 && (db.orders[order].attempt == None || db.orders[order].attempt == Some(payment))
  {
    hide KeyStates, Holdings, Authority, Outcomes, Agreement, Delivered, Notified, UniqueProducts, PositiveQuantities,
         UniqueTransactions, CartRows, Sequences, CartOrders, Fail;
    PaymentStanding(db.orders, db.payments, payment);
    CoherentFail(db, payment);
    var failed := Fail(db, payment).value;
    DeleteIsCoherentIff(failed, item);
    after := DeleteItem(failed, item);
  }

  /** Deleting an item keeps the tables coherent exactly when its order holds no keys. */
  lemma DeleteIsCoherentIff(db: Database, item: ItemId)
    requires Coherent(db) && item in db.items && db.items[item].order in db.orders
    ensures Coherent(DeleteItem(db, item)) <==> !db.orders[db.items[item].order].HoldsKeys()
  {
    hide KeyStates, Holdings, Authority, Outcomes, Agreement, Delivered, Notified, UniqueProducts, PositiveQuantities,
         UniqueTransactions, CartRows, CartOrders;
    DeleteStrandsKeys(db.keys, db.assignments, db.items, db.orders, item);
    if !db.orders[db.items[item].order].HoldsKeys() {
      FewerItems(db.assignments, db.items, db.orders, item);
    }
  }

  /** Deleting an item that holds no key leaves every other item and order as it was. */
  lemma FewerItems(assignments: map<KeyId, ItemId>, items: map<ItemId, OrderItem>, orders: map<OrderId, Order>, item: ItemId)
    requires Holdings(assignments, items, orders) && Delivered(assignments, items, orders)
    requires UniqueProducts(items) && PositiveQuantities(items)
    requires item in items && items[item].order in orders && !orders[items[item].order].HoldsKeys()
    ensures Holdings(assignments - HeldBy(assignments, item), items - {item}, orders)
    ensures Delivered(assignments - HeldBy(assignments, item), items - {item}, orders)
    ensures UniqueProducts(items - {item}) && PositiveQuantities(items - {item})
  {
    assert HeldBy(assignments, item) == {};
    assert assignments - {} == assignments;
  }

  /** Deleting an item is harmless to key states exactly when its order holds no keys. */
  lemma DeleteStrandsKeys(
    keys: map<KeyId, LicenseKey>, assignments: map<KeyId, ItemId>, items: map<ItemId, OrderItem>, orders: map<OrderId, Order>,
    item: ItemId)
    requires KeyStates(keys, assignments, items, orders) && Holdings(assignments, items, orders) && PositiveQuantities(items)
    requires item in items && items[item].order in orders
    ensures KeyStates(keys, assignments - HeldBy(assignments, item), items - {item}, orders)
            <==> !orders[items[item].order].HoldsKeys()
  {
    var held := HeldBy(assignments, item);
    if orders[items[item].order].HoldsKeys() {
      assert |held| >= 1;
      var k :| k in held;
      assert k in keys && k !in assignments - held && keys[k].status != Available;
    } else {
      assert held == {};
    }
  }

  // ---------------------------------------------------------------- the pending write

  /**
   * The unguarded write of a pending outcome keeps the tables coherent, and the invariant if it held,
   * exactly when the payment is still active.
   */
  lemma PendingWriteIsSafeIff(db: Database, payment: PaymentId)
    requires Coherent(db) && payment in db.payments
    ensures Coherent(MarkPending(db, payment)) <==> db.payments[payment].status.Active()
    ensures Inv(db) ==> (Inv(MarkPending(db, payment)) <==> db.payments[payment].status.Active())
  {
    hide KeyStates, Holdings, Authority, Outcomes, Agreement, Delivered, Notified, UniqueProducts, PositiveQuantities,
         UniqueTransactions, CartRows, CartOrders, Valued, NonEmptyOrders;
    PaymentStanding(db.orders, db.payments, payment);
    PendingParts(db.orders, db.payments, payment);
    StatusKeepsTransactions(db.payments, payment, Pending);
  }

  lemma PendingParts(orders: map<OrderId, Order>, payments: map<PaymentId, Payment>, payment: PaymentId)
    requires Authority(orders, payments) && Outcomes(orders, payments) && Agreement(orders, payments)
    requires payment in payments && payments[payment].order in orders
    requires payments[payment].status.Active() <==> orders[payments[payment].order].attempt == Some(payment)
    ensures var after := payments[payment := payments[payment].(status := Pending)];
            && (Authority(orders, after) <==> payments[payment].status.Active())
            && (payments[payment].status.Active() ==> Outcomes(orders, after) && Agreement(orders, after))
  {
    var after := payments[payment := payments[payment].(status := Pending)];
    if payments[payment].status.Active() {
      forall o | o in orders
        ensures PaidPayments(after, o) == PaidPayments(payments, o)
      {
      }
    } else {
      assert payment in after && after[payment].status.Active();
    }
  }
}
