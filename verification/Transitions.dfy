/**
 * Under the invariant every payment transaction is one of four moves on the tables: open an
 * attempt, withdraw it, settle it from its reservation, or settle a failed one from free stock.
 * Each move keeps the invariant.
 */
module Transitions {
  import opened Foundations
  import opened Schema
  import opened Allocation
  import opened Payments
  import opened Invariants

  // ---------------------------------------------------------------- the four moves

  /** Insert a payment, reserve the claimed keys and give the payment authority. */
  function Opened(
    db: Database, payment: PaymentId, order: OrderId, provider: Option<ProviderName>, amount: Money, claims: map<KeyId, ItemId>
  ): Database
    requires order in db.orders
  {
    var granted := Grant(InsertPayment(db, payment, order, provider, amount), claims, Reserved);
    granted.(orders := db.orders[order := db.orders[order].(attempt := Some(payment))])
  }

  /** Fail the active payment, free the order's keys and clear its authority. */
  function Withdrawn(db: Database, payment: PaymentId): Database
    requires payment in db.payments && db.payments[payment].order in db.orders
  {
    var order := db.payments[payment].order;
    Return(db, HeldFor(db.assignments, db.items, order)).(
      payments := db.payments[payment := db.payments[payment].(status := Failed)],
      orders := db.orders[order := db.orders[order].(attempt := None)])
  }

  /** Sell the reserved keys of the order of an authorised payment. */
  function SettledFromReservation(db: Database, payment: PaymentId, price: Money): Database
    requires payment in db.payments && db.payments[payment].order in db.orders
  {
    var order := db.payments[payment].order;
    var held := HeldFor(db.assignments, db.items, order);
    Settle(db.(keys := SetStatus(db.keys, held, Sold)), order, payment, price,
           if held == {} then None else Some(Least(held)))
  }

  /** Assign and sell the claimed keys for a payment that had failed. */
  function SettledFromStock(
    db: Database, payment: PaymentId, price: Money, claims: map<KeyId, ItemId>, firstKey: Option<KeyId>
  ): Database
    requires payment in db.payments && db.payments[payment].order in db.orders
  {
    Settle(Grant(db, claims, Sold), db.payments[payment].order, payment, price, firstKey)
  }

  /** The claims give each item of the order its quantity of available keys of its own product. */
  ghost predicate Covers(
    keys: map<KeyId, LicenseKey>, items: map<ItemId, OrderItem>, order: OrderId, claims: map<KeyId, ItemId>
  ) {
    && (forall k <- claims ::
          && k in keys && keys[k].status.Available?
          && claims[k] in items && items[claims[k]].order == order && items[claims[k]].product == keys[k].product)
    && (forall i <- items | items[i].order == order :: |HeldBy(claims, i)| == items[i].quantity)
  }

  // ---------------------------------------------------------------- keys and holdings

  lemma HeldByUnion(assignments: map<KeyId, ItemId>, claims: map<KeyId, ItemId>, i: ItemId)
    requires assignments.Keys !! claims.Keys
    ensures |HeldBy(assignments + claims, i)| == |HeldBy(assignments, i)| + |HeldBy(claims, i)|
  {
    assert HeldBy(assignments + claims, i) == HeldBy(assignments, i) + HeldBy(claims, i);
    assert HeldBy(assignments, i) !! HeldBy(claims, i);
  }

  /** Claimed keys are unassigned, so the grant adds assignment rows without touching any. */
  lemma ClaimsAreUnassigned(
    keys: map<KeyId, LicenseKey>, assignments: map<KeyId, ItemId>, items: map<ItemId, OrderItem>, orders: map<OrderId, Order>,
    order: OrderId, claims: map<KeyId, ItemId>)
    requires KeyStates(keys, assignments, items, orders)
    requires Covers(keys, items, order, claims)
    ensures claims.Keys !! assignments.Keys
  {
  }

  /** Granting keys to an order that held none sells or reserves them, as the order's new row says. */
  lemma GrantKeepsKeyStates(
    keys: map<KeyId, LicenseKey>, assignments: map<KeyId, ItemId>, items: map<ItemId, OrderItem>, orders: map<OrderId, Order>,
    order: OrderId, claims: map<KeyId, ItemId>, row: Order)
    requires KeyStates(keys, assignments, items, orders)
    requires order in orders && HeldFor(assignments, items, order) == {}
    requires Covers(keys, items, order, claims)
    ensures KeyStates(SetStatus(keys, claims.Keys, if row.status.Paid? then Sold else Reserved),
                      assignments + claims, items, orders[order := row])
  {
    forall k | k in assignments
      ensures items[assignments[k]].order != order
    {
      assert k !in HeldFor(assignments, items, order);
    }
  }

  lemma GrantKeepsHoldings(
    assignments: map<KeyId, ItemId>, items: map<ItemId, OrderItem>, orders: map<OrderId, Order>,
    order: OrderId, claims: map<KeyId, ItemId>, row: Order)
    requires Holdings(assignments, items, orders)
    requires order in orders && !orders[order].HoldsKeys() && row.HoldsKeys()
    requires claims.Keys !! assignments.Keys
    requires forall k <- claims :: claims[k] in items && items[claims[k]].order == order
    requires forall i <- items | items[i].order == order :: |HeldBy(claims, i)| == items[i].quantity
    ensures Holdings(assignments + claims, items, orders[order := row])
  {
    forall i | i in items
      ensures |HeldBy(assignments + claims, i)|
           == if items[i].order == order then items[i].quantity else |HeldBy(assignments, i)|
    {
      HeldByUnion(assignments, claims, i);
      if items[i].order != order {
        assert HeldBy(claims, i) == {};
      }
    }
  }

  /** Returning an unpaid order's keys makes exactly them available. */
  lemma ReturnKeepsKeyStates(
    keys: map<KeyId, LicenseKey>, assignments: map<KeyId, ItemId>, items: map<ItemId, OrderItem>, orders: map<OrderId, Order>,
    order: OrderId, row: Order)
    requires KeyStates(keys, assignments, items, orders)
    requires order in orders
    ensures var held := HeldFor(assignments, items, order);
            KeyStates(SetStatus(keys, held, Available), assignments - held, items, orders[order := row])
  {
  }

  lemma ReturnKeepsHoldings(
    assignments: map<KeyId, ItemId>, items: map<ItemId, OrderItem>, orders: map<OrderId, Order>, order: OrderId, row: Order)
    requires Holdings(assignments, items, orders)
    requires order in orders && !row.HoldsKeys()
    ensures Holdings(assignments - HeldFor(assignments, items, order), items, orders[order := row])
  {
    var held := HeldFor(assignments, items, order);
    forall i | i in items
      ensures HeldBy(assignments - held, i) == if items[i].order == order then {} else HeldBy(assignments, i)
    {
    }
  }

  /** Selling a reservation changes no assignment, only the status of the order's keys. */
  lemma SaleKeepsKeyStates(
    keys: map<KeyId, LicenseKey>, assignments: map<KeyId, ItemId>, items: map<ItemId, OrderItem>, orders: map<OrderId, Order>,
    order: OrderId, row: Order)
    requires KeyStates(keys, assignments, items, orders)
    requires order in orders && row.status.Paid?
    ensures KeyStates(SetStatus(keys, HeldFor(assignments, items, order), Sold), assignments, items, orders[order := row])
  {
  }

  // ---------------------------------------------------------------- payments

  /** One payment row and its order row change together. */
  ghost predicate PaymentMove(
    orders: map<OrderId, Order>, payments: map<PaymentId, Payment>, order: OrderId, row: Order, payment: PaymentId, after: Payment
  ) {
    && order in orders && !orders[order].status.Paid?
    && (orders[order].attempt == None || orders[order].attempt == Some(payment))
    && (payment in payments ==> payments[payment].order == order)
    && after.order == order
    && (after.status.Active() || after.status.Paid? || after.status.Failed?)
    && row.attempt == (if after.status.Active() then Some(payment) else None)
    && (row.status.Paid? <==> after.status.Paid?)
    && row.total == orders[order].total == Some(after.amount)
    && row.pricePaid == if row.status.Paid? then row.total else None
  }

  lemma PaymentMoveKeepsAuthority(
    orders: map<OrderId, Order>, payments: map<PaymentId, Payment>, order: OrderId, row: Order, payment: PaymentId, after: Payment)
    requires Authority(orders, payments) && Agreement(orders, payments)
    requires PaymentMove(orders, payments, order, row, payment, after)
    ensures Authority(orders[order := row], payments[payment := after])
    ensures Agreement(orders[order := row], payments[payment := after])
  {
  }

  lemma PaymentMoveKeepsOutcomes(
    orders: map<OrderId, Order>, payments: map<PaymentId, Payment>, order: OrderId, row: Order, payment: PaymentId, after: Payment)
    requires Outcomes(orders, payments)
    requires PaymentMove(orders, payments, order, row, payment, after)
    ensures Outcomes(orders[order := row], payments[payment := after])
  {
    assert PaidPayments(payments, order) == {};
    forall o | o in orders
      ensures PaidPayments(payments[payment := after], o)
           == if o == order && after.status.Paid? then {payment} else PaidPayments(payments, o)
    {
      assert forall p <- PaidPayments(payments, order) :: false;
    }
  }

  // ---------------------------------------------------------------- the remaining tables

  /** Facts that depend on an order row only through its total and source survive a change that keeps both. */
  lemma RowKeepsValue(
    orders: map<OrderId, Order>, items: map<ItemId, OrderItem>, nextItem: ItemId, order: OrderId, row: Order)
    requires Valued(orders, items, nextItem) && NonEmptyOrders(orders, items) && DirectItems(orders, items)
    requires order in orders && row.total == orders[order].total && row.source == orders[order].source
    ensures Valued(orders[order := row], items, nextItem) && NonEmptyOrders(orders[order := row], items)
    ensures DirectItems(orders[order := row], items)
  {
  }

  lemma UnpaidKeepsDelivered(
    assignments: map<KeyId, ItemId>, after: map<KeyId, ItemId>, items: map<ItemId, OrderItem>, orders: map<OrderId, Order>,
    order: OrderId, row: Order)
    requires Delivered(assignments, items, orders)
    requires order in orders && !row.status.Paid? && row.licenseKey == None
    requires forall o <- orders | o != order ::
               HeldFor(assignments, items, o) <= HeldFor(after, items, o)
    ensures Delivered(after, items, orders[order := row])
  {
  }

  lemma OpenedKeepsSequences(
    db: Database, payment: PaymentId, order: OrderId, provider: Option<ProviderName>, amount: Money, claims: map<KeyId, ItemId>)
    requires Sequences(db) && order in db.orders
    ensures Sequences(Opened(db, payment, order, provider, amount, claims))
  {
  }

  lemma FreshPaymentKeepsTransactions(payments: map<PaymentId, Payment>, payment: PaymentId, row: Payment)
    requires UniqueTransactions(payments) && payment !in payments && row.transactionId == None
    ensures UniqueTransactions(payments[payment := row])
  {
  }

  lemma UnpaidKeepsNotified(orders: map<OrderId, Order>, emails: multiset<OrderId>, order: OrderId, row: Order)
    requires Notified(orders, emails) && order in orders && (row.status.Paid? <==> orders[order].status.Paid?)
    ensures Notified(orders[order := row], emails)
  {
  }

  lemma StatusKeepsTransactions(payments: map<PaymentId, Payment>, payment: PaymentId, status: PaymentStatus)
    requires UniqueTransactions(payments) && payment in payments
    ensures UniqueTransactions(payments[payment := payments[payment].(status := status)])
  {
  }

  lemma PaidKeepsNotified(orders: map<OrderId, Order>, emails: multiset<OrderId>, order: OrderId, row: Order)
    requires Notified(orders, emails) && order in orders && !orders[order].status.Paid? && row.status.Paid?
    ensures Notified(orders[order := row], emails + multiset{order})
  {
  }

  lemma PaidKeepsDelivered(
    assignments: map<KeyId, ItemId>, after: map<KeyId, ItemId>, items: map<ItemId, OrderItem>, orders: map<OrderId, Order>,
    order: OrderId, row: Order)
    requires Delivered(assignments, items, orders)
    requires order in orders && row.status.Paid?
    requires row.licenseKey.Some? ==> row.licenseKey.value in HeldFor(after, items, order)
    requires row.source.Direct? ==> row.licenseKey.Some?
    requires row.source.Cart? ==> row.licenseKey == None
    requires forall o <- orders | o != order ::
               HeldFor(assignments, items, o) <= HeldFor(after, items, o)
    ensures Delivered(after, items, orders[order := row])
  {
  }

  // ---------------------------------------------------------------- the moves keep the invariant

  ghost predicate CanOpen(db: Database, order: OrderId, amount: Money, claims: map<KeyId, ItemId>) {
    && order in db.orders && !db.orders[order].HoldsKeys() && db.orders[order].total == Some(amount)
    && Covers(db.keys, db.items, order, claims)
  }

  /** An unpaid order has neither a price paid nor a delivered key. */
  lemma UnpaidRow(db: Database, order: OrderId)
    requires Agreement(db.orders, db.payments) && Delivered(db.assignments, db.items, db.orders)
    requires order in db.orders && !db.orders[order].status.Paid?
    ensures db.orders[order].pricePaid == None && db.orders[order].licenseKey == None
  {
  }

  lemma OpenedKeepsInv(
    db: Database, payment: PaymentId, order: OrderId, provider: Option<ProviderName>, amount: Money, claims: map<KeyId, ItemId>)
    requires Inv(db) && CanOpen(db, order, amount, claims) && payment !in db.payments
    ensures Inv(Opened(db, payment, order, provider, amount, claims))
  {
    hide KeyStates, Holdings, Authority, Outcomes, Valued, Agreement, NonEmptyOrders, DirectItems, Delivered, Notified, UniqueProducts,
         PositiveQuantities, UniqueTransactions, CartRows;
    OpenedKeepsSequences(db, payment, order, provider, amount, claims);
    var row := db.orders[order].(attempt := Some(payment));
    var created := Payment(order, PaymentStatus.Created, provider, None, amount);
    UnpaidRow(db, order);
    UnpaidKeepsNotified(db.orders, db.emails, order, row);
    FreshPaymentKeepsTransactions(db.payments, payment, created);
    OrderHoldsNothing(db, order);
    ClaimsAreUnassigned(db.keys, db.assignments, db.items, db.orders, order, claims);
    GrantKeepsKeyStates(db.keys, db.assignments, db.items, db.orders, order, claims, row);
    GrantKeepsHoldings(db.assignments, db.items, db.orders, order, claims, row);
    PaymentMoveKeepsAuthority(db.orders, db.payments, order, row, payment, created);
    PaymentMoveKeepsOutcomes(db.orders, db.payments, order, row, payment, created);
    RowKeepsValue(db.orders, db.items, db.nextItem, order, row);
    UnpaidKeepsDelivered(db.assignments, db.assignments + claims, db.items, db.orders, order, row);
  }

  lemma WithdrawnKeepsInv(db: Database, payment: PaymentId)
    requires Inv(db) && payment in db.payments && db.payments[payment].status.Active()
    requires db.payments[payment].order in db.orders
    ensures Inv(Withdrawn(db, payment))
  {
    WithdrawnKeepsCoherent(db, payment);
    var order := db.payments[payment].order;
    hide Coherent;
    RowKeepsValue(db.orders, db.items, db.nextItem, order, db.orders[order].(attempt := None));
  }

  lemma WithdrawnKeepsCoherent(db: Database, payment: PaymentId)
    requires Coherent(db) && payment in db.payments && db.payments[payment].status.Active()
    requires db.payments[payment].order in db.orders
    ensures Coherent(Withdrawn(db, payment))
  {
    var order := db.payments[payment].order;
    var row := db.orders[order].(attempt := None);
    var failed := db.payments[payment].(status := Failed);
    assert db.orders[order].attempt == Some(payment) && !db.orders[order].status.Paid?;
    WithdrawnParts(db, payment, order, row, failed);
  }

  lemma WithdrawnParts(db: Database, payment: PaymentId, order: OrderId, row: Order, failed: Payment)
    requires Coherent(db) && payment in db.payments && order in db.orders && order == db.payments[payment].order
    requires !db.orders[order].status.Paid? && db.orders[order].attempt == Some(payment)
    requires row == db.orders[order].(attempt := None) && failed == db.payments[payment].(status := Failed)
    ensures Coherent(Withdrawn(db, payment))
  {
    hide KeyStates, Holdings, Authority, Outcomes, Agreement, Delivered, Notified, UniqueProducts, PositiveQuantities,
         UniqueTransactions, CartRows;
    UnpaidRow(db, order);
    RowTotal(db.orders, db.payments, payment);
    ReturnKeepsKeyStates(db.keys, db.assignments, db.items, db.orders, order, row);
    ReturnKeepsHoldings(db.assignments, db.items, db.orders, order, row);
    PaymentMoveKeepsAuthority(db.orders, db.payments, order, row, payment, failed);
    PaymentMoveKeepsOutcomes(db.orders, db.payments, order, row, payment, failed);
    StatusKeepsTransactions(db.payments, payment, Failed);
    UnpaidKeepsNotified(db.orders, db.emails, order, row);
    var held := HeldFor(db.assignments, db.items, order);
    UnpaidKeepsDelivered(db.assignments, db.assignments - held, db.items, db.orders, order, row);
  }

  lemma RowTotal(orders: map<OrderId, Order>, payments: map<PaymentId, Payment>, payment: PaymentId)
    requires Agreement(orders, payments) && payment in payments
    ensures payments[payment].order in orders && orders[payments[payment].order].total == Some(payments[payment].amount)
  {
  }

  /** A payment that may settle its order: authorised, or failed with no other attempt in charge. */
  ghost predicate MaySettle(db: Database, payment: PaymentId, order: OrderId) {
    && payment in db.payments && order in db.orders && order == db.payments[payment].order
    && !db.orders[order].status.Paid?
    && (db.orders[order].attempt == None || db.orders[order].attempt == Some(payment))
  }

  function SettledRow(row: Order, firstKey: Option<KeyId>): Order {
    row.(licenseKey := if row.source.Direct? then firstKey else row.licenseKey,
         status := OrderStatus.Paid, pricePaid := row.total, attempt := None)
  }

  /** The rows of order, payment and email log written by `Settle` keep every predicate over them. */
  lemma SettleRowsKeepInv(
    db: Database, after: map<KeyId, ItemId>, payment: PaymentId, order: OrderId, firstKey: Option<KeyId>, row: Order, paid: Payment)
    requires Inv(db) && MaySettle(db, payment, order)
    requires row == SettledRow(db.orders[order], firstKey) && paid == db.payments[payment].(status := PaymentStatus.Paid)
    requires row.source.Direct? ==> firstKey.Some? && firstKey.value in HeldFor(after, db.items, order)
    requires forall o <- db.orders | o != order ::
               HeldFor(db.assignments, db.items, o) <= HeldFor(after, db.items, o)
    ensures Authority(db.orders[order := row], db.payments[payment := paid])
    ensures Agreement(db.orders[order := row], db.payments[payment := paid])
    ensures Outcomes(db.orders[order := row], db.payments[payment := paid])
    ensures UniqueTransactions(db.payments[payment := paid])
    ensures Valued(db.orders[order := row], db.items, db.nextItem) && NonEmptyOrders(db.orders[order := row], db.items)
    ensures DirectItems(db.orders[order := row], db.items)
    ensures Notified(db.orders[order := row], db.emails + multiset{order})
    ensures Delivered(after, db.items, db.orders[order := row])
  {
    hide KeyStates, Holdings, Authority, Outcomes, Valued, Agreement, NonEmptyOrders, DirectItems, Delivered, Notified, UniqueProducts,
         PositiveQuantities, UniqueTransactions, CartRows, Sequences;
    UnpaidRow(db, order);
    RowTotal(db.orders, db.payments, payment);
    PaymentMoveKeepsAuthority(db.orders, db.payments, order, row, payment, paid);
    PaymentMoveKeepsOutcomes(db.orders, db.payments, order, row, payment, paid);
    StatusKeepsTransactions(db.payments, payment, PaymentStatus.Paid);
    RowKeepsValue(db.orders, db.items, db.nextItem, order, row);
    PaidKeepsNotified(db.orders, db.emails, order, row);
    PaidKeepsDelivered(db.assignments, after, db.items, db.orders, order, row);
  }

  lemma SettledFromReservationKeepsInv(db: Database, payment: PaymentId, order: OrderId, price: Money)
    requires Inv(db) && MaySettle(db, payment, order) && db.orders[order].attempt.Some?
    requires db.orders[order].total == Some(price)
    ensures Inv(SettledFromReservation(db, payment, price))
  {
    hide KeyStates, Holdings, Authority, Outcomes, Valued, Agreement, NonEmptyOrders, DirectItems, Delivered, Notified, UniqueProducts,
         PositiveQuantities, UniqueTransactions, CartRows;
    OrderHasItems(db.orders, db.items, order);
    OrderHoldsReservation(db, order);
    var firstKey := Some(Least(HeldFor(db.assignments, db.items, order)));
    var row := SettledRow(db.orders[order], firstKey);
    SettleRowsKeepInv(db, db.assignments, payment, order, firstKey, row, db.payments[payment].(status := PaymentStatus.Paid));
    SaleKeepsKeyStates(db.keys, db.assignments, db.items, db.orders, order, row);
    SaleKeepsHoldings(db.assignments, db.items, db.orders, order, row);
  }

  lemma SaleKeepsHoldings(
    assignments: map<KeyId, ItemId>, items: map<ItemId, OrderItem>, orders: map<OrderId, Order>, order: OrderId, row: Order)
    requires Holdings(assignments, items, orders)
    requires order in orders && orders[order].HoldsKeys() && row.HoldsKeys()
    ensures Holdings(assignments, items, orders[order := row])
  {
  }

  lemma SettledFromStockKeepsInv(
    db: Database, payment: PaymentId, order: OrderId, price: Money, claims: map<KeyId, ItemId>, firstKey: Option<KeyId>)
    requires Inv(db) && MaySettle(db, payment, order) && CanOpen(db, order, price, claims)
    requires firstKey.Some? && firstKey.value in claims
    ensures Inv(SettledFromStock(db, payment, price, claims, firstKey))
  {
    hide KeyStates, Holdings, Authority, Outcomes, Valued, Agreement, NonEmptyOrders, DirectItems, Delivered, Notified, UniqueProducts,
         PositiveQuantities, UniqueTransactions, CartRows;
    var row := SettledRow(db.orders[order], firstKey);
    OrderHoldsNothing(db, order);
    ClaimsAreUnassigned(db.keys, db.assignments, db.items, db.orders, order, claims);
    SettleRowsKeepInv(db, db.assignments + claims, payment, order, firstKey, row,
                      db.payments[payment].(status := PaymentStatus.Paid));
    GrantKeepsKeyStates(db.keys, db.assignments, db.items, db.orders, order, claims, row);
    GrantKeepsHoldings(db.assignments, db.items, db.orders, order, claims, row);
  }
}
