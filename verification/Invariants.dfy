/** The global invariant of the purchase tables. */
module Invariants {
  import opened Foundations
  import opened Schema
  import opened Allocation

  /** A key is available exactly when unassigned; otherwise its order decides: sold if paid, else reserved. */
  ghost predicate KeyStates(
    keys: map<KeyId, LicenseKey>, assignments: map<KeyId, ItemId>, items: map<ItemId, OrderItem>, orders: map<OrderId, Order>
  ) {
    && (forall k <- keys :: k !in assignments ==> keys[k].status == Available)
    && (forall k <- assignments ::
          && k in keys && assignments[k] in items && items[assignments[k]].order in orders
          && keys[k].product == items[assignments[k]].product
          && keys[k].status == if orders[items[assignments[k]].order].status.Paid? then Sold else Reserved)
  }

  /** Each item of an order that holds keys has exactly its quantity of them; every other item has none. */
  ghost predicate Holdings(assignments: map<KeyId, ItemId>, items: map<ItemId, OrderItem>, orders: map<OrderId, Order>) {
    && (forall i <- items :: items[i].order in orders)
    && (forall i {:trigger HeldBy(assignments, i)} | i in items ::
          |HeldBy(assignments, i)| == if orders[items[i].order].HoldsKeys() then items[i].quantity else 0)
  }

  /** An order's attempt is exactly its active payment, and only an unpaid order has one. */
  ghost predicate Authority(orders: map<OrderId, Order>, payments: map<PaymentId, Payment>) {
    && (forall o <- orders | orders[o].attempt.Some? ::
          && !orders[o].status.Paid?
          && orders[o].attempt.value in payments
          && payments[orders[o].attempt.value].order == o
          && payments[orders[o].attempt.value].status.Active())
    && (forall p <- payments ::
          && payments[p].order in orders
          && (payments[p].status.Active() ==> orders[payments[p].order].attempt == Some(p)))
  }

  /** Payments end paid or failed; a paid order has exactly one paid payment, an unpaid one has none. */
  ghost predicate Outcomes(orders: map<OrderId, Order>, payments: map<PaymentId, Payment>) {
    && (forall p <- payments :: payments[p].status.Active() || payments[p].status.Paid? || payments[p].status.Failed?)
    && (forall o {:trigger PaidPayments(payments, o)} | o in orders :: |PaidPayments(payments, o)| == if orders[o].status.Paid? then 1 else 0)
  }

  /** The sum of unit price times quantity over the items of an order with ids below `n`. */
  function OrderValue(items: map<ItemId, OrderItem>, order: OrderId, n: nat): Money {
    if n == 0 then 0
    else
      OrderValue(items, order, n - 1)
      + if n - 1 in items && items[n - 1].order == order then LineTotal(items[n - 1].unitPrice, items[n - 1].quantity) else 0
  }

  /** The total of every order is the value of its item snapshots. */
  ghost predicate Valued(orders: map<OrderId, Order>, items: map<ItemId, OrderItem>, nextItem: ItemId) {
    && (forall o <- orders :: orders[o].total.Some?)
    && (forall o {:trigger OrderValue(items, o, nextItem)} | o in orders ::
          orders[o].total == Some(OrderValue(items, o, nextItem)))
  }

  /** Total, price paid and payment amounts agree. */
  ghost predicate Agreement(orders: map<OrderId, Order>, payments: map<PaymentId, Payment>) {
    && (forall o <- orders :: orders[o].pricePaid == if orders[o].status.Paid? then orders[o].total else None)
    && (forall p <- payments ::
          payments[p].order in orders && orders[payments[p].order].total == Some(payments[p].amount))
  }

  ghost predicate NonEmptyOrders(orders: map<OrderId, Order>, items: map<ItemId, OrderItem>) {
    forall o {:trigger ItemsOf(items, o)} | o in orders :: ItemsOf(items, o) != {}
  }

  /**
   * `license_key` of an order, when set, is a key assigned to that paid order. A paid direct order has
   * one, a cart order never has.
   */
  ghost predicate Delivered(assignments: map<KeyId, ItemId>, items: map<ItemId, OrderItem>, orders: map<OrderId, Order>) {
    forall o <- orders ::
      && (orders[o].licenseKey.Some? ==>
            && orders[o].status.Paid?
            && orders[o].licenseKey.value in HeldFor(assignments, items, o))
      && (orders[o].source.Direct? && orders[o].status.Paid? ==> orders[o].licenseKey.Some?)
      && (orders[o].source.Cart? ==> orders[o].licenseKey == None)
  }

  /** A direct order has a single item. */
  ghost predicate DirectItems(orders: map<OrderId, Order>, items: map<ItemId, OrderItem>) {
    forall i, j | i in items && j in items && items[i].order == items[j].order
      && items[i].order in orders && orders[items[i].order].source.Direct? :: i == j
  }

  /** One confirmation email for each paid order, none for any other. */
  ghost predicate Notified(orders: map<OrderId, Order>, emails: multiset<OrderId>) {
    && (forall o <- orders :: emails[o] == if orders[o].status.Paid? then 1 else 0)
    && (forall o <- emails :: o in orders)
  }

  /** What holds of all tables even when some orders have no items yet. */
  ghost predicate Coherent(db: Database) {
    && Sequences(db)
    && UniqueProducts(db.items)
    && PositiveQuantities(db.items)
    && UniqueTransactions(db.payments)
    && CartOrders(db.orders)
    && KeyStates(db.keys, db.assignments, db.items, db.orders)
    && Holdings(db.assignments, db.items, db.orders)
    && Authority(db.orders, db.payments)
    && Outcomes(db.orders, db.payments)
    && Agreement(db.orders, db.payments)
    && Delivered(db.assignments, db.items, db.orders)
    && Notified(db.orders, db.emails)
    && CartRows(db.cart)
  }

  /** The invariant of every run: coherent tables, and every order has items worth its total, one if it is direct. */
  ghost predicate Inv(db: Database) {
    && Coherent(db)
    && Valued(db.orders, db.items, db.nextItem)
    && NonEmptyOrders(db.orders, db.items)
    && DirectItems(db.orders, db.items)
  }

  // ---------------------------------------------------------------- first consequences

  /** A consistent database meets every constraint, so no transaction that ends in one is rejected by them. */
  lemma ConstraintsHold(db: Database)
    requires Inv(db)
    ensures Constraints(db) && UniqueTransactions(db.payments)
  {
    hide Valued, Agreement, NonEmptyOrders, Notified, Outcomes, UniqueProducts, PositiveQuantities, UniqueTransactions, CartRows;
    DeliveredKeysDiffer(db.assignments, db.items, db.orders);
    DeliveredKeysExist(db.keys, db.assignments, db.items, db.orders);
  }

  /** An order's delivered key is assigned to that order, so no two orders share one. */
  lemma DeliveredKeysDiffer(assignments: map<KeyId, ItemId>, items: map<ItemId, OrderItem>, orders: map<OrderId, Order>)
    requires Delivered(assignments, items, orders)
    ensures OneOrderPerKey(orders)
  {
    forall o, q | o in orders && q in orders && orders[o].licenseKey.Some? && orders[o].licenseKey == orders[q].licenseKey
      ensures o == q
    {
      var k := orders[o].licenseKey.value;
      assert k in HeldFor(assignments, items, o) && k in HeldFor(assignments, items, q);
    }
  }

  lemma DeliveredKeysExist(
    keys: map<KeyId, LicenseKey>, assignments: map<KeyId, ItemId>, items: map<ItemId, OrderItem>, orders: map<OrderId, Order>)
    requires Delivered(assignments, items, orders) && KeyStates(keys, assignments, items, orders)
    ensures forall o <- orders | orders[o].licenseKey.Some? :: orders[o].licenseKey.value in keys
  {
    forall o | o in orders && orders[o].licenseKey.Some?
      ensures orders[o].licenseKey.value in keys
    {
      assert orders[o].licenseKey.value in HeldFor(assignments, items, o);
    }
  }

  lemma OrderHoldsNothing(db: Database, order: OrderId)
    requires Holdings(db.assignments, db.items, db.orders)
    requires order in db.orders && !db.orders[order].HoldsKeys()
    ensures HeldFor(db.assignments, db.items, order) == {}
    ensures LockedReservation(db.keys, db.items, db.assignments, order) == Ok({})
  {
    assert forall k <- db.assignments :: k in HeldBy(db.assignments, db.assignments[k]);
  }

  lemma OrderHasItems(orders: map<OrderId, Order>, items: map<ItemId, OrderItem>, order: OrderId)
    requires NonEmptyOrders(orders, items) && order in orders
    ensures ItemsOf(items, order) != {}
  {
  }

  lemma OrderHoldsReservation(db: Database, order: OrderId)
    requires KeyStates(db.keys, db.assignments, db.items, db.orders)
    requires Holdings(db.assignments, db.items, db.orders)
    requires ItemsOf(db.items, order) != {} && PositiveQuantities(db.items)
    requires order in db.orders && db.orders[order].attempt.Some? && !db.orders[order].status.Paid?
    ensures HeldFor(db.assignments, db.items, order) != {}
    ensures LockedReservation(db.keys, db.items, db.assignments, order) == Ok(HeldFor(db.assignments, db.items, order))
  {
    var i :| i in ItemsOf(db.items, order);
    assert |HeldBy(db.assignments, i)| >= 1;
    var k :| k in HeldBy(db.assignments, i);
    assert k in HeldFor(db.assignments, db.items, order);
    assert FullyReserved(db.keys, db.items, db.assignments, order);
  }

  /** At most one payment of an order is active, and it is the one the order names. */
  lemma ActiveIsAttempt(orders: map<OrderId, Order>, payments: map<PaymentId, Payment>, order: OrderId)
    requires Authority(orders, payments) && order in orders
    ensures ActivePayments(payments, order) == if orders[order].attempt.Some? then {orders[order].attempt.value} else {}
  {
  }
}
