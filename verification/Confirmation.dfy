/** The confirmation email: which orders may get one, with which keys. */
module Confirmation {
  import opened Foundations
  import opened Schema
  import opened Invariants
  import opened History
  import opened Runs
  import opened Safety

  /** Units ordered on an order's items with ids below `n`. */
  function OrderUnits(items: map<ItemId, OrderItem>, order: OrderId, n: nat): nat {
    if n == 0 then 0
    else
      OrderUnits(items, order, n - 1)
      + if n - 1 in items && items[n - 1].order == order then items[n - 1].quantity else 0
  }

  /** `has_complete_fulfilment`. */
  predicate CompletelyFulfilled(db: Database, order: OrderId)
    requires order in db.orders
  {
    var held := HeldFor(db.assignments, db.items, order);
    var row := db.orders[order];
    if held != {} then
      && |held| == OrderUnits(db.items, order, db.nextItem)
      && forall k <- held :: k in db.keys && db.keys[k].status.Sold?
    else
      row.source.Direct? && row.licenseKey.Some? && row.licenseKey.value in db.keys
      && db.keys[row.licenseKey.value].status.Sold?
  }

  /** The `is_eligible` test of `send_order_confirmation_email`. */
  predicate Eligible(db: Database, order: OrderId) {
    && order in db.orders
    && db.orders[order].status.Paid?
    && db.orders[order].pricePaid.Some?
    && PaidPayments(db.payments, order) != {}
    && CompletelyFulfilled(db, order)
  }

  /** `assigned_license_key_values`, as the set of keys whose values are listed. */
  function MailedKeys(db: Database, order: OrderId): set<KeyId>
    requires order in db.orders
  {
    var held := HeldFor(db.assignments, db.items, order);
    if held != {} then held
    else if db.orders[order].licenseKey.Some? then {db.orders[order].licenseKey.value}
    else {}
  }

  ghost function HeldBelow(assignments: map<KeyId, ItemId>, items: map<ItemId, OrderItem>, order: OrderId, n: nat): set<KeyId> {
    set k | k in assignments && assignments[k] < n && assignments[k] in items && items[assignments[k]].order == order
  }

  lemma OneMoreHeld(assignments: map<KeyId, ItemId>, items: map<ItemId, OrderItem>, order: OrderId, i: ItemId)
    ensures HeldBelow(assignments, items, order, i) !! HeldBy(assignments, i)
    ensures HeldBelow(assignments, items, order, i + 1)
         == HeldBelow(assignments, items, order, i) + if i in items && items[i].order == order then HeldBy(assignments, i) else {}
  {
  }

  lemma {:induction false} HeldMatchesUnits(
    assignments: map<KeyId, ItemId>, items: map<ItemId, OrderItem>, orders: map<OrderId, Order>, order: OrderId, n: nat)
    requires Holdings(assignments, items, orders) && order in orders && orders[order].HoldsKeys()
    ensures |HeldBelow(assignments, items, order, n)| == OrderUnits(items, order, n)
  {
    if n > 0 {
      HeldMatchesUnits(assignments, items, orders, order, n - 1);
      hide HeldBelow, HeldBy;
      OneMoreHeld(assignments, items, order, n - 1);
    } else {
      assert HeldBelow(assignments, items, order, 0) == {};
    }
  }

  /** A paid order holds one sold key of the right product for every unit, and the email lists exactly those keys. */
  lemma PaidOrderIsFulfilled(db: Database, order: OrderId)
    requires Inv(db) && order in db.orders && db.orders[order].status.Paid?
    ensures CompletelyFulfilled(db, order)
    ensures MailedKeys(db, order) == HeldFor(db.assignments, db.items, order)
    ensures |MailedKeys(db, order)| == OrderUnits(db.items, order, db.nextItem)
  {
    hide Authority, Outcomes, Valued, Agreement, NonEmptyOrders, DirectItems, Delivered, Notified, UniqueProducts, UniqueTransactions, CartRows,
         OrderUnits;
    assert HeldFor(db.assignments, db.items, order) == HeldBelow(db.assignments, db.items, order, db.nextItem);
    HeldMatchesUnits(db.assignments, db.items, db.orders, order, db.nextItem);
    OrderHasItems(db.orders, db.items, order);
    var i :| i in ItemsOf(db.items, order);
    SomeKeyIsHeld(db.assignments, db.items, db.orders, order, i);
  }

  lemma SomeKeyIsHeld(
    assignments: map<KeyId, ItemId>, items: map<ItemId, OrderItem>, orders: map<OrderId, Order>, order: OrderId, i: ItemId)
    requires Holdings(assignments, items, orders) && PositiveQuantities(items)
    requires i in ItemsOf(items, order) && order in orders && orders[order].HoldsKeys()
    ensures HeldFor(assignments, items, order) != {}
  {
    assert |HeldBy(assignments, i)| >= 1;
    var k :| k in HeldBy(assignments, i);
    assert k in HeldFor(assignments, items, order);
  }

  /**
   * Whatever the tables, the email's test: a paid order with a price and a paid payment, whose assigned
   * keys are all sold and as many as its units, or, with none assigned, a direct order with a sold key.
   */
  lemma EligibilityIsExact(db: Database, order: OrderId)
    ensures Eligible(db, order) <==>
              && order in db.orders && db.orders[order].status.Paid? && db.orders[order].pricePaid.Some?
              && (exists p <- db.payments :: db.payments[p].order == order && db.payments[p].status.Paid?)
              && var held := HeldFor(db.assignments, db.items, order);
                 var key := db.orders[order].licenseKey;
                 if held == {} then
                   db.orders[order].source.Direct? && key.Some? && key.value in db.keys && db.keys[key.value].status == Sold
                 else |held| == OrderUnits(db.items, order, db.nextItem) && forall k <- held :: k in db.keys && db.keys[k].status == Sold
    ensures order in db.orders ==>
              forall k :: k in MailedKeys(db, order) <==>
                if HeldFor(db.assignments, db.items, order) != {} then k in HeldFor(db.assignments, db.items, order)
                else db.orders[order].licenseKey == Some(k)
  {
    hide OrderUnits, HeldFor;
    assert PaidPayments(db.payments, order) != {} <==>
             exists p <- db.payments :: db.payments[p].order == order && db.payments[p].status.Paid? by {
      if p :| p in db.payments && db.payments[p].order == order && db.payments[p].status.Paid? {
        assert p in PaidPayments(db.payments, order);
      }
    }
  }

  /** In every reachable state: paid, eligible for the email, and one email queued are the same thing. */
  lemma EmailAgreesWithPayment(db: Database, order: OrderId)
    requires Inv(db) && order in db.orders
    ensures Eligible(db, order) <==> db.orders[order].status.Paid?
    ensures db.emails[order] == if Eligible(db, order) then 1 else 0
  {
    if db.orders[order].status.Paid? {
      PaidOrderIsFulfilled(db, order);
      assert |PaidPayments(db.payments, order)| == 1;
    }
    hide KeyStates, Holdings, Authority, Valued, NonEmptyOrders, DirectItems, Delivered, UniqueProducts, PositiveQuantities, UniqueTransactions,
         CartRows, Sequences, CompletelyFulfilled;
  }

  /** Once eligible, always eligible, with the same keys and no second email, whatever happens later. */
  lemma FulfilmentIsForever(w: World, steps: seq<Step>, order: OrderId)
    requires Sound(w) && Eligible(w.db, order)
    ensures var later := Run(w, steps).db;
            && Eligible(later, order)
            && later.orders[order] == w.db.orders[order]
            && MailedKeys(later, order) == MailedKeys(w.db, order)
            && later.emails[order] == 1
  {
    var later := Run(w, steps).db;
    RunIsSound(w, steps);
    hide Eligible, MailedKeys, Inv, Run;
    EmailAgreesWithPayment(w.db, order);
    EmailAgreesWithPayment(later, order);
    SameMailedKeys(w.db, later, order);
  }

  lemma SameMailedKeys(before: Database, after: Database, order: OrderId)
    requires Inv(before) && Inv(after) && Later(before, after)
    requires order in before.orders && before.orders[order].status.Paid?
    ensures order in after.orders && MailedKeys(after, order) == MailedKeys(before, order)
  {
    assert order in after.orders && after.orders[order] == before.orders[order];
    KeysStay(before, after, order);
    UnitsStay(before.items, after.items, before.orders, order, before.nextItem, after.nextItem);
    MailedStay(before, after, order);
  }

  lemma KeysStay(before: Database, after: Database, order: OrderId)
    requires DeliveriesPersist(before, after) && ItemsPersist(before.orders, before.items, after.items)
    requires order in before.orders && before.orders[order].status.Paid?
    ensures HeldFor(before.assignments, before.items, order) <= HeldFor(after.assignments, after.items, order)
  {
    forall k | k in HeldFor(before.assignments, before.items, order)
      ensures k in HeldFor(after.assignments, after.items, order)
    {
      assert IsSold(before, k);
    }
  }

  /** Items keep their ids, so an order's units do not depend on how many other items follow. */
  lemma UnitsStay(
    before: map<ItemId, OrderItem>, after: map<ItemId, OrderItem>, orders: map<OrderId, Order>, order: OrderId, m: nat, n: nat)
    requires ItemsPersist(orders, before, after) && order in orders
    requires (forall i <- before :: i < m) && (forall i <- after :: i < n)
    ensures OrderUnits(before, order, m) == OrderUnits(after, order, n)
  {
    var top := if m <= n then n else m;
    UnitsBeyond(before, order, m, top);
    UnitsBeyond(after, order, n, top);
    assert forall i <- after | after[i].order == order :: i in ItemsOf(before, order);
    hide ItemsPersist;
    UnitsAgree(before, after, order, top);
  }

  lemma {:induction false} UnitsBeyond(items: map<ItemId, OrderItem>, order: OrderId, m: nat, n: nat)
    requires m <= n && forall i <- items :: i < m
    ensures OrderUnits(items, order, m) == OrderUnits(items, order, n)
  {
    if m < n {
      UnitsBeyond(items, order, m, n - 1);
    }
  }

  lemma {:induction false} UnitsAgree(before: map<ItemId, OrderItem>, after: map<ItemId, OrderItem>, order: OrderId, n: nat)
    requires forall i <- before :: i in after && after[i] == before[i]
    requires forall i <- after | after[i].order == order :: i in before
    ensures OrderUnits(before, order, n) == OrderUnits(after, order, n)
  {
    if n > 0 {
      UnitsAgree(before, after, order, n - 1);
    }
  }

  lemma MailedStay(before: Database, after: Database, order: OrderId)
    requires Inv(before) && Inv(after) && order in before.orders && before.orders[order].status.Paid?
    requires order in after.orders && after.orders[order] == before.orders[order]
    requires HeldFor(before.assignments, before.items, order) <= HeldFor(after.assignments, after.items, order)
    requires OrderUnits(before.items, order, before.nextItem) == OrderUnits(after.items, order, after.nextItem)
    ensures MailedKeys(after, order) == MailedKeys(before, order)
  {
    hide Inv, MailedKeys, OrderUnits;
    PaidOrderIsFulfilled(before, order);
    PaidOrderIsFulfilled(after, order);
    SubsetEqual(HeldFor(before.assignments, before.items, order), HeldFor(after.assignments, after.items, order));
  }
}
