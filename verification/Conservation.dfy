/** No overselling: keys in each state are accounted for by orders and by supply. */
module Conservation {
  import opened Foundations
  import opened Schema
  import opened Allocation
  import opened Payments
  import opened Invariants
  import opened Effects
  import opened Carts
  import opened Webhooks
  import opened Runs
  import opened Safety

  // ---------------------------------------------------------------- keys against orders

  /** Whether an order's items count: those of paid orders, or those of unpaid orders with an attempt. */
  predicate Counts(order: Order, paid: bool) {
    if paid then order.status.Paid? else !order.status.Paid? && order.attempt.Some?
  }

  /** Units of a product on the counted orders' items with ids below `n`. */
  function Units(items: map<ItemId, OrderItem>, orders: map<OrderId, Order>, product: ProductId, paid: bool, n: nat): nat {
    if n == 0 then 0
    else
      Units(items, orders, product, paid, n - 1)
      + if n - 1 in items && items[n - 1].product == product && items[n - 1].order in orders
           && Counts(orders[items[n - 1].order], paid)
        then items[n - 1].quantity else 0
  }

  ghost function KeysAssigned(
    assignments: map<KeyId, ItemId>, items: map<ItemId, OrderItem>, orders: map<OrderId, Order>,
    product: ProductId, paid: bool, n: nat
  ): set<KeyId> {
    set k | k in assignments && assignments[k] < n && assignments[k] in items
            && items[assignments[k]].product == product && items[assignments[k]].order in orders
            && Counts(orders[items[assignments[k]].order], paid)
  }

  lemma OneMoreItem(
    assignments: map<KeyId, ItemId>, items: map<ItemId, OrderItem>, orders: map<OrderId, Order>,
    product: ProductId, paid: bool, i: ItemId)
    requires Holdings(assignments, items, orders)
    ensures |KeysAssigned(assignments, items, orders, product, paid, i + 1)|
         == |KeysAssigned(assignments, items, orders, product, paid, i)|
            + if i in items && items[i].product == product && items[i].order in orders && Counts(orders[items[i].order], paid)
              then items[i].quantity else 0
  {
    var below := KeysAssigned(assignments, items, orders, product, paid, i);
    if i in items && items[i].product == product && Counts(orders[items[i].order], paid) {
      assert KeysAssigned(assignments, items, orders, product, paid, i + 1) == below + HeldBy(assignments, i);
      assert below !! HeldBy(assignments, i);
    } else {
      assert KeysAssigned(assignments, items, orders, product, paid, i + 1) == below;
    }
  }

  lemma {:induction false} AssignedMatchesUnits(
    assignments: map<KeyId, ItemId>, items: map<ItemId, OrderItem>, orders: map<OrderId, Order>,
    product: ProductId, paid: bool, n: nat)
    requires Holdings(assignments, items, orders)
    ensures |KeysAssigned(assignments, items, orders, product, paid, n)| == Units(items, orders, product, paid, n)
  {
    if n > 0 {
      hide KeysAssigned, Holdings, Counts;
      AssignedMatchesUnits(assignments, items, orders, product, paid, n - 1);
      OneMoreItem(assignments, items, orders, product, paid, n - 1);
    } else {
      assert KeysAssigned(assignments, items, orders, product, paid, 0) == {};
    }
  }

  /** The rows of one product's keys. */
  function KeysOfProduct(keys: map<KeyId, LicenseKey>, product: ProductId): set<KeyId> {
    set k | k in keys && keys[k].product == product
  }

  lemma StatusesPartition(keys: map<KeyId, LicenseKey>, product: ProductId)
    ensures |KeysOf(keys, product, Available)| + |KeysOf(keys, product, Reserved)| + |KeysOf(keys, product, Sold)|
         == |KeysOfProduct(keys, product)|
  {
    var a, r, s := KeysOf(keys, product, Available), KeysOf(keys, product, Reserved), KeysOf(keys, product, Sold);
    forall k | k in KeysOfProduct(keys, product)
      ensures k in a + r + s
    {
      assert keys[k].status in {Available, Reserved, Sold};
    }
    assert KeysOfProduct(keys, product) == a + r + s;
    assert a !! r && (a + r) !! s;
  }

  /**
   * For every product, sold keys are exactly the units of paid orders, and reserved keys exactly
   * the units of unpaid orders with an attempt in charge.
   */
  lemma NoOverselling(db: Database, product: ProductId)
    requires Inv(db)
    ensures |KeysOf(db.keys, product, Sold)| == Units(db.items, db.orders, product, true, db.nextItem)
    ensures |KeysOf(db.keys, product, Reserved)| == Units(db.items, db.orders, product, false, db.nextItem)
    ensures |KeysOf(db.keys, product, Available)| + |KeysOf(db.keys, product, Reserved)| + |KeysOf(db.keys, product, Sold)|
         == |KeysOfProduct(db.keys, product)|
  {
    AssignedMatchesUnits(db.assignments, db.items, db.orders, product, true, db.nextItem);
    AssignedMatchesUnits(db.assignments, db.items, db.orders, product, false, db.nextItem);
    AssignedKeys(db, product);
    StatusesPartition(db.keys, product);
  }

  lemma AssignedKeys(db: Database, product: ProductId)
    requires Sequences(db) && KeyStates(db.keys, db.assignments, db.items, db.orders)
    requires Holdings(db.assignments, db.items, db.orders)
    ensures KeysOf(db.keys, product, Sold) == KeysAssigned(db.assignments, db.items, db.orders, product, true, db.nextItem)
    ensures KeysOf(db.keys, product, Reserved) == KeysAssigned(db.assignments, db.items, db.orders, product, false, db.nextItem)
  {
    forall k | k in KeysOf(db.keys, product, Reserved)
      ensures k in KeysAssigned(db.assignments, db.items, db.orders, product, false, db.nextItem)
    {
      assert k in HeldBy(db.assignments, db.assignments[k]);
    }
  }

  // ---------------------------------------------------------------- keys against supply

  /** The same key rows of the same products; only statuses may differ. */
  ghost predicate SameStock(before: map<KeyId, LicenseKey>, after: map<KeyId, LicenseKey>) {
    before.Keys == after.Keys && forall k <- before :: after[k].product == before[k].product
  }

  lemma SetStatusKeepsStock(keys: map<KeyId, LicenseKey>, chosen: set<KeyId>, status: KeyStatus)
    ensures SameStock(keys, SetStatus(keys, chosen, status))
  {
  }

  /** The key table keeps its rows, and the key sequence its position. */
  ghost predicate KeepsKeys(before: Database, after: Database) {
    SameStock(before.keys, after.keys) && after.nextKey == before.nextKey
  }

  lemma FailKeepsKeys(db: Database, payment: PaymentId)
    requires payment in db.payments && db.payments[payment].order in db.orders
    ensures Fail(db, payment).Ok? ==> KeepsKeys(db, Fail(db, payment).value)
  {
    hide SetStatus, LockedReservation;
    var held := LockedReservation(db.keys, db.items, db.assignments, db.payments[payment].order);
    if held.Ok? {
      SetStatusKeepsStock(db.keys, held.value, Available);
    }
  }

  lemma FulfilKeepsKeys(db: Database, order: OrderId, requireReservation: bool)
    ensures Fulfil(db, order, requireReservation).Ok? ==> KeepsKeys(db, Fulfil(db, order, requireReservation).value.db)
  {
    hide SetStatus, LockedReservation, HeldFor, Claims, EnoughStock, SameStock;
    SetStatusKeepsStock(db.keys, Claims(db.keys, db.items, order, SalePool(db.keys)).Keys, Sold);
    var held := LockedReservation(db.keys, db.items, db.assignments, order);
    if held.Ok? {
      SetStatusKeepsStock(db.keys, held.value, Sold);
    }
  }

  lemma ConcludeKeepsKeys(db: Database, order: OrderId, payment: PaymentId, price: Money)
    requires order in db.orders && payment in db.payments
    ensures Conclude(db, order, payment, price).Ok? ==> KeepsKeys(db, Conclude(db, order, payment, price).value.db)
  {
    hide Fulfil, EnsureItems, SameStock, KeyTaken;
    var ready := EnsureItems(db, order, price);
    if ready.Ok? {
      FulfilKeepsKeys(ready.value, order, db.orders[order].attempt.Some?);
    }
  }

  lemma CompleteKeepsKeys(db: Database, payment: PaymentId)
    ensures Complete(db, payment).Ok? ==> KeepsKeys(db, Complete(db, payment).value.db)
  {
    hide Conclude;
    if Complete(db, payment).Ok? && !db.orders[db.payments[payment].order].status.Paid? {
      ConcludeKeepsKeys(db, db.payments[payment].order, payment, db.payments[payment].amount);
    }
  }

  lemma OpenKeepsKeys(db: Database, order: OrderId, given: Option<ProviderName>, settings: Settings, schedule: Schedule)
    requires Inv(db)
    ensures var create := OpenCreate(db, order, given, settings, schedule);
            create.Ok? ==> KeepsKeys(db, create.value.db)
    ensures var pay := OpenPay(db, order, given, settings, schedule);
            pay.Ok? ==> KeepsKeys(db, pay.value.db)
  {
    OpenCreateEffect(db, order, given, settings, schedule);
    OpenPayEffect(db, order, given, settings, schedule);
    CasesKeepKeys(db, order, given, settings, schedule);
    hide KeyStates, Holdings, Outcomes, Valued, Agreement, NonEmptyOrders, DirectItems, Delivered, Notified, UniqueProducts, Authority,
         PositiveQuantities, UniqueTransactions, CartRows, Sequences, OpenCreate, OpenPay, CreateCase, PayCase, KeepsKeys;
  }

  lemma CasesKeepKeys(db: Database, order: OrderId, given: Option<ProviderName>, settings: Settings, schedule: Schedule)
    requires Authority(db.orders, db.payments)
    ensures var create := CreateCase(db, order, given, settings, schedule);
            create.Ok? ==> KeepsKeys(db, create.value.db)
    ensures var pay := PayCase(db, order, given, settings, schedule);
            pay.Ok? ==> KeepsKeys(db, pay.value.db)
  {
    hide Claims, EnoughStock, Authority;
  }

  lemma CompensateKeepsKeys(db: Database, payment: PaymentId, createdItem: Option<ItemId>)
    ensures Compensate(db, payment, createdItem).Ok? ==> KeepsKeys(db, Compensate(db, payment, createdItem).value)
  {
    hide Fail, SameStock;
    if payment in db.payments && db.payments[payment].order in db.orders {
      FailKeepsKeys(db, payment);
    }
  }

  lemma FinishKeepsKeys(db: Database, payment: PaymentId, verdict: Verdict)
    ensures FinishPay(db, payment, verdict).Ok? ==> KeepsKeys(db, FinishPay(db, payment, verdict).value)
  {
    hide Fail, Complete;
    CompleteKeepsKeys(db, payment);
    if payment in db.payments && db.payments[payment].order in db.orders {
      FailKeepsKeys(db, payment);
    }
  }

  lemma ProcessKeepsKeys(db: Database, event: Event)
    ensures Process(db, event).Ok? ==> KeepsKeys(db, Process(db, event).value)
  {
    hide Fail, Complete, ReferredPayment;
    if event.session.Some? {
      var referred := ReferredPayment(Record(db, event), event.session.value);
      if referred.Ok? {
        ReferredExists(Record(db, event), event.session.value);
        CompleteKeepsKeys(Record(db, event), referred.value);
        FailKeepsKeys(Record(db, event), referred.value);
      }
    }
  }

  /** The change a step makes to the number of a product's keys. */
  function SupplyChange(w: World, step: Step, product: ProductId): int {
    match step
    case SupplyKey(p) => if p == product then 1 else 0
    case WithdrawKey(k) => if Withdrawable(w.db, k) && w.db.keys[k].product == product then -1 else 0
    case _ => 0
  }

  /** Keys of a product supplied minus keys withdrawn over a run. */
  function NetSupply(w: World, steps: seq<Step>, product: ProductId): int {
    if steps == [] then 0
    else
      NetSupply(w, steps[..|steps| - 1], product)
      + SupplyChange(Run(w, steps[..|steps| - 1]), steps[|steps| - 1], product)
  }

  /** Only supplying and withdrawing change which keys there are. */
  lemma TransactKeepsKeys(w: World, step: Step)
    requires Sound(w) && !step.SupplyKey? && !step.WithdrawKey?
    ensures Transact(w, step).Ok? ==> KeepsKeys(w.db, Transact(w, step).value)
  {
    var db := w.db;
    hide Inv, OpenCreate, OpenPay, Compensate, FinishPay, Process, Snapshot, CartTotal, RowsOf;
    match step
    case StartCreate(_, order, given, settings, schedule) => OpenKeepsKeys(db, order, given, settings, schedule);
    case StartPay(_, order, given, settings, schedule) => OpenKeepsKeys(db, order, given, settings, schedule);
    case UndoOpening(id) =>
      if id in w.phases && w.phases[id].Undoing? {
        CompensateKeepsKeys(db, w.phases[id].payment, w.phases[id].createdItem);
      }
    case FinishPayment(id) =>
      if id in w.phases && w.phases[id].Finishing? {
        FinishKeepsKeys(db, w.phases[id].payment, Answer(w.phases[id].accepted));
      }
    case Deliver(event) => ProcessKeepsKeys(db, event);
    case _ =>
  }

  lemma StockCount(keys: map<KeyId, LicenseKey>, after: map<KeyId, LicenseKey>, product: ProductId)
    requires SameStock(keys, after)
    ensures |KeysOfProduct(after, product)| == |KeysOfProduct(keys, product)|
  {
    assert KeysOfProduct(after, product) == KeysOfProduct(keys, product);
  }

  lemma SupplyStock(db: Database, supplied: ProductId, product: ProductId)
    requires db.nextKey !in db.keys
    ensures |KeysOfProduct(Supply(db, supplied).keys, product)|
         == |KeysOfProduct(db.keys, product)| + if supplied == product then 1 else 0
  {
    assert KeysOfProduct(Supply(db, supplied).keys, product)
        == KeysOfProduct(db.keys, product) + if supplied == product then {db.nextKey} else {};
  }

  lemma WithdrawStock(keys: map<KeyId, LicenseKey>, key: KeyId, product: ProductId)
    requires key in keys
    ensures |KeysOfProduct(keys - {key}, product)|
         == |KeysOfProduct(keys, product)| - if keys[key].product == product then 1 else 0
  {
    assert KeysOfProduct(keys - {key}, product) == KeysOfProduct(keys, product) - {key};
  }

  lemma NextStock(w: World, step: Step, product: ProductId)
    requires Sound(w)
    ensures |KeysOfProduct(Next(w, step).db.keys, product)| == |KeysOfProduct(w.db.keys, product)| + SupplyChange(w, step, product)
  {
    if step.SupplyKey? {
      assert w.db.nextKey !in w.db.keys;
      hide Inv, Phases, Calls, KeysOfProduct;
      SupplyStock(w.db, step.product, product);
    } else if step.WithdrawKey? {
      hide Inv, Phases, Calls, KeysOfProduct, Withdrawable;
      if Withdrawable(w.db, step.key) {
        WithdrawableExists(w.db, step.key);
        WithdrawStock(w.db.keys, step.key, product);
      }
    } else {
      hide Transact, Inv, Phases, Calls, KeysOfProduct;
      TransactKeepsKeys(w, step);
      if Transact(w, step).Ok? {
        StockCount(w.db.keys, Transact(w, step).value.keys, product);
      }
    }
  }

  lemma WithdrawableExists(db: Database, key: KeyId)
    requires Withdrawable(db, key)
    ensures key in db.keys
  {
  }

  lemma {:induction false} StockMatchesSupply(w: World, steps: seq<Step>, product: ProductId)
    requires Sound(w)
    ensures |KeysOfProduct(Run(w, steps).db.keys, product)| == |KeysOfProduct(w.db.keys, product)| + NetSupply(w, steps, product)
  {
    if steps != [] {
      StockMatchesSupply(w, steps[..|steps| - 1], product);
      RunIsSound(w, steps[..|steps| - 1]);
      NextStock(Run(w, steps[..|steps| - 1]), steps[|steps| - 1], product);
    }
  }

  /** The conservation law of the shop, for every run and product. */
  lemma KeysAreConserved(steps: seq<Step>, product: ProductId)
    ensures var db := Run(START, steps).db;
            && |KeysOf(db.keys, product, Sold)| == Units(db.items, db.orders, product, true, db.nextItem)
            && |KeysOf(db.keys, product, Reserved)| == Units(db.items, db.orders, product, false, db.nextItem)
            && |KeysOf(db.keys, product, Available)| + |KeysOf(db.keys, product, Reserved)| + |KeysOf(db.keys, product, Sold)|
            == NetSupply(START, steps, product)
  {
    hide Sound;
    ReachableStatesAreSound(steps);
    ReachableStatesAreSound([]);
    StockMatchesSupply(START, steps, product);
    SoundMeansInv(Run(START, steps));
    NoOverselling(Run(START, steps).db, product);
    assert KeysOfProduct(START.db.keys, product) == {};
  }

  lemma SoundMeansInv(w: World)
    requires Sound(w)
    ensures Inv(w.db)
  {
  }
}
