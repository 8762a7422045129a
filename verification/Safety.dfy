/** The invariant holds in every reachable state, and history is never undone. */
module Safety {
  import opened Foundations
  import opened Schema
  import opened Allocation
  import opened Payments
  import opened Invariants
  import opened Effects
  import opened Carts
  import opened References
  import opened Webhooks
  import opened History
  import opened Runs

  /** A transaction that commits keeps the invariant and undoes nothing. */
  ghost predicate Kept(db: Database, result: Result<Database, Error>) {
    result.Ok? ==> Inv(result.value) && Later(db, result.value)
  }

  // ---------------------------------------------------------------- environment and shop transactions

  lemma UnchangedIsKept(db: Database)
    requires Inv(db)
    ensures Kept(db, Ok(db))
  {
    LaterIsReflexive(db);
  }

  /** Unassigned available keys may come and go. */
  lemma KeyTableIsKept(db: Database, keys: map<KeyId, LicenseKey>, nextKey: KeyId)
    requires Inv(db) && KeyStates(keys, db.assignments, db.items, db.orders) && (forall k <- keys :: k < nextKey)
    requires forall k <- db.assignments | k in db.keys :: k in keys && keys[k] == db.keys[k]
    ensures Kept(db, Ok(db.(keys := keys, nextKey := nextKey)))
  {
    hide KeyStates, Holdings, Authority, Outcomes, Valued, Agreement, NonEmptyOrders, DirectItems, Delivered, Notified, UniqueProducts,
         PositiveQuantities, UniqueTransactions, CartRows, Later;
    AsideIsLater(db, db.(keys := keys, nextKey := nextKey));
  }

  lemma SupplyIsKept(db: Database, product: ProductId)
    requires Inv(db)
    ensures Kept(db, Ok(Supply(db, product)))
  {
    hide KeyStates, Holdings, Authority, Outcomes, Valued, Agreement, NonEmptyOrders, DirectItems, Delivered, Notified, UniqueProducts,
         PositiveQuantities, UniqueTransactions, CartRows, Sequences, Kept;
    var keys := db.keys[db.nextKey := LicenseKey(product, Available)];
    NextKeyIsFree(db);
    NewKeyStates(db.keys, db.assignments, db.items, db.orders, db.nextKey, product);
    KeyTableIsKept(db, keys, db.nextKey + 1);
  }

  lemma NextKeyIsFree(db: Database)
    requires Sequences(db)
    ensures db.nextKey !in db.keys && forall k <- db.keys :: k < db.nextKey
  {
  }

  lemma NewKeyStates(
    keys: map<KeyId, LicenseKey>, assignments: map<KeyId, ItemId>, items: map<ItemId, OrderItem>, orders: map<OrderId, Order>,
    key: KeyId, product: ProductId)
    requires KeyStates(keys, assignments, items, orders) && key !in keys
    ensures KeyStates(keys[key := LicenseKey(product, Available)], assignments, items, orders)
    ensures key !in assignments
  {
  }

  lemma FewerKeyStates(
    keys: map<KeyId, LicenseKey>, assignments: map<KeyId, ItemId>, items: map<ItemId, OrderItem>, orders: map<OrderId, Order>,
    key: KeyId)
    requires KeyStates(keys, assignments, items, orders) && key !in assignments
    ensures KeyStates(keys - {key}, assignments, items, orders)
  {
  }

  lemma WithdrawIsKept(db: Database, key: KeyId)
    requires Inv(db)
    ensures Kept(db, Withdraw(db, key))
  {
    if Withdrawable(db, key) {
      var keys := db.keys - {key};
      FewerKeyStates(db.keys, db.assignments, db.items, db.orders, key);
      assert forall k <- keys :: k < db.nextKey;
      hide KeyStates, Inv, Kept;
      KeyTableIsKept(db, keys, db.nextKey);
    }
  }

  lemma PublishIsKept(db: Database, catalogue: map<ProductId, Product>)
    requires Inv(db)
    ensures Kept(db, Ok(db.(catalogue := catalogue)))
  {
    hide KeyStates, Holdings, Authority, Outcomes, Valued, Agreement, NonEmptyOrders, DirectItems, Delivered, Notified, UniqueProducts,
         PositiveQuantities, UniqueTransactions, CartRows, Later;
    AsideIsLater(db, db.(catalogue := catalogue));
  }

  lemma CartIsKept(db: Database, after: Database)
    requires Inv(db) && Inv(after) && after == db.(cart := after.cart, nextRow := after.nextRow)
    ensures Kept(db, Ok(after))
  {
    hide KeyStates, Holdings, Authority, Outcomes, Valued, Agreement, NonEmptyOrders, DirectItems, Delivered, Notified, UniqueProducts,
         PositiveQuantities, UniqueTransactions, CartRows, Later;
    AsideIsLater(db, after);
  }

  lemma CartStepIsKept(w: World, step: Step)
    requires Inv(w.db)
    requires step.AddToCart? || step.ChangeQuantity? || step.RemoveFromCart? || step.EmptyTheCart?
    ensures Kept(w.db, Transact(w, step))
  {
    hide Inv, Later;
    if Transact(w, step).Ok? {
      match step {
        case AddToCart(user, product, quantity) => AddItemKeepsInv(w.db, user, product, quantity);
        case ChangeQuantity(user, row, quantity) => SetQuantityKeepsInv(w.db, user, row, quantity);
        case RemoveFromCart(user, row) => RemoveItemKeepsInv(w.db, user, row);
        case EmptyTheCart(user) => ClearCartKeepsInv(w.db, user);
      }
      CartIsKept(w.db, Transact(w, step).value);
    }
  }

  lemma CheckoutIsKept(db: Database, user: UserId)
    requires Inv(db)
    ensures Kept(db, Checkout(db, user))
  {
    hide Inv, Later, Checkout;
    if Checkout(db, user).Ok? {
      CheckoutKeepsInv(db, user);
      CheckoutIsLater(db, user);
    }
  }

  lemma DirectOrderIsKept(db: Database, product: ProductId)
    requires Inv(db)
    ensures Kept(db, DirectOrder(db, product))
  {
    hide Inv, Later;
    if product in db.catalogue {
      DirectOrderKeepsInv(db, product);
      DirectOrderIsLater(db, product);
    }
  }

  lemma ProcessIsKept(db: Database, event: Event)
    requires Inv(db)
    ensures Kept(db, Process(db, event))
  {
    hide Inv, Later, Process;
    if Process(db, event).Ok? {
      ProcessKeepsInv(db, event);
      ProcessIsLater(db, event);
    }
  }

  // ---------------------------------------------------------------- driver transactions

  lemma StoreIsKept(db: Database, payment: PaymentId, provider: ProviderName, reference: string)
    requires Inv(db)
    ensures Kept(db, StoreReference(db, payment, provider, reference))
  {
    hide Inv, Later, StoreReference;
    StoreReferenceKeepsInv(db, payment, provider, reference);
    StoreReferenceIsLater(db, payment, provider, reference);
  }

  lemma CompensateIsKept(db: Database, payment: PaymentId)
    requires Inv(db) && payment in db.payments
    ensures Kept(db, Compensate(db, payment, None))
  {
    hide Inv, Later, Fail;
    FailEffect(db, payment);
    FailIsLater(db, payment);
  }

  lemma FinishIsKept(db: Database, payment: PaymentId, accepted: bool)
    requires Inv(db) && payment in db.payments
    ensures Kept(db, FinishPay(db, payment, Answer(accepted)))
  {
    hide Inv, Later, Fail, Complete;
    FailEffect(db, payment);
    FailIsLater(db, payment);
    CompleteEffect(db, payment);
    CompleteIsLater(db, payment);
  }

  lemma OpenCreateIsKept(db: Database, order: OrderId, given: Option<ProviderName>, settings: Settings, schedule: Schedule)
    requires Inv(db) && OpenCreate(db, order, given, settings, schedule).Ok?
    ensures Kept(db, Ok(OpenCreate(db, order, given, settings, schedule).value.db))
  {
    hide Inv, Later, OpenCreate;
    OpenCreateEffect(db, order, given, settings, schedule);
    OpenCreateIsLater(db, order, given, settings, schedule);
  }

  lemma OpenPayIsKept(db: Database, order: OrderId, given: Option<ProviderName>, settings: Settings, schedule: Schedule)
    requires Inv(db) && OpenPay(db, order, given, settings, schedule).Ok?
    ensures Kept(db, Ok(OpenPay(db, order, given, settings, schedule).value.db))
  {
    hide Inv, Later, OpenPay;
    OpenPayEffect(db, order, given, settings, schedule);
    OpenPayIsLater(db, order, given, settings, schedule);
  }

  // ---------------------------------------------------------------- one step

  lemma TransactIsKept(w: World, step: Step)
    requires Sound(w)
    ensures Kept(w.db, Transact(w, step))
  {
    var db := w.db;
    hide Inv, Later, Kept, OpenCreate, OpenPay, StoreReference, Compensate, FinishPay, Process, Checkout, DirectOrder, Withdraw,
         Supply, AddItem, SetQuantity, RemoveItem, ClearCart;
    UnchangedIsKept(db);
    match step
    case SupplyKey(product) => SupplyIsKept(db, product);
    case WithdrawKey(key) => WithdrawIsKept(db, key);
    case PublishProduct(product, details) => PublishIsKept(db, db.catalogue[product := details]);
    case AddToCart(_, _, _) => CartStepIsKept(w, step);
    case ChangeQuantity(_, _, _) => CartStepIsKept(w, step);
    case RemoveFromCart(_, _) => CartStepIsKept(w, step);
    case EmptyTheCart(_) => CartStepIsKept(w, step);
    case CheckOut(user) => CheckoutIsKept(db, user);
    case BuyDirectly(product) => DirectOrderIsKept(db, product);
    case StartCreate(_, order, given, settings, schedule) =>
      if OpenCreate(db, order, given, settings, schedule).Ok? {
        OpenCreateIsKept(db, order, given, settings, schedule);
      } else {
        FailureIsKept(db, OpenCreate(db, order, given, settings, schedule).error);
      }
    case StartPay(_, order, given, settings, schedule) =>
      if OpenPay(db, order, given, settings, schedule).Ok? {
        OpenPayIsKept(db, order, given, settings, schedule);
      } else {
        FailureIsKept(db, OpenPay(db, order, given, settings, schedule).error);
      }
    case StoreReply(id) =>
      if id in w.phases && w.phases[id].Storing? {
        StoreIsKept(db, w.phases[id].payment, w.phases[id].provider, w.phases[id].reference);
      }
    case UndoOpening(id) =>
      if id in w.phases && w.phases[id].Undoing? {
        assert PhaseSound(db, w.phases[id]);
        CompensateIsKept(db, w.phases[id].payment);
      }
    case FinishPayment(id) =>
      if id in w.phases && w.phases[id].Finishing? {
        assert PhaseSound(db, w.phases[id]);
        FinishIsKept(db, w.phases[id].payment, w.phases[id].accepted);
      }
    case Deliver(event) => ProcessIsKept(db, event);
    case _ =>
  }

  lemma FailureIsKept(db: Database, error: Error)
    ensures Kept(db, Err(error))
  {
  }

  lemma PhasesAreSound(w: World, step: Step)
    requires Sound(w) && PaymentsPersist(w.db.payments, Next(w, step).db.payments)
    ensures forall id <- Phases(w, step) :: PhaseSound(Next(w, step).db, Phases(w, step)[id])
  {
    hide Inv, OpenCreate, OpenPay, StoreReference, Compensate, FinishPay, Process, Checkout, DirectOrder, Withdraw,
         Supply, AddItem, SetQuantity, RemoveItem, ClearCart;
    match step
    case StartCreate(id, order, given, settings, schedule) =>
      OpeningsAreSound(w.db, order, given, settings, schedule);
    case StartPay(id, order, given, settings, schedule) =>
      OpeningsAreSound(w.db, order, given, settings, schedule);
    case _ =>
  }

  /** An opening names a stored payment by its stored amount, and from a clean start it adds no item. */
  lemma OpeningsAreSound(db: Database, order: OrderId, given: Option<ProviderName>, settings: Settings, schedule: Schedule)
    requires Inv(db)
    ensures OpeningSound(OpenCreate(db, order, given, settings, schedule))
    ensures OpeningSound(OpenPay(db, order, given, settings, schedule))
  {
    OpenCreateEffect(db, order, given, settings, schedule);
    OpenPayEffect(db, order, given, settings, schedule);
    CasesAreSound(db, order, given, settings, schedule);
    hide KeyStates, Holdings, Outcomes, Valued, Agreement, NonEmptyOrders, DirectItems, Delivered, Notified, UniqueProducts, Authority,
         PositiveQuantities, UniqueTransactions, CartRows, Sequences, OpenCreate, OpenPay, CreateCase, PayCase, OpeningSound;
  }

  lemma CasesAreSound(db: Database, order: OrderId, given: Option<ProviderName>, settings: Settings, schedule: Schedule)
    requires Authority(db.orders, db.payments)
    ensures OpeningSound(CreateCase(db, order, given, settings, schedule))
    ensures OpeningSound(PayCase(db, order, given, settings, schedule))
  {
    hide Claims, EnoughStock;
  }

  ghost predicate OpeningSound(result: Result<Opening, Error>) {
    result.Ok? ==>
      && result.value.payment in result.value.db.payments
      && result.value.amount == result.value.db.payments[result.value.payment].amount
      && result.value.createdItem == None
  }

  lemma NextIsSound(w: World, step: Step)
    requires Sound(w)
    ensures Sound(Next(w, step)) && Later(w.db, Next(w, step).db)
  {
    TransactIsKept(w, step);
    UnchangedIsKept(w.db);
    hide Inv, Transact, Phases, OrdersPersist, ItemsPersist, DeliveriesPersist;
    PhasesAreSound(w, step);
    CallsAreSound(w, step);
  }

  lemma CallsAreSound(w: World, step: Step)
    requires Sound(w) && PaymentsPersist(w.db.payments, Next(w, step).db.payments)
    ensures forall call <- Calls(w, step) :: CallSound(Next(w, step).db, call)
  {
    hide Inv, Transact, Phases, IdempotencyKey;
    forall call | call in w.calls
      ensures CallSound(Next(w, step).db, call)
    {
      assert CallSound(w.db, call);
    }
    if step.CallProvider? && step.id in w.phases {
      assert PhaseSound(w.db, w.phases[step.id]);
    }
  }

  // ---------------------------------------------------------------- whole runs

  lemma {:induction false} RunIsSound(w: World, steps: seq<Step>)
    requires Sound(w)
    ensures Sound(Run(w, steps)) && Later(w.db, Run(w, steps).db)
  {
    if steps == [] {
      UnchangedIsKept(w.db);
    } else {
      var before := Run(w, steps[..|steps| - 1]);
      RunIsSound(w, steps[..|steps| - 1]);
      NextIsSound(before, steps[|steps| - 1]);
      LaterIsTransitive(w.db, before.db, Run(w, steps).db);
    }
  }

  /** Every state reachable from the empty shop satisfies the global invariant. */
  lemma ReachableStatesAreSound(steps: seq<Step>)
    ensures Sound(Run(START, steps))
  {
    RunIsSound(START, steps);
  }

  lemma {:induction false} RunsCompose(w: World, first: seq<Step>, second: seq<Step>)
    ensures Run(w, first + second) == Run(Run(w, first), second)
  {
    if second == [] {
      assert first + second == first;
    } else {
      var n := |second| - 1;
      RunsCompose(w, first, second[..n]);
      assert (first + second)[..|first| + n] == first + second[..n];
    }
  }
}
