/** Under the invariant, what each payment transaction does: which move it makes, or which error it raises. */
module Effects {
  import opened Foundations
  import opened Schema
  import opened Allocation
  import opened Payments
  import opened Invariants
  import opened Transitions

  // ---------------------------------------------------------------- reservation

  /** The part of the invariant that reserving and releasing depend on. */
  ghost predicate Stocked(db: Database, order: OrderId) {
    && KeyStates(db.keys, db.assignments, db.items, db.orders)
    && Holdings(db.assignments, db.items, db.orders)
    && ItemsOf(db.items, order) != {}
    && PositiveQuantities(db.items)
    && UniqueProducts(db.items)
  }

  lemma InvIsStocked(db: Database, order: OrderId)
    requires Inv(db) && order in db.orders
    ensures Stocked(db, order)
  {
    OrderHasItems(db.orders, db.items, order);
    hide KeyStates, Holdings, NonEmptyOrders, PositiveQuantities, UniqueProducts;
  }

  /**
   * Allocator completeness: on an unpaid order without reservation, reserving succeeds exactly
   * when every item's product has enough unlocked keys, and then takes the lowest ids; otherwise
   * it fails with nothing changed. On a reserved order it changes nothing.
   */
  lemma ReserveEffect(db: Database, order: OrderId, locked: set<KeyId>)
    requires Stocked(db, order) && order in db.orders && !db.orders[order].status.Paid? && db.orders[order].total.Some?
    ensures var pool := ReservationPool(db.keys, db.assignments, locked);
            Reserve(db, order, locked) ==
            if db.orders[order].attempt.Some? then Ok(db)
            else if EnoughStock(db.keys, db.items, order, pool)
            then Ok(Grant(db, Claims(db.keys, db.items, order, pool), Reserved))
            else Err(NoKeysAvailable)
  {
    hide KeyStates, Holdings, PositiveQuantities, UniqueProducts, EnoughStock, Claims, Grant, ItemsOf, HeldFor,
         LockedReservation;
    if db.orders[order].attempt.Some? {
      OrderHoldsReservation(db, order);
    } else {
      OrderHoldsNothing(db, order);
    }
  }

  /** What is claimed from any pool of available keys meets the order's whole demand. */
  lemma ClaimsCover(db: Database, order: OrderId, pool: set<KeyId>)
    requires UniqueProducts(db.items)
    requires pool <= SalePool(db.keys)
    requires EnoughStock(db.keys, db.items, order, pool)
    ensures Covers(db.keys, db.items, order, Claims(db.keys, db.items, order, pool))
  {
    ClaimsMeetDemand(db.keys, db.items, order, pool);
  }

  /** Available keys are never assigned: the reservation's extra exclusion of assigned keys removes nothing. */
  lemma PoolsAgree(db: Database)
    requires KeyStates(db.keys, db.assignments, db.items, db.orders)
    ensures ReservationPool(db.keys, db.assignments, {}) == SalePool(db.keys)
  {
  }

  lemma ReturnNothing(db: Database)
    ensures Return(db, {}) == db
  {
    assert SetStatus(db.keys, {}, Available) == db.keys;
    assert db.assignments - {} == db.assignments;
  }

  lemma ReleaseEffect(db: Database, order: OrderId)
    requires Stocked(db, order) && order in db.orders && !db.orders[order].status.Paid?
    ensures Release(db, order) == Ok(Return(db, HeldFor(db.assignments, db.items, order)))
    ensures !db.orders[order].HoldsKeys() ==> Release(db, order) == Ok(db)
  {
    ReturnNothing(db);
    hide KeyStates, Holdings, PositiveQuantities, UniqueProducts, ItemsOf, HeldFor, LockedReservation, Return;
    if db.orders[order].attempt.Some? {
      OrderHoldsReservation(db, order);
    } else {
      OrderHoldsNothing(db, order);
    }
  }

  // ---------------------------------------------------------------- failing

  /** Failing an active payment withdraws it; failing any other payment changes nothing at all. */
  lemma FailEffect(db: Database, payment: PaymentId)
    requires Inv(db) && payment in db.payments
    ensures db.payments[payment].order in db.orders
    ensures Fail(db, payment) == Ok(if db.payments[payment].status.Active() then Withdrawn(db, payment) else db)
    ensures Inv(Fail(db, payment).value)
  {
    PaymentStanding(db.orders, db.payments, payment);
    OrderHasItems(db.orders, db.items, db.payments[payment].order);
    CoherentFail(db, payment);
    if db.payments[payment].status.Active() {
      WithdrawnKeepsInv(db, payment);
    }
  }

  /** The same on any coherent tables, for an order that has items. */
  lemma CoherentFail(db: Database, payment: PaymentId)
    requires Coherent(db) && payment in db.payments && ItemsOf(db.items, db.payments[payment].order) != {}
    ensures db.payments[payment].order in db.orders
    ensures Fail(db, payment) == Ok(if db.payments[payment].status.Active() then Withdrawn(db, payment) else db)
    ensures Coherent(Fail(db, payment).value)
  {
    PaymentStanding(db.orders, db.payments, payment);
    FailParts(db, payment, db.payments[payment].order);
    if db.payments[payment].status.Active() {
      WithdrawnKeepsCoherent(db, payment);
    }
  }

  /** How a payment stands to its order. */
  lemma PaymentStanding(orders: map<OrderId, Order>, payments: map<PaymentId, Payment>, payment: PaymentId)
    requires Authority(orders, payments) && Outcomes(orders, payments) && payment in payments
    ensures payments[payment].order in orders
    ensures var row := orders[payments[payment].order];
            && (payments[payment].status.Active() <==> row.attempt == Some(payment))
            && (payments[payment].status.Active() ==> !row.status.Paid?)
            && (payments[payment].status.Paid? ==> row.status.Paid?)
            && (row.status.Paid? ==> row.attempt == None)
            && (payments[payment].status.Active() || payments[payment].status.Paid? || payments[payment].status.Failed?)
  {
    if payments[payment].status.Paid? {
      assert payment in PaidPayments(payments, payments[payment].order);
    }
  }

  lemma FailParts(db: Database, payment: PaymentId, order: OrderId)
    requires Stocked(db, order) && payment in db.payments && order in db.orders && db.payments[payment].order == order
    requires var row := db.orders[order];
             && (db.payments[payment].status.Active() <==> row.attempt == Some(payment))
             && (db.payments[payment].status.Active() ==> !row.status.Paid?)
             && (db.payments[payment].status.Active() || db.payments[payment].status.Paid? || db.payments[payment].status.Failed?)
    ensures Fail(db, payment) == Ok(if db.payments[payment].status.Active() then Withdrawn(db, payment) else db)
  {
    hide KeyStates, Holdings, UniqueProducts, PositiveQuantities, ItemsOf;
    var marked := db.(payments := db.payments[payment := db.payments[payment].(status := Failed)]);
    if !db.payments[payment].status.Active() && !db.payments[payment].status.Paid? {
      assert marked.payments == db.payments;
      assert db.orders[order := db.orders[order].(attempt := db.orders[order].attempt)] == db.orders;
    }
    if !db.orders[order].status.Paid? {
      ReleaseEffect(marked, order);
    }
  }

  // ---------------------------------------------------------------- completing

  lemma FirstClaimExists(db: Database, order: OrderId, claims: map<KeyId, ItemId>)
    requires Covers(db.keys, db.items, order, claims) && PositiveQuantities(db.items)
    requires ItemsOf(db.items, order) != {}
    ensures FirstClaim(db, order, claims).Some? && FirstClaim(db, order, claims).value in claims
  {
    var some :| some in ItemsOf(db.items, order);
    assert db.items[some].product in Products(db.items, order);
    var i :| i in db.items && db.items[i].order == order && db.items[i].product == FirstProduct(db.items, order);
    assert |HeldBy(claims, i)| >= 1;
    var k :| k in HeldBy(claims, i);
    assert k in Stock(db.keys, claims.Keys, FirstProduct(db.items, order));
  }

  /** The one-to-one `license_key` column never rejects: no other order names a key this order may take. */
  lemma KeyIsFree(db: Database, order: OrderId, key: KeyId)
    requires Delivered(db.assignments, db.items, db.orders)
    requires key !in db.assignments || key in HeldFor(db.assignments, db.items, order)
    ensures !KeyTaken(db, order, Some(key))
  {
  }

  /**
   * Completion, case by case. It settles an authorised payment from its reservation, settles a
   * failed payment from free stock when nobody is in charge of the order and the stock suffices,
   * repeats harmlessly for the payment that already paid, and otherwise raises.
   */
  ghost function CompletionCase(db: Database, payment: PaymentId): Result<Completion, Error>
    requires payment in db.payments && db.payments[payment].order in db.orders
  {
    var order := db.payments[payment].order;
    var row := db.orders[order];
    var pool := SalePool(db.keys);
    var claims := Claims(db.keys, db.items, order, pool);
    if row.status.Paid? then
      if db.payments[payment].status.Paid? then Ok(Completion(db, true)) else Err(PaymentStateInconsistent)
    else if row.attempt == Some(payment) then
      Ok(Completion(SettledFromReservation(db, payment, db.payments[payment].amount), false))
    else if row.attempt.Some? then Err(PaymentNotAuthorized)
    else if EnoughStock(db.keys, db.items, order, pool) then
      Ok(Completion(SettledFromStock(db, payment, db.payments[payment].amount, claims, FirstClaim(db, order, claims)), false))
    else Err(NoKeysAvailable)
  }

  lemma CompleteEffect(db: Database, payment: PaymentId)
    requires Inv(db) && payment in db.payments
    ensures db.payments[payment].order in db.orders
    ensures Complete(db, payment) == CompletionCase(db, payment)
    ensures Complete(db, payment).Ok? ==> Inv(Complete(db, payment).value.db)
  {
    PaymentStanding(db.orders, db.payments, payment);
    RowTotal(db.orders, db.payments, payment);
    assert ItemsOf(db.items, db.payments[payment].order) != {};
    CompleteParts(db, payment, db.payments[payment].order);
  }

  lemma CompleteParts(db: Database, payment: PaymentId, order: OrderId)
    requires Inv(db) && payment in db.payments && order in db.orders && db.payments[payment].order == order
    requires ItemsOf(db.items, order) != {} && db.orders[order].total == Some(db.payments[payment].amount)
    requires var row := db.orders[order];
             && (db.payments[payment].status.Active() <==> row.attempt == Some(payment))
             && (db.payments[payment].status.Active() ==> !row.status.Paid?)
             && (db.payments[payment].status.Paid? ==> row.status.Paid?)
             && (db.payments[payment].status.Active() || db.payments[payment].status.Paid? || db.payments[payment].status.Failed?)
    ensures Complete(db, payment) == CompletionCase(db, payment)
    ensures Complete(db, payment).Ok? ==> Inv(Complete(db, payment).value.db)
  {
    hide KeyStates, Holdings, Authority, Outcomes, Valued, Agreement, NonEmptyOrders, DirectItems, Delivered, Notified, UniqueProducts,
         PositiveQuantities, UniqueTransactions, CartRows, Sequences, EnoughStock, Claims, ItemsOf, Fulfil;
    if !db.orders[order].status.Paid? {
      if db.orders[order].attempt == Some(payment) {
        CompleteReserved(db, payment, order);
      } else if db.orders[order].attempt == None {
        CompleteFromStock(db, payment, order);
      }
    }
  }

  lemma CompleteReserved(db: Database, payment: PaymentId, order: OrderId)
    requires Inv(db) && MaySettle(db, payment, order) && db.orders[order].attempt == Some(payment)
    requires db.payments[payment].status.Active() && ItemsOf(db.items, order) != {}
    requires db.orders[order].total == Some(db.payments[payment].amount)
    ensures Complete(db, payment) == CompletionCase(db, payment)
    ensures Inv(CompletionCase(db, payment).value.db)
  {
    hide KeyStates, Holdings, Authority, Outcomes, Valued, Agreement, NonEmptyOrders, DirectItems, Delivered, Notified, UniqueProducts,
         PositiveQuantities, UniqueTransactions, CartRows, Sequences, EnoughStock, Claims, ItemsOf, HeldFor, KeyTaken,
         LockedReservation, FirstClaim;
    OrderHoldsReservation(db, order);
    KeyIsFree(db, order, Least(HeldFor(db.assignments, db.items, order)));
    SettledFromReservationKeepsInv(db, payment, order, db.payments[payment].amount);
  }

  lemma CompleteFromStock(db: Database, payment: PaymentId, order: OrderId)
    requires Inv(db) && MaySettle(db, payment, order) && db.orders[order].attempt == None
    requires db.payments[payment].status.Failed? && ItemsOf(db.items, order) != {}
    requires db.orders[order].total == Some(db.payments[payment].amount)
    ensures Complete(db, payment) == CompletionCase(db, payment)
    ensures CompletionCase(db, payment).Ok? ==> Inv(CompletionCase(db, payment).value.db)
  {
    hide KeyStates, Holdings, Authority, Outcomes, Valued, Agreement, NonEmptyOrders, DirectItems, Delivered, Notified, UniqueProducts,
         PositiveQuantities, UniqueTransactions, CartRows, Sequences, EnoughStock, Claims, ItemsOf, HeldFor, KeyTaken,
         LockedReservation, SalePool;
    var claims := Claims(db.keys, db.items, order, SalePool(db.keys));
    OrderHoldsNothing(db, order);
    if EnoughStock(db.keys, db.items, order, SalePool(db.keys)) {
      ClaimsCover(db, order, SalePool(db.keys));
      ClaimsAreUnassigned(db.keys, db.assignments, db.items, db.orders, order, claims);
      FirstClaimExists(db, order, claims);
      KeyIsFree(db, order, FirstClaim(db, order, claims).value);
      SettledFromStockKeepsInv(db, payment, order, db.payments[payment].amount, claims, FirstClaim(db, order, claims));
    }
  }

  // ---------------------------------------------------------------- opening

  /** What `create_payment` opens: a new attempt, and only when the order has none. */
  ghost function CreateCase(
    db: Database, order: OrderId, given: Option<ProviderName>, settings: Settings, schedule: Schedule
  ): Result<Opening, Error> {
    if order !in db.orders then Err(DoesNotExist)
    else if db.orders[order].status.Paid? then Err(AlreadyPaid)
    else if db.orders[order].attempt.Some? then Err(PaymentInProgress)
    else
      var amount :- PayableTotal(db, order);
      var provider :- ChooseProvider(given, settings);
      FreshOpening(db, order, Some(provider), provider, amount, schedule)
  }

  /** What `pay_order` opens: the attempt the order already has, with no row changed, or a new one. */
  ghost function PayCase(
    db: Database, order: OrderId, given: Option<ProviderName>, settings: Settings, schedule: Schedule
  ): Result<Opening, Error>
    requires Authority(db.orders, db.payments)
  {
    if order !in db.orders then Err(DoesNotExist)
    else if db.orders[order].status.Paid? then Err(AlreadyPaid)
    else if db.orders[order].attempt.Some? then
      var payment := db.orders[order].attempt.value;
      var provider :- ResumeProvider(db.payments[payment], given, settings);
      Ok(Opening(db, payment, db.payments[payment].amount, provider, None))
    else
      var amount :- PayableTotal(db, order);
      var provider :- ChooseProvider(given, settings);
      if provider.Stripe? then Err(StripeRequiresCheckout)
      else FreshOpening(db, order, None, provider, amount, schedule)
  }

  ghost function FreshOpening(
    db: Database, order: OrderId, stored: Option<ProviderName>, provider: ProviderName, amount: Money, schedule: Schedule
  ): Result<Opening, Error>
    requires order in db.orders
  {
    var pool := ReservationPool(db.keys, db.assignments, schedule.locked);
    var claims := Claims(db.keys, db.items, order, pool);
    if EnoughStock(db.keys, db.items, order, pool)
    then Ok(Opening(Opened(db, NewId(db, schedule), order, stored, amount, claims), NewId(db, schedule), amount, provider, None))
    else Err(NoKeysAvailable)
  }

  lemma NewIdIsFree(db: Database, schedule: Schedule)
    requires Sequences(db)
    ensures NewId(db, schedule) !in db.payments
  {
  }

  lemma FreshOpeningEffect(
    db: Database, order: OrderId, stored: Option<ProviderName>, provider: ProviderName, amount: Money, schedule: Schedule)
    requires Inv(db) && order in db.orders && !db.orders[order].HoldsKeys() && db.orders[order].total == Some(amount)
    ensures ReserveFor(InsertPayment(db, NewId(db, schedule), order, stored, amount), order, NewId(db, schedule), schedule.locked) ==
            match FreshOpening(db, order, stored, provider, amount, schedule)
            case Ok(opening) => Ok(opening.db)
            case Err(error) => Err(error)
    ensures FreshOpening(db, order, stored, provider, amount, schedule).Ok? ==>
              Inv(FreshOpening(db, order, stored, provider, amount, schedule).value.db)
  {
    hide KeyStates, Holdings, Authority, Outcomes, Valued, Agreement, NonEmptyOrders, DirectItems, Delivered, Notified, UniqueProducts,
         PositiveQuantities, UniqueTransactions, CartRows, Sequences, EnoughStock, Claims, ItemsOf, HeldFor, Reserve;
    var pool := ReservationPool(db.keys, db.assignments, schedule.locked);
    InvIsStocked(db, order);
    NewIdIsFree(db, schedule);
    ReserveEffect(InsertPayment(db, NewId(db, schedule), order, stored, amount), order, schedule.locked);
    if EnoughStock(db.keys, db.items, order, pool) {
      ClaimsCover(db, order, pool);
      OpenedKeepsInv(db, NewId(db, schedule), order, stored, amount, Claims(db.keys, db.items, order, pool));
    }
  }

  /** The order row facts that opening depends on. */
  lemma OrderStanding(db: Database, order: OrderId)
    requires Inv(db) && order in db.orders
    ensures db.orders[order].total.Some? && ItemsOf(db.items, order) != {}
    ensures var row := db.orders[order];
            && (row.attempt.Some? ==> row.attempt.value in db.payments && !row.status.Paid?)
            && (row.attempt.Some? ==> db.payments[row.attempt.value].order == order)
            && ActivePayments(db.payments, order) == (if row.attempt.Some? then {row.attempt.value} else {})
  {
    ActiveIsAttempt(db.orders, db.payments, order);
  }

  lemma OpenCreateEffect(db: Database, order: OrderId, given: Option<ProviderName>, settings: Settings, schedule: Schedule)
    requires Inv(db)
    ensures OpenCreate(db, order, given, settings, schedule) == CreateCase(db, order, given, settings, schedule)
    ensures OpenCreate(db, order, given, settings, schedule).Ok? ==> Inv(OpenCreate(db, order, given, settings, schedule).value.db)
  {
    hide KeyStates, Holdings, Authority, Outcomes, Valued, Agreement, NonEmptyOrders, DirectItems, Delivered, Notified, UniqueProducts,
         PositiveQuantities, UniqueTransactions, CartRows, Sequences, ReserveFor, ItemsOf, ActivePayments;
    if order in db.orders && !db.orders[order].status.Paid? {
      OrderStanding(db, order);
      var provider := ChooseProvider(given, settings);
      if !db.orders[order].attempt.Some? && provider.Ok? {
        FreshOpeningEffect(db, order, Some(provider.value), provider.value, db.orders[order].total.value, schedule);
      }
    }
  }

  lemma OpenPayEffect(db: Database, order: OrderId, given: Option<ProviderName>, settings: Settings, schedule: Schedule)
    requires Inv(db)
    ensures OpenPay(db, order, given, settings, schedule) == PayCase(db, order, given, settings, schedule)
    ensures OpenPay(db, order, given, settings, schedule).Ok? ==> Inv(OpenPay(db, order, given, settings, schedule).value.db)
  {
    hide KeyStates, Holdings, Authority, Outcomes, Valued, Agreement, NonEmptyOrders, DirectItems, Delivered, Notified, UniqueProducts,
         PositiveQuantities, UniqueTransactions, CartRows, Sequences, ReserveFor, ItemsOf, ActivePayments;
    if order in db.orders && !db.orders[order].status.Paid? {
      OrderStanding(db, order);
      var provider := ChooseProvider(given, settings);
      if db.orders[order].attempt.Some? {
        InvIsStocked(db, order);
        ResumeEffect(db, order, schedule.locked);
      } else if provider.Ok? {
        FreshOpeningEffect(db, order, None, provider.value, db.orders[order].total.value, schedule);
      }
    }
  }

  /** Reserving and authorising again for the attempt in charge changes no row. */
  lemma ResumeEffect(db: Database, order: OrderId, locked: set<KeyId>)
    requires Stocked(db, order) && order in db.orders && db.orders[order].attempt.Some? && !db.orders[order].status.Paid?
    requires db.orders[order].total.Some?
    requires db.orders[order].attempt.value in db.payments && db.payments[db.orders[order].attempt.value].order == order
    ensures ReserveFor(db, order, db.orders[order].attempt.value, locked) == Ok(db)
  {
    hide KeyStates, Holdings, Authority, Outcomes, Valued, Agreement, NonEmptyOrders, DirectItems, Delivered, Notified, UniqueProducts,
         PositiveQuantities, UniqueTransactions, CartRows, Sequences, Reserve, ItemsOf;
    ReserveEffect(db, order, locked);
    var row := db.orders[order];
    assert db.orders[order := row.(attempt := row.attempt)] == db.orders;
  }

  // ---------------------------------------------------------------- storing the provider's reference

  lemma StoreReferenceKeepsInv(db: Database, payment: PaymentId, provider: ProviderName, reference: string)
    requires Inv(db)
    ensures var stored := StoreReference(db, payment, provider, reference);
            stored.Ok? ==> Inv(stored.value)
  {
    if StoreReference(db, payment, provider, reference).Ok? {
      var row := db.payments[payment].(provider := Some(provider), transactionId := Some(reference));
      PaymentDetailsKeepTables(db.orders, db.payments, payment, row);
      ReferenceKeepsTransactions(db.payments, payment, row);
      StoreReferenceParts(db, payment, provider, reference, row);
    }
  }

  lemma StoreReferenceParts(db: Database, payment: PaymentId, provider: ProviderName, reference: string, row: Payment)
    requires Inv(db) && payment in db.payments
    requires row == db.payments[payment].(provider := Some(provider), transactionId := Some(reference))
    requires var payments := db.payments[payment := row];
             && Authority(db.orders, payments) && Agreement(db.orders, payments) && Outcomes(db.orders, payments)
             && UniqueTransactions(payments)
    ensures Inv(db.(payments := db.payments[payment := row]))
  {
    hide KeyStates, Holdings, Authority, Outcomes, Valued, Agreement, NonEmptyOrders, DirectItems, Delivered, Notified, UniqueProducts,
         PositiveQuantities, UniqueTransactions, CartRows;
  }

  lemma PaymentDetailsKeepTables(
    orders: map<OrderId, Order>, payments: map<PaymentId, Payment>, payment: PaymentId, row: Payment)
    requires Authority(orders, payments) && Agreement(orders, payments) && Outcomes(orders, payments)
    requires payment in payments
    requires row.order == payments[payment].order && row.status == payments[payment].status && row.amount == payments[payment].amount
    ensures Authority(orders, payments[payment := row]) && Agreement(orders, payments[payment := row])
    ensures Outcomes(orders, payments[payment := row])
  {
    forall o | o in orders
      ensures PaidPayments(payments[payment := row], o) == PaidPayments(payments, o)
    {
    }
  }

  lemma ReferenceKeepsTransactions(payments: map<PaymentId, Payment>, payment: PaymentId, row: Payment)
    requires UniqueTransactions(payments) && payment in payments && row.transactionId.Some?
    requires forall q <- payments | q != payment :: payments[q].transactionId != row.transactionId
    ensures UniqueTransactions(payments[payment := row])
  {
  }
}
