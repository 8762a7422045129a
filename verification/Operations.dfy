/**
 * What each purchase operation does to the tables of a consistent shop, or which error it raises,
 * stated on the rows alone.
 */
module Operations {
  import opened Foundations
  import opened Schema
  import opened Allocation
  import opened Payments
  import opened Invariants
  import opened Transitions
  import opened Effects
  import opened References
  import opened Webhooks
  import opened Runs
  import opened Safety
  import opened Guarantees

  // ---------------------------------------------------------------- changes of rows

  /** The moved keys get a status; their products and all other keys stay. */
  ghost predicate Moved(before: map<KeyId, LicenseKey>, after: map<KeyId, LicenseKey>, moved: set<KeyId>, status: KeyStatus) {
    && after.Keys == before.Keys && moved <= before.Keys
    && forall k <- before :: after[k] == if k in moved then LicenseKey(before[k].product, status) else before[k]
  }

  /**
   * An order that held nothing now holds, for each item, exactly its quantity of keys of its product,
   * which were available and not blocked, and no lower such key was passed over.
   */
  ghost predicate TakesLowest(before: Database, after: Database, order: OrderId, blocked: set<KeyId>, status: KeyStatus) {
    var held := HeldFor(after.assignments, before.items, order);
    && Moved(before.keys, after.keys, held, status)
    && held !! before.assignments.Keys && held !! blocked
    && after.assignments.Keys == before.assignments.Keys + held
    && (forall k <- before.assignments :: after.assignments[k] == before.assignments[k])
    && (forall k <- held :: before.keys[k] == LicenseKey(before.items[after.assignments[k]].product, Available))
    && (forall i <- before.items | before.items[i].order == order :: |HeldBy(after.assignments, i)| == before.items[i].quantity)
    && (forall k <- held, other <- before.keys | other !in held && other !in blocked && before.keys[other] == before.keys[k] :: k < other)
  }

  /** A new payment is in charge of the order, whose keys it has reserved. */
  ghost predicate OpenedExactly(
    before: Database, after: Database, order: OrderId, payment: PaymentId, provider: Option<ProviderName>, locked: set<KeyId>)
  {
    && order in before.orders && payment !in before.payments && before.orders[order].total.Some?
    && after == before.(keys := after.keys, assignments := after.assignments, orders := after.orders, payments := after.payments,
                        nextPayment := after.nextPayment)
    && after.payments == before.payments[payment :=
         Payment(order, PaymentStatus.Created, provider, None, before.orders[order].total.value)]
    && after.orders == before.orders[order := before.orders[order].(attempt := Some(payment))]
    && TakesLowest(before, after, order, locked, Reserved)
  }

  /** The payment has ended; if it was in charge, its order's keys are free again and nobody is in charge. */
  ghost predicate EndedExactly(before: Database, after: Database, payment: PaymentId, status: PaymentStatus) {
    && payment in before.payments && before.payments[payment].order in before.orders
    && var order := before.payments[payment].order;
       var held := HeldFor(before.assignments, before.items, order);
       && after == before.(keys := after.keys, assignments := after.assignments, orders := after.orders, payments := after.payments)
       && after.payments == before.payments[payment := before.payments[payment].(status := status)]
       && if before.orders[order].attempt == Some(payment) then
            && after.orders == before.orders[order := before.orders[order].(attempt := None)]
            && Moved(before.keys, after.keys, held, Available)
            && after.assignments == before.assignments - held
          else after.orders == before.orders && after.keys == before.keys && after.assignments == before.assignments
  }

  /**
   * Order and payment are paid at the order's total, one email is queued, and every item has its
   * quantity of sold keys: the reserved ones, or the lowest available ones. A direct order records
   * the lowest of its keys, a cart order none.
   */
  ghost predicate CompletedExactly(before: Database, after: Database, payment: PaymentId) {
    && payment in before.payments && before.payments[payment].order in before.orders
    && var order := before.payments[payment].order;
       var row := before.orders[order];
       && after == before.(keys := after.keys, assignments := after.assignments, orders := after.orders, payments := after.payments,
                           emails := after.emails)
       && after.payments == before.payments[payment := before.payments[payment].(status := PaymentStatus.Paid)]
       && after.emails == before.emails + multiset{order}
       && CompletedRow(before, after, order)
       && (if row.attempt.Some? then
             && after.assignments == before.assignments
             && Moved(before.keys, after.keys, HeldFor(before.assignments, before.items, order), Sold)
           else TakesLowest(before, after, order, {}, Sold))
  }

  ghost predicate CompletedRow(before: Database, after: Database, order: OrderId)
    requires order in before.orders
  {
    var row := before.orders[order];
    && order in after.orders && after.orders == before.orders[order := after.orders[order]]
    && var key := after.orders[order].licenseKey;
       && after.orders[order] == Order(row.source, row.product, row.total, OrderStatus.Paid, row.total, key, None)
       && (row.source.Cart? ==> key == None)
       && (row.source.Direct? ==>
             && key.Some? && key.value in HeldFor(after.assignments, before.items, order)
             && forall k <- HeldFor(after.assignments, before.items, order) :: key.value <= k)
  }

  /** Every item of the order finds its quantity among the available keys that are not blocked. */
  predicate InStock(db: Database, order: OrderId, blocked: set<KeyId>) {
    forall i <- db.items | db.items[i].order == order ::
      db.items[i].quantity <= |KeysOf(db.keys, db.items[i].product, Available) - blocked|
  }

  lemma StockIsCounted(db: Database, order: OrderId, blocked: set<KeyId>)
    requires KeyStates(db.keys, db.assignments, db.items, db.orders)
    ensures EnoughStock(db.keys, db.items, order, ReservationPool(db.keys, db.assignments, blocked)) <==> InStock(db, order, blocked)
  {
    forall product
      ensures Stock(db.keys, ReservationPool(db.keys, db.assignments, blocked), product) == KeysOf(db.keys, product, Available) - blocked
    {
    }
    assert forall i <- db.items | db.items[i].order == order :: i in ItemsOf(db.items, order);
    hide KeyStates, ReservationPool, Stock, KeysOf;
  }

  lemma GrantTakesLowest(db: Database, order: OrderId, blocked: set<KeyId>, status: KeyStatus)
    requires KeyStates(db.keys, db.assignments, db.items, db.orders) && Holdings(db.assignments, db.items, db.orders)
    requires UniqueProducts(db.items) && order in db.orders && !db.orders[order].HoldsKeys()
    requires EnoughStock(db.keys, db.items, order, ReservationPool(db.keys, db.assignments, blocked))
    ensures TakesLowest(db, Grant(db, Claims(db.keys, db.items, order, ReservationPool(db.keys, db.assignments, blocked)), status),
                        order, blocked, status)
  {
    hide KeyStates, Holdings, Claims, EnoughStock, HeldBy, HeldFor, UniqueProducts, ReservationPool, LockedReservation;
    var pool := ReservationPool(db.keys, db.assignments, blocked);
    var claims := Claims(db.keys, db.items, order, pool);
    ClaimsMeetDemand(db.keys, db.items, order, pool);
    PoolIsFree(db, blocked);
    OrderHoldsNothing(db, order);
    HeldIsClaimed(db.assignments, db.items, order, claims);
    GrantedHoldings(db, order, claims);
  }

  /** The pool of a reservation is the available keys that are not blocked; none of them is assigned. */
  lemma PoolIsFree(db: Database, blocked: set<KeyId>)
    requires KeyStates(db.keys, db.assignments, db.items, db.orders)
    ensures var pool := ReservationPool(db.keys, db.assignments, blocked);
            && pool !! db.assignments.Keys
            && forall k :: k in pool <==> k in db.keys && db.keys[k].status == Available && k !in blocked
  {
  }

  lemma HeldIsClaimed(assignments: map<KeyId, ItemId>, items: map<ItemId, OrderItem>, order: OrderId, claims: map<KeyId, ItemId>)
    requires HeldFor(assignments, items, order) == {} && claims.Keys !! assignments.Keys
    requires forall k <- claims :: claims[k] in ItemsOf(items, order)
    ensures HeldFor(assignments + claims, items, order) == claims.Keys
  {
    forall k | k in HeldFor(assignments + claims, items, order)
      ensures k in claims
    {
      assert k in claims || k in HeldFor(assignments, items, order);
    }
  }

  // ---------------------------------------------------------------- ending a payment

  /** Termination, for every status: only the three unsuccessful ones are accepted, and a paid payment stays paid. */
  lemma TerminationIsExact(db: Database, payment: PaymentId, status: PaymentStatus)
    requires Inv(db) && payment in db.payments
    ensures db.payments[payment].order in db.orders
    ensures var result := Terminate(db, db.payments[payment].order, payment, status);
            if status !in {PaymentStatus.Failed, PaymentStatus.Cancelled, PaymentStatus.Expired} then result == Err(ValueError)
            else if db.payments[payment].status.Paid? then result == Ok(db)
            else result.Ok? && EndedExactly(db, result.value, payment, status)
  {
    hide KeyStates, Holdings, Authority, Outcomes, Valued, Agreement, NonEmptyOrders, DirectItems, Delivered, Notified,
         UniqueProducts, PositiveQuantities, UniqueTransactions, CartRows, Sequences, CartOrders, HeldFor, Release, EndedExactly;
    PaymentStanding(db.orders, db.payments, payment);
    var order := db.payments[payment].order;
    InvIsStocked(db, order);
    var marked := db.(payments := db.payments[payment := db.payments[payment].(status := status)]);
    if !db.payments[payment].status.Paid? && Unsuccessful(status) {
      if db.orders[order].attempt == Some(payment) {
        ReleaseEffect(marked, order);
        ReturnIsExact(db, marked, payment, status);
      } else {
        if !db.orders[order].status.Paid? {
          ReleaseEffect(marked, order);
        }
        assert db.orders[order := db.orders[order].(attempt := db.orders[order].attempt)] == db.orders;
        MarkIsExact(db, payment, status);
      }
    }
  }

  lemma ReturnIsExact(db: Database, marked: Database, payment: PaymentId, status: PaymentStatus)
    requires KeyStates(db.keys, db.assignments, db.items, db.orders)
    requires payment in db.payments && db.payments[payment].order in db.orders
    requires marked == db.(payments := db.payments[payment := db.payments[payment].(status := status)])
    requires db.orders[db.payments[payment].order].attempt == Some(payment)
    ensures var order := db.payments[payment].order;
            var freed := Return(marked, HeldFor(db.assignments, db.items, order));
            EndedExactly(db, freed.(orders := db.orders[order := db.orders[order].(attempt := None)]), payment, status)
  {
  }

  lemma MarkIsExact(db: Database, payment: PaymentId, status: PaymentStatus)
    requires payment in db.payments && db.payments[payment].order in db.orders
    requires db.orders[db.payments[payment].order].attempt != Some(payment)
    ensures EndedExactly(db, db.(payments := db.payments[payment := db.payments[payment].(status := status)]), payment, status)
  {
  }

  // ---------------------------------------------------------------- completing a payment

  /**
   * What confirming a payment leads to: nothing again if it has paid its order already, an error if
   * its order is paid otherwise, if another attempt is in charge, or if nobody is and keys are
   * missing, and else the completion.
   */
  ghost predicate CompletesExactly(db: Database, payment: PaymentId, result: Result<Database, Error>) {
    && payment in db.payments && db.payments[payment].order in db.orders
    && var order := db.payments[payment].order;
       var row := db.orders[order];
       if row.status.Paid? then result == if db.payments[payment].status.Paid? then Ok(db) else Err(PaymentStateInconsistent)
       else if row.attempt.Some? && row.attempt != Some(payment) then result == Err(PaymentNotAuthorized)
       else if row.attempt == None && !InStock(db, order, {}) then result == Err(NoKeysAvailable)
       else result.Ok? && CompletedExactly(db, result.value, payment)
  }

  lemma CompletionIsExact(db: Database, payment: PaymentId)
    requires Inv(db) && payment in db.payments
    ensures db.payments[payment].order in db.orders
    ensures var result := Complete(db, payment);
            CompletesExactly(db, payment, if result.Ok? then Ok(result.value.db) else Err(result.error))
    ensures Complete(db, payment).Ok? ==>
              (Complete(db, payment).value.alreadyCompleted <==> db.orders[db.payments[payment].order].status.Paid?)
  {
    hide KeyStates, Holdings, Authority, Outcomes, Valued, Agreement, NonEmptyOrders, DirectItems, Delivered, Notified,
         UniqueProducts, PositiveQuantities, UniqueTransactions, CartRows, Sequences, CartOrders, Complete, EnoughStock, Claims,
         CompletedExactly, SettledFromStock, SettledFromReservation, InStock, ReservationPool, SalePool;
    CompleteEffect(db, payment);
    PoolsAgree(db);
    StockIsCounted(db, db.payments[payment].order, {});
    var row := db.orders[db.payments[payment].order];
    if !row.status.Paid? {
      if row.attempt == Some(payment) {
        ReservationSaleIsExact(db, payment);
      } else if row.attempt == None && InStock(db, db.payments[payment].order, {}) {
        StockSaleIsExact(db, payment);
      }
    }
  }

  lemma ReservationSaleIsExact(db: Database, payment: PaymentId)
    requires Inv(db) && payment in db.payments && db.payments[payment].order in db.orders
    requires db.orders[db.payments[payment].order].attempt == Some(payment) && !db.orders[db.payments[payment].order].status.Paid?
    ensures CompletedExactly(db, SettledFromReservation(db, payment, db.payments[payment].amount), payment)
  {
    hide Holdings, Authority, Outcomes, Valued, NonEmptyOrders, DirectItems, Notified, Delivered, KeyStates, Agreement,
         UniqueProducts, PositiveQuantities, UniqueTransactions, CartRows, Sequences, CartOrders, HeldFor;
    var order := db.payments[payment].order;
    OrderHasItems(db.orders, db.items, order);
    OrderHoldsReservation(db, order);
    RowTotal(db.orders, db.payments, payment);
    UnpaidRow(db, order);
    HeldKeysAreRows(db, order);
  }

  lemma HeldKeysAreRows(db: Database, order: OrderId)
    requires KeyStates(db.keys, db.assignments, db.items, db.orders)
    ensures HeldFor(db.assignments, db.items, order) <= db.keys.Keys
  {
  }

  lemma StockSaleIsExact(db: Database, payment: PaymentId)
    requires Inv(db) && payment in db.payments && db.payments[payment].order in db.orders
    requires !db.orders[db.payments[payment].order].HoldsKeys()
    requires EnoughStock(db.keys, db.items, db.payments[payment].order, SalePool(db.keys))
    ensures var order := db.payments[payment].order;
            var claims := Claims(db.keys, db.items, order, SalePool(db.keys));
            CompletedExactly(db, SettledFromStock(db, payment, db.payments[payment].amount, claims, FirstClaim(db, order, claims)), payment)
  {
    hide Holdings, Authority, Outcomes, Valued, NonEmptyOrders, DirectItems, Notified, Delivered, KeyStates, Agreement, EnoughStock,
         UniqueProducts, PositiveQuantities, UniqueTransactions, CartRows, Sequences, CartOrders, Claims, TakesLowest, SalePool,
         ReservationPool, FirstClaim, HeldFor, SetStatus;
    var order := db.payments[payment].order;
    var claims := Claims(db.keys, db.items, order, SalePool(db.keys));
    PoolsAgree(db);
    GrantTakesLowest(db, order, {}, Sold);
    RowTotal(db.orders, db.payments, payment);
    UnpaidRow(db, order);
    StockSaleHolds(db, order);
    SameTaking(db, Grant(db, claims, Sold), SettledFromStock(db, payment, db.payments[payment].amount, claims, FirstClaim(db, order, claims)), order);
    if db.orders[order].source.Direct? {
      FirstIsLowest(db, order);
    }
  }

  lemma SameTaking(db: Database, granted: Database, after: Database, order: OrderId)
    requires TakesLowest(db, granted, order, {}, Sold) && after.keys == granted.keys && after.assignments == granted.assignments
    ensures TakesLowest(db, after, order, {}, Sold)
  {
    hide HeldFor, HeldBy, Moved;
  }

  /** The order holds exactly the keys claimed from stock. */
  lemma StockSaleHolds(db: Database, order: OrderId)
    requires Inv(db) && order in db.orders && !db.orders[order].HoldsKeys()
    requires EnoughStock(db.keys, db.items, order, SalePool(db.keys))
    ensures var claims := Claims(db.keys, db.items, order, SalePool(db.keys));
            HeldFor(db.assignments + claims, db.items, order) == claims.Keys
  {
    hide Holdings, Authority, Outcomes, Valued, NonEmptyOrders, DirectItems, Notified, Delivered, KeyStates, Agreement, EnoughStock,
         UniqueProducts, PositiveQuantities, UniqueTransactions, CartRows, Sequences, CartOrders, Claims, SalePool, Covers, HeldFor;
    var claims := Claims(db.keys, db.items, order, SalePool(db.keys));
    ClaimsMeetDemand(db.keys, db.items, order, SalePool(db.keys));
    ClaimsCover(db, order, SalePool(db.keys));
    ClaimsAreUnassigned(db.keys, db.assignments, db.items, db.orders, order, claims);
    OrderHoldsNothing(db, order);
    HeldIsClaimed(db.assignments, db.items, order, claims);
  }

  /** With a single item the first claimed key is the lowest of all. */
  lemma FirstIsLowest(db: Database, order: OrderId)
    requires Inv(db) && order in db.orders && db.orders[order].source.Direct?
    requires EnoughStock(db.keys, db.items, order, SalePool(db.keys))
    ensures var claims := Claims(db.keys, db.items, order, SalePool(db.keys));
            var first := FirstClaim(db, order, claims);
            first.Some? && first.value in claims && forall k <- claims :: first.value <= k
  {
    hide Holdings, Authority, Outcomes, Valued, Notified, Delivered, KeyStates, Agreement, EnoughStock, NonEmptyOrders,
         UniqueProducts, PositiveQuantities, UniqueTransactions, CartRows, Sequences, CartOrders, Claims, SalePool, Covers;
    var claims := Claims(db.keys, db.items, order, SalePool(db.keys));
    OrderHasItems(db.orders, db.items, order);
    ClaimsCover(db, order, SalePool(db.keys));
    FirstClaimExists(db, order, claims);
    CoversClaims(db, order, claims);
  }

  lemma CoversClaims(db: Database, order: OrderId, claims: map<KeyId, ItemId>)
    requires Covers(db.keys, db.items, order, claims) && DirectItems(db.orders, db.items)
    requires order in db.orders && db.orders[order].source.Direct?
    requires FirstClaim(db, order, claims).Some?
    ensures forall k <- claims :: FirstClaim(db, order, claims).value <= k
  {
    var product := FirstProduct(db.items, order);
    forall k | k in claims
      ensures k in Stock(db.keys, claims.Keys, product)
    {
      assert Products(db.items, order) == {db.keys[k].product} by {
        assert db.items[claims[k]].product in Products(db.items, order);
        forall p | p in Products(db.items, order)
          ensures p == db.keys[k].product
        {
          var i :| i in db.items && db.items[i].order == order && db.items[i].product == p;
          assert i == claims[k];
        }
      }
    }
  }

  // ---------------------------------------------------------------- opening an attempt

  lemma OpeningIsExact(
    db: Database, order: OrderId, stored: Option<ProviderName>, provider: ProviderName, amount: Money, schedule: Schedule)
    requires Inv(db) && order in db.orders && !db.orders[order].HoldsKeys() && db.orders[order].total == Some(amount)
    requires InStock(db, order, schedule.locked)
    ensures var result := FreshOpening(db, order, stored, provider, amount, schedule);
            && result.Ok? && result.value.createdItem == None && result.value.amount == amount && result.value.provider == provider
            && (schedule.drawn !in db.payments ==> result.value.payment == schedule.drawn)
            && OpenedExactly(db, result.value.db, order, result.value.payment, stored, schedule.locked)
  {
    hide KeyStates, Holdings, Authority, Outcomes, Valued, Agreement, NonEmptyOrders, DirectItems, Delivered, Notified,
         UniqueProducts, PositiveQuantities, UniqueTransactions, CartRows, Sequences, CartOrders, Claims, EnoughStock, InStock,
         ReservationPool, TakesLowest, SetStatus;
    StockIsCounted(db, order, schedule.locked);
    NewIdIsFree(db, schedule);
    GrantTakesLowest(db, order, schedule.locked, Reserved);
    var claims := Claims(db.keys, db.items, order, ReservationPool(db.keys, db.assignments, schedule.locked));
    SameReservation(db, Grant(db, claims, Reserved), Opened(db, NewId(db, schedule), order, stored, amount, claims), order, schedule.locked);
  }

  lemma SameReservation(db: Database, granted: Database, after: Database, order: OrderId, locked: set<KeyId>)
    requires TakesLowest(db, granted, order, locked, Reserved) && after.keys == granted.keys && after.assignments == granted.assignments
    ensures TakesLowest(db, after, order, locked, Reserved)
  {
    hide HeldFor, HeldBy, Moved;
  }

  /** The first transaction of `create_payment`, case by case. */
  lemma CreationIsExact(db: Database, order: OrderId, given: Option<ProviderName>, settings: Settings, schedule: Schedule)
    requires Inv(db)
    ensures var result := OpenCreate(db, order, given, settings, schedule);
            if order !in db.orders then result == Err(DoesNotExist)
            else if db.orders[order].status.Paid? then result == Err(AlreadyPaid)
            else if db.orders[order].attempt.Some? then result == Err(PaymentInProgress)
            else if given == None && settings.selected != Local && !(settings.selected == Stripe && settings.stripeReady)
            then result == Err(ProviderMisconfigured)
            else if !InStock(db, order, schedule.locked) then result == Err(NoKeysAvailable)
            else
              && result.Ok? && result.value.createdItem == None && Some(result.value.amount) == db.orders[order].total
              && result.value.provider == (if given.Some? then given.value else settings.selected)
              && (schedule.drawn !in db.payments ==> result.value.payment == schedule.drawn)
              && OpenedExactly(db, result.value.db, order, result.value.payment, Some(result.value.provider), schedule.locked)
  {
    hide KeyStates, Holdings, Authority, Outcomes, Valued, Agreement, NonEmptyOrders, DirectItems, Delivered, Notified,
         UniqueProducts, PositiveQuantities, UniqueTransactions, CartRows, Sequences, CartOrders, Claims, EnoughStock, InStock,
         ReservationPool, OpenCreate, OpenedExactly, Opened;
    OpenCreateEffect(db, order, given, settings, schedule);
    TotalsExist(db);
    StockIsCounted(db, order, schedule.locked);
    if order in db.orders && !db.orders[order].HoldsKeys() && InStock(db, order, schedule.locked) && ChooseProvider(given, settings).Ok? {
      var provider := ChooseProvider(given, settings).value;
      OpeningIsExact(db, order, Some(provider), provider, db.orders[order].total.value, schedule);
    }
  }

  /**
   * The first transaction of `pay_order`, case by case. It resumes the attempt in charge without
   * writing: with the attempt's own provider once a reference is stored, else with the one at hand.
   * Without an attempt it opens one for the one at hand, whose name is not stored yet.
   */
  lemma PayingIsExact(db: Database, order: OrderId, given: Option<ProviderName>, settings: Settings, schedule: Schedule)
    requires Inv(db)
    ensures var result := OpenPay(db, order, given, settings, schedule);
            if order !in db.orders then result == Err(DoesNotExist)
            else if db.orders[order].status.Paid? then result == Err(AlreadyPaid)
            else if db.orders[order].attempt.Some? then
              db.orders[order].attempt.value in db.payments && ResumedExactly(db, order, db.orders[order].attempt.value, given, settings, result)
            else if given == None && settings.selected != Local && !(settings.selected == Stripe && settings.stripeReady)
            then result == Err(ProviderMisconfigured)
            else if (if given.Some? then given.value else settings.selected) == Stripe then result == Err(StripeRequiresCheckout)
            else if !InStock(db, order, schedule.locked) then result == Err(NoKeysAvailable)
            else
              && result.Ok? && result.value.createdItem == None && Some(result.value.amount) == db.orders[order].total
              && result.value.provider == (if given.Some? then given.value else settings.selected)
              && (schedule.drawn !in db.payments ==> result.value.payment == schedule.drawn)
              && OpenedExactly(db, result.value.db, order, result.value.payment, None, schedule.locked)
  {
    hide KeyStates, Holdings, Authority, Outcomes, Valued, Agreement, NonEmptyOrders, DirectItems, Delivered, Notified,
         UniqueProducts, PositiveQuantities, UniqueTransactions, CartRows, Sequences, CartOrders, Claims, EnoughStock, InStock,
         ReservationPool, OpenPay, OpenedExactly, Opened, ResumedExactly, ResumeProvider;
    OpenPayEffect(db, order, given, settings, schedule);
    TotalsExist(db);
    AuthorityHolds(db);
    StockIsCounted(db, order, schedule.locked);
    if order in db.orders && !db.orders[order].status.Paid? && db.orders[order].attempt.Some? {
      OrderStanding(db, order);
      ResumptionIsExact(db, order, given, settings);
    } else if order in db.orders && !db.orders[order].HoldsKeys() && InStock(db, order, schedule.locked)
              && ChooseProvider(given, settings).Ok? {
      OpeningIsExact(db, order, None, ChooseProvider(given, settings).value, db.orders[order].total.value, schedule);
    }
  }

  /** How `pay_order` resumes an attempt: nothing is written, and only the provider can be a problem. */
  ghost predicate ResumedExactly(
    db: Database, order: OrderId, payment: PaymentId, given: Option<ProviderName>, settings: Settings, result: Result<Opening, Error>)
    requires payment in db.payments
  {
    var row := db.payments[payment];
    var usable := row.provider == Some(Local) || (row.provider == Some(Stripe) && settings.stripeReady);
    var selectable := settings.selected == Local || (settings.selected == Stripe && settings.stripeReady);
    if row.transactionId.Some? && row.transactionId != Some("") then
      if row.provider.Some? && (if given.Some? then given == row.provider else usable)
      then result == Ok(Opening(db, payment, row.amount, row.provider.value, None))
      else result == Err(ProviderMisconfigured)
    else if given.Some? then result == Ok(Opening(db, payment, row.amount, given.value, None))
    else if selectable then result == Ok(Opening(db, payment, row.amount, settings.selected, None))
    else result == Err(ProviderMisconfigured)
  }

  lemma ResumptionIsExact(db: Database, order: OrderId, given: Option<ProviderName>, settings: Settings)
    requires Authority(db.orders, db.payments) && order in db.orders && db.orders[order].attempt.Some?
    requires db.orders[order].attempt.value in db.payments && !db.orders[order].status.Paid?
    ensures ResumedExactly(db, order, db.orders[order].attempt.value, given, settings,
                           PayCase(db, order, given, settings, Schedule({}, 0)))
    ensures forall schedule :: PayCase(db, order, given, settings, schedule) == PayCase(db, order, given, settings, Schedule({}, 0))
  {
    hide Authority, FreshOpening;
  }

  // ---------------------------------------------------------------- storing the reference

  /**
   * On any tables: accepted exactly when the payment exists and no other payment has the reference,
   * and then that one row gets exactly this provider and reference, and nothing else changes.
   */
  lemma StoringIsExact(db: Database, payment: PaymentId, provider: ProviderName, reference: string)
    ensures var result := StoreReference(db, payment, provider, reference);
            && (result.Ok? <==>
                  (payment in db.payments && forall q <- db.payments | db.payments[q].transactionId == Some(reference) :: q == payment))
            && (result.Err? ==> result.error == if payment in db.payments then IntegrityError else DoesNotExist)
            && (result.Ok? ==>
                  && result.value == db.(payments := result.value.payments)
                  && result.value.payments.Keys == db.payments.Keys
                  && (forall q <- db.payments | q != payment :: result.value.payments[q] == db.payments[q])
                  && result.value.payments[payment] == Payment(db.payments[payment].order, db.payments[payment].status,
                       Some(provider), Some(reference), db.payments[payment].amount))
  {
  }

  // ---------------------------------------------------------------- finishing

  /**
   * The last transaction of `pay_order`: a success completes, a failure ends the payment unless it
   * is paid already, and any other answer only marks the payment pending.
   */
  lemma FinishingIsExact(db: Database, payment: PaymentId, verdict: Verdict)
    requires Inv(db) && payment in db.payments
    ensures var result := FinishPay(db, payment, verdict);
            match verdict
            case Succeeded => CompletesExactly(db, payment, result)
            case Declined =>
              result.Ok? && if db.payments[payment].status.Paid? then result.value == db
                            else EndedExactly(db, result.value, payment, PaymentStatus.Failed)
            case Unsettled => result == Ok(db.(payments := db.payments[payment := db.payments[payment].(status := Pending)]))
  {
    hide KeyStates, Holdings, Authority, Outcomes, Valued, Agreement, NonEmptyOrders, DirectItems, Delivered, Notified,
         UniqueProducts, PositiveQuantities, UniqueTransactions, CartRows, Sequences, CartOrders, Complete, Terminate,
         CompletedExactly, EndedExactly, InStock;
    CompletionIsExact(db, payment);
    TerminationIsExact(db, payment, PaymentStatus.Failed);
  }

  /** After any run of the shop a cart order records no key, and a paid direct order one of its own sold keys. */
  lemma RecordedKeys(steps: seq<Step>, order: OrderId)
    requires order in Run(START, steps).db.orders
    ensures var db := Run(START, steps).db;
            var row := db.orders[order];
            && (row.source.Cart? || !row.status.Paid? ==> row.licenseKey == None)
            && (row.source.Direct? && row.status.Paid? ==>
                  && row.licenseKey.Some? && row.licenseKey.value in HeldFor(db.assignments, db.items, order)
                  && row.licenseKey.value in db.keys && db.keys[row.licenseKey.value].status.Sold?)
  {
    ReachableStatesAreSound(steps);
    hide Run, START;
    KeysRecorded(Run(START, steps).db, order);
  }

  lemma KeysRecorded(db: Database, order: OrderId)
    requires Inv(db) && order in db.orders
    ensures var row := db.orders[order];
            && (row.source.Cart? || !row.status.Paid? ==> row.licenseKey == None)
            && (row.source.Direct? && row.status.Paid? ==>
                  && row.licenseKey.Some? && row.licenseKey.value in HeldFor(db.assignments, db.items, order)
                  && row.licenseKey.value in db.keys && db.keys[row.licenseKey.value].status.Sold?)
  {
    hide Holdings, Authority, Outcomes, Valued, NonEmptyOrders, DirectItems, Notified, Agreement, UniqueProducts,
         PositiveQuantities, UniqueTransactions, CartRows, Sequences, CartOrders;
  }

  // ---------------------------------------------------------------- deliveries

  /** A session names a payment by its printed id, and it is that payment's own Stripe session. */
  ghost predicate Refers(db: Database, session: CheckoutSession, payment: PaymentId) {
    && session.localPaymentId == Some(Print(payment))
    && payment in db.payments && db.payments[payment].order in db.orders
    && db.payments[payment].provider == Some(Stripe) && db.payments[payment].transactionId == Some(session.id)
  }

  /** Which payment a session refers to, and why it refers to none. */
  lemma ReferenceIsExact(db: Database, session: CheckoutSession, payment: PaymentId)
    requires forall p <- db.payments :: db.payments[p].order in db.orders
    ensures ReferredPayment(db, session) == Ok(payment) <==> Refers(db, session, payment)
    ensures session.localPaymentId == Some(Print(payment)) ==>
              && (payment !in db.payments ==> ReferredPayment(db, session) == Err(UnknownStripePayment))
              && (payment in db.payments && db.payments[payment].provider != Some(Stripe) ==>
                    ReferredPayment(db, session) == Err(ProviderIsNotStripe))
              && (payment in db.payments && db.payments[payment].provider == Some(Stripe)
                  && db.payments[payment].transactionId != Some(session.id) ==>
                    ReferredPayment(db, session) == Err(ForeignCheckoutSession))
    ensures (session.localPaymentId == None || forall p: PaymentId :: session.localPaymentId.value != Print(p)) ==>
              ReferredPayment(db, session) == Err(InvalidPaymentReference)
  {
    hide Print, ParseReference;
    if session.localPaymentId.Some? {
      ReferenceRoundTrip(session.localPaymentId.value, payment, AsciiDigit);
      var parsed := ParseReference(session.localPaymentId.value, AsciiDigit);
      if parsed.Some? {
        ReferenceRoundTrip(session.localPaymentId.value, parsed.value, AsciiDigit);
      }
    }
  }

  /** What a new event about a payment does: a success confirms it, a failure ends it unless it is paid. */
  ghost predicate DeliveredExactly(db: Database, event: Event, payment: PaymentId, result: Result<Database, Error>)
    requires event.session.Some? && payment in db.payments
  {
    var recorded := db.(events := db.events + {event.id});
    match event.kind
    case Unrecognised => result == Err(ValueError)
    case Completed | AsyncPaymentSucceeded =>
      if event.session.value.paymentStatus !in {"paid", "no_payment_required"} then result == Ok(recorded)
      else CompletesExactly(recorded, payment, result)
    case AsyncPaymentFailed | SessionExpired =>
      result.Ok? && if db.payments[payment].status.Paid? then result.value == recorded
                    else EndedExactly(recorded, result.value, payment, PaymentStatus.Failed)
  }

  /**
   * Deliveries, case by case. A recorded event does nothing, an unsupported one is only recorded, and
   * any other is rejected unless its session refers to a payment.
   */
  lemma DeliveryIsExact(db: Database, event: Event)
    requires Inv(db)
    ensures var result := Process(db, event);
            if event.id in db.events then result == Ok(db)
            else if event.session == None then result == Ok(db.(events := db.events + {event.id}))
            else
              && ((forall p: PaymentId :: !Refers(db, event.session.value, p)) ==> result.Err?)
              && (forall p: PaymentId | Refers(db, event.session.value, p) :: DeliveredExactly(db, event, p, result))
    ensures var result := Process(db, event);
            result.Ok? && result.value != db && result.value != db.(events := db.events + {event.id}) ==>
              event.session.Some? && exists p: PaymentId :: Refers(db, event.session.value, p)
  {
    AuthorityHolds(db);
    hide Inv, Complete, Terminate, ReferredPayment, Refers, DeliveredExactly;
    if event.session.Some? && event.id !in db.events {
      SameReference(db, event);
      var referred := ReferredPayment(db, event.session.value);
      forall p: PaymentId
        ensures referred == Ok(p) <==> Refers(db, event.session.value, p)
      {
        ReferenceIsExact(db, event.session.value, p);
      }
      if referred.Ok? {
        ReferredExists(db, event.session.value);
        EventIsExact(db, event, referred.value);
      }
    }
  }

  lemma EventIsExact(db: Database, event: Event, payment: PaymentId)
    requires Inv(db) && event.id !in db.events && event.session.Some? && payment in db.payments
    requires ReferredPayment(db, event.session.value) == Ok(payment)
    ensures DeliveredExactly(db, event, payment, Process(db, event))
  {
    hide Inv, Complete, Terminate, ReferredPayment, CompletesExactly, EndedExactly;
    SameReference(db, event);
    RecordKeepsInv(db, event);
    ReferredExists(db, event.session.value);
    CompletionIsExact(Record(db, event), payment);
    TerminationIsExact(Record(db, event), payment, PaymentStatus.Failed);
  }

  // ---------------------------------------------------------------- guards, on any tables

  /** Whatever the tables, a completion is accepted only past every check, and a failed check names its error. */
  lemma CompletionIsGuarded(db: Database, payment: PaymentId)
    requires payment in db.payments && db.payments[payment].order in db.orders
    ensures var row, attempt := db.orders[db.payments[payment].order], db.payments[payment];
            var result := Complete(db, payment);
            if row.status.Paid? then
              result == if attempt.status.Paid? then Ok(Completion(db, true)) else Err(PaymentStateInconsistent)
            else if attempt.status in {PaymentStatus.Paid, PaymentStatus.Cancelled, PaymentStatus.Expired}
            then result == Err(PaymentCannotBeCompleted)
            else if row.total == None then result == Err(NoAuthoritativeTotal)
            else if row.total != Some(attempt.amount) then result == Err(AmountMismatch)
            else if row.attempt.Some? && row.attempt != Some(payment) then result == Err(PaymentNotAuthorized)
            else
              && ((row.attempt == Some(payment) && ItemsOf(db.items, attempt.order) != {} && HeldFor(db.assignments, db.items, attempt.order) == {})
                  ==> result == Err(ReservationInconsistent))
              && (result.Ok? ==> !result.value.alreadyCompleted)
  {
    hide HeldFor, EnoughStock, Claims, KeyTaken, FullyReserved, ItemsOf, Fulfil, EnsureItems;
    var order := db.payments[payment].order;
    if db.orders[order].attempt.Some? && ItemsOf(db.items, order) != {} && HeldFor(db.assignments, db.items, order) == {} {
      CompletionNeedsReservation(db, payment, order);
    }
    hide Conclude;
  }

  lemma CompletionNeedsReservation(db: Database, payment: PaymentId, order: OrderId)
    requires payment in db.payments && order in db.orders
    requires db.orders[order].attempt.Some? && ItemsOf(db.items, order) != {} && HeldFor(db.assignments, db.items, order) == {}
    ensures forall price :: Conclude(db, order, payment, price) == Err(ReservationInconsistent)
  {
  }

  /** Whatever the tables, an order's reservation is read as nothing, as complete, or as an error. */
  lemma ReservationIsReadExactly(
    keys: map<KeyId, LicenseKey>, items: map<ItemId, OrderItem>, assignments: map<KeyId, ItemId>, order: OrderId)
    requires forall k <- assignments :: assignments[k] in items
    ensures var result := LockedReservation(keys, items, assignments, order);
            var held := set k | k in assignments && items[assignments[k]].order == order;
            if held == {} then result == Ok({})
            else if (forall k <- held :: k in keys && keys[k].status == Reserved && keys[k].product == items[assignments[k]].product)
                    && (forall i <- items | items[i].order == order :: |set k | k in held && assignments[k] == i| == items[i].quantity)
            then result == Ok(held)
            else result == Err(ReservationInconsistent)
  {
    var held := set k | k in assignments && items[assignments[k]].order == order;
    assert held == HeldFor(assignments, items, order);
    forall i | i in items && items[i].order == order
      ensures HeldBy(assignments, i) == set k | k in held && assignments[k] == i
    {
      assert i in ItemsOf(items, order);
    }
    assert forall i :: i in ItemsOf(items, order) <==> i in items && items[i].order == order;
    hide HeldFor, HeldBy, ItemsOf;
  }

  /** The item an order without items gets on first use: on any tables, one unit of a direct order's product at the total. */
  lemma FirstItemIsExact(db: Database, order: OrderId, price: Money)
    requires order in db.orders
    ensures var row, result := db.orders[order], EnsureItems(db, order, price);
            if row.source.Cart? || (exists i <- db.items :: db.items[i].order == order) then result == Ok(db)
            else if row.product == None then result == Err(NoProductReference)
            else result == Ok(db.(items := db.items[db.nextItem := OrderItem(order, row.product.value, 1, price)], nextItem := db.nextItem + 1))
  {
    assert forall i :: i in ItemsOf(db.items, order) <==> i in db.items && db.items[i].order == order;
    hide ItemsOf;
  }

  /** Whatever the tables, only an unpaid order with a total and an item or product is reserved for. */
  lemma ReservationIsGuarded(db: Database, order: OrderId, locked: set<KeyId>)
    ensures var result := Reserve(db, order, locked);
            if order !in db.orders then result == Err(DoesNotExist)
            else if db.orders[order].status.Paid? then result == Err(PaidOrderCannotReserve)
            else if db.orders[order].total == None then result == Err(NoAuthoritativeTotal)
            else
              ((forall i <- db.items :: db.items[i].order != order) && (db.orders[order].source.Cart? || db.orders[order].product == None))
              ==> result == Err(NoProductReference)
  {
    hide LockedReservation, EnoughStock, Claims;
    if order in db.orders && db.orders[order].total.Some? {
      FirstItemIsExact(db, order, db.orders[order].total.value);
      assert (forall i <- db.items :: db.items[i].order != order) ==> ItemsOf(db.items, order) == {};
    }
    hide EnsureItems;
  }

  /** Whatever the tables, only an unpaid order is released, and it is left alone if it has no items. */
  lemma ReleaseIsGuarded(db: Database, order: OrderId)
    ensures var result := Release(db, order);
            if order !in db.orders then result == Err(DoesNotExist)
            else if db.orders[order].status.Paid? then result == Err(PaidOrderCannotRelease)
            else (forall i <- db.items :: db.items[i].order != order) ==> result == Ok(db)
  {
    hide LockedReservation;
    assert (forall i <- db.items :: db.items[i].order != order) ==> ItemsOf(db.items, order) == {};
  }

  /** Whatever the tables, a payment takes charge only of its own order, and of no order another is in charge of. */
  lemma AuthorizationIsExact(db: Database, order: OrderId, payment: PaymentId)
    requires order in db.orders && payment in db.payments
    ensures var row, result := db.orders[order], Authorize(db, order, payment);
            if db.payments[payment].order != order then result == Err(ForeignPayment)
            else if row.attempt.Some? && row.attempt != Some(payment) then result == Err(ReservationOfAnotherPayment)
            else
              && result.Ok? && result.value == db.(orders := result.value.orders)
              && result.value.orders.Keys == db.orders.Keys
              && (forall o <- db.orders | o != order :: result.value.orders[o] == db.orders[o])
              && result.value.orders[order] ==
                 Order(row.source, row.product, row.total, row.status, row.pricePaid, row.licenseKey, Some(payment))
  {
  }
}
