/** What the purchase engine promises its callers, in every reachable state. */
module Guarantees {
  import opened Foundations
  import opened Schema
  import opened Allocation
  import opened Payments
  import opened Invariants
  import opened Transitions
  import opened Effects
  import opened Carts
  import opened References
  import opened Webhooks
  import opened Runs
  import opened Safety

  // ---------------------------------------------------------------- defensive checks

  /** Errors that would report inconsistent data rather than a caller's mistake or lack of stock. */
  predicate Defensive(error: Error) {
    error in {ReservationInconsistent, ForeignPayment, ReservationOfAnotherPayment, PaymentCannotBeCompleted, AmountMismatch,
              NoAuthoritativeTotal, NoProductReference, PaidOrderCannotReserve, PaidOrderCannotRelease}
  }

  lemma CompletionErrors(db: Database, payment: PaymentId)
    requires Inv(db) && payment in db.payments
    ensures Complete(db, payment).Err? ==>
              Complete(db, payment).error in {PaymentStateInconsistent, PaymentNotAuthorized, NoKeysAvailable}
  {
    CompleteEffect(db, payment);
    CompletionCaseErrors(db, payment);
    hide Inv, Complete, CompletionCase;
  }

  lemma CompletionCaseErrors(db: Database, payment: PaymentId)
    requires payment in db.payments && db.payments[payment].order in db.orders
    ensures CompletionCase(db, payment).Err? ==>
              CompletionCase(db, payment).error in {PaymentStateInconsistent, PaymentNotAuthorized, NoKeysAvailable}
  {
    hide EnoughStock, Claims;
  }

  lemma OpeningErrors(db: Database, order: OrderId, given: Option<ProviderName>, settings: Settings, schedule: Schedule)
    requires Inv(db)
    ensures var create := OpenCreate(db, order, given, settings, schedule);
            create.Err? ==> create.error in {DoesNotExist, AlreadyPaid, PaymentInProgress, ProviderMisconfigured, NoKeysAvailable}
    ensures var pay := OpenPay(db, order, given, settings, schedule);
            pay.Err? ==> pay.error in {DoesNotExist, AlreadyPaid, StripeRequiresCheckout, ProviderMisconfigured, NoKeysAvailable}
  {
    OpenCreateEffect(db, order, given, settings, schedule);
    OpenPayEffect(db, order, given, settings, schedule);
    TotalsExist(db);
    OpeningCaseErrors(db, order, given, settings, schedule);
    hide OpenCreate, OpenPay, CreateCase, PayCase, KeyStates, Holdings, Outcomes, Valued, Agreement, NonEmptyOrders, DirectItems, Delivered,
         Notified, UniqueProducts, PositiveQuantities, UniqueTransactions, CartRows, Sequences, Authority;
  }

  lemma OpeningCaseErrors(db: Database, order: OrderId, given: Option<ProviderName>, settings: Settings, schedule: Schedule)
    requires Authority(db.orders, db.payments) && forall o <- db.orders :: db.orders[o].total.Some?
    ensures var create := CreateCase(db, order, given, settings, schedule);
            create.Err? ==> create.error in {DoesNotExist, AlreadyPaid, PaymentInProgress, ProviderMisconfigured, NoKeysAvailable}
    ensures var pay := PayCase(db, order, given, settings, schedule);
            pay.Err? ==> pay.error in {DoesNotExist, AlreadyPaid, StripeRequiresCheckout, ProviderMisconfigured, NoKeysAvailable}
  {
    hide EnoughStock, Claims;
  }

  lemma TotalsExist(db: Database)
    requires Inv(db)
    ensures forall o <- db.orders :: db.orders[o].total.Some?
  {
  }

  /** From a clean start no step of any run raises one of the defensive errors. */
  lemma DefensiveChecksNeverFire(w: World, step: Step)
    requires Sound(w) && Transact(w, step).Err?
    ensures !Defensive(Transact(w, step).error)
    ensures Transact(w, step).error == IntegrityError ==> step.StoreReply? || step.AddToCart? || step.WithdrawKey?
  {
    var db := w.db;
    hide Inv, OpenCreate, OpenPay, Complete, Fail, ParseReference, Snapshot, CartTotal, RowsOf, CheckoutRow, Withdrawable,
         FirstIds, RowsFor, PhaseSound;
    match step
    case StartCreate(_, order, given, settings, schedule) => OpeningErrors(db, order, given, settings, schedule);
    case StartPay(_, order, given, settings, schedule) => OpeningErrors(db, order, given, settings, schedule);
    case UndoOpening(id) =>
      if id in w.phases && w.phases[id].payment in db.payments { FailEffect(db, w.phases[id].payment); }
    case FinishPayment(id) =>
      if id in w.phases && w.phases[id].payment in db.payments {
        FailEffect(db, w.phases[id].payment);
        CompletionErrors(db, w.phases[id].payment);
      }
    case Deliver(event) =>
      RecordKeepsInv(db, event);
      if event.session.Some? && ReferredPayment(db, event.session.value).Ok? {
        FailEffect(Record(db, event), ReferredPayment(db, event.session.value).value);
        CompletionErrors(Record(db, event), ReferredPayment(db, event.session.value).value);
      }
    case _ =>
  }

  /**
   * The database rejects nothing but inputs: a provider reference that another payment has, a cart
   * quantity below one, and the withdrawal of a key that is sold, assigned or delivered.
   */
  lemma OnlyInputsAreRejected(w: World, step: Step)
    requires Sound(w) && Transact(w, step) == Err(IntegrityError)
    ensures match step
            case StoreReply(id) =>
              && id in w.phases && w.phases[id].Storing?
              && exists q <- w.db.payments ::
                   q != w.phases[id].payment && w.db.payments[q].transactionId == Some(w.phases[id].reference)
            case AddToCart(user, product, quantity) => Quantity(w.db.cart, user, product) + quantity < 1
            case WithdrawKey(key) => !Withdrawable(w.db, key)
            case _ => false
  {
    DefensiveChecksNeverFire(w, step);
    hide Inv, Withdrawable;
  }

  // ---------------------------------------------------------------- authority

  /** Every item holds exactly its quantity of sold keys of its own product. */
  ghost predicate FullySold(db: Database, order: OrderId) {
    forall i <- ItemsOf(db.items, order) ::
      && |HeldBy(db.assignments, i)| == db.items[i].quantity
      && forall k <- HeldBy(db.assignments, i) :: k in db.keys && db.keys[k] == LicenseKey(db.items[i].product, Sold)
  }

  /**
   * The standing of an order. Unpaid: it has an active payment, names one as its attempt, and has
   * every item fully reserved, all or none of these, and the active payment is the named one; with
   * none of them it holds no key. Paid: no attempt, no active payment, one paid payment, all sold.
   */
  ghost predicate Consistent(db: Database, order: OrderId)
    requires order in db.orders
  {
    var row := db.orders[order];
    var active := ActivePayments(db.payments, order);
    if row.status.Paid? then row.attempt == None && active == {} && |PaidPayments(db.payments, order)| == 1 && FullySold(db, order)
    else
      && active == (if row.attempt.Some? then {row.attempt.value} else {})
      && (row.attempt.Some? <==> FullyReserved(db.keys, db.items, db.assignments, order))
      && (row.attempt.None? <==> HeldFor(db.assignments, db.items, order) == {})
      && PaidPayments(db.payments, order) == {}
  }

  lemma OrderIsConsistent(db: Database, order: OrderId)
    requires Inv(db) && order in db.orders
    ensures Consistent(db, order)
  {
    hide Valued, Agreement, Delivered, Notified, UniqueProducts, UniqueTransactions, CartRows, Sequences, Authority, FullyReserved,
         HeldFor, FullySold, KeyStates, Holdings, NonEmptyOrders, PositiveQuantities;
    ActiveIsAttempt(db.orders, db.payments, order);
    OrderHasItems(db.orders, db.items, order);
    if db.orders[order].status.Paid? {
      PaidHasNoAttempt(db.orders, db.payments, order);
      PaidIsSold(db, order);
    } else if db.orders[order].attempt.Some? {
      OrderHoldsReservation(db, order);
      assert LockedReservation(db.keys, db.items, db.assignments, order).Ok?;
    } else {
      OrderHoldsNothing(db, order);
      NothingIsNotReserved(db, order);
    }
  }

  lemma PaidHasNoAttempt(orders: map<OrderId, Order>, payments: map<PaymentId, Payment>, order: OrderId)
    requires Authority(orders, payments) && order in orders && orders[order].status.Paid?
    ensures orders[order].attempt == None
  {
  }

  lemma PaidIsSold(db: Database, order: OrderId)
    requires KeyStates(db.keys, db.assignments, db.items, db.orders) && Holdings(db.assignments, db.items, db.orders)
    requires order in db.orders && db.orders[order].status.Paid?
    ensures FullySold(db, order)
  {
  }

  lemma NothingIsNotReserved(db: Database, order: OrderId)
    requires HeldFor(db.assignments, db.items, order) == {}
    requires ItemsOf(db.items, order) != {} && PositiveQuantities(db.items)
    ensures !FullyReserved(db.keys, db.items, db.assignments, order)
  {
    var i :| i in ItemsOf(db.items, order);
    assert forall k <- HeldBy(db.assignments, i) :: k in HeldFor(db.assignments, db.items, order);
    assert HeldBy(db.assignments, i) == {};
  }

  /** Every order is consistent after every run of the shop. */
  lemma OrdersStayConsistent(steps: seq<Step>, order: OrderId)
    requires order in Run(START, steps).db.orders
    ensures Consistent(Run(START, steps).db, order)
  {
    hide Consistent, Inv, Run;
    ReachableStatesAreSound(steps);
    OrderIsConsistent(Run(START, steps).db, order);
  }

  // ---------------------------------------------------------------- when a confirmed payment completes

  /**
   * The order is already paid by this very payment, or it is unpaid and either this payment is in
   * charge of its reservation, or nobody is and the free stock still covers every item.
   */
  predicate MayComplete(db: Database, payment: PaymentId) {
    && payment in db.payments && db.payments[payment].order in db.orders
    && var order := db.payments[payment].order;
       var row := db.orders[order];
       if row.status.Paid? then db.payments[payment].status.Paid?
       else row.attempt == Some(payment) || (row.attempt == None && EnoughStock(db.keys, db.items, order, SalePool(db.keys)))
  }

  /** The exact condition under which a success completes; it then leaves order and payment paid. */
  lemma CompletionSucceedsIff(db: Database, payment: PaymentId)
    requires Inv(db) && payment in db.payments && db.payments[payment].order in db.orders
    ensures Complete(db, payment).Ok? <==> MayComplete(db, payment)
    ensures Complete(db, payment).Ok? ==> Settled(Complete(db, payment).value.db, payment)
  {
    hide Inv, Complete, EnoughStock, Claims, SalePool, FirstClaim, HeldFor, SetStatus;
    CompleteEffect(db, payment);
  }

  ghost predicate Settled(db: Database, payment: PaymentId) {
    && payment in db.payments && db.payments[payment].status.Paid?
    && db.payments[payment].order in db.orders && db.orders[db.payments[payment].order].status.Paid?
  }

  // ---------------------------------------------------------------- deliveries

  /** An event asks for nothing, or refers to a known Stripe payment and, if a success, that payment may complete. */
  predicate MayDeliver(db: Database, event: Event) {
    event.id in db.events || event.session == None
    || (&& ReferredPayment(db, event.session.value).Ok?
        && match event.kind
           case Unrecognised => false
           case Completed | AsyncPaymentSucceeded =>
             Successful(event.session.value.paymentStatus) ==> MayComplete(db, ReferredPayment(db, event.session.value).value)
           case AsyncPaymentFailed | SessionExpired => true)
  }

  /** The exact condition under which a delivery is accepted rather than rolled back for a retry. */
  lemma DeliverySucceedsIff(db: Database, event: Event)
    requires Inv(db)
    ensures Process(db, event).Ok? <==> MayDeliver(db, event)
  {
    hide Inv, Complete, Fail, Successful, MayComplete, ReferredPayment;
    RecordKeepsInv(db, event);
    if event.session.Some? && ReferredPayment(db, event.session.value).Ok? {
      SameReference(db, event);
      ReferredExists(db, event.session.value);
      var payment := ReferredPayment(db, event.session.value).value;
      CompletionSucceedsIff(Record(db, event), payment);
      RecordedMayComplete(db, event, payment);
      FailEffect(Record(db, event), payment);
    } else if event.session.Some? {
      SameReference(db, event);
    }
  }

  lemma RecordedMayComplete(db: Database, event: Event, payment: PaymentId)
    ensures MayComplete(Record(db, event), payment) <==> MayComplete(db, payment)
  {
    hide EnoughStock, SalePool;
  }

  /** While another attempt is in charge, a success is rejected and a failure changes nothing at all. */
  lemma StaleAttemptsArePowerless(db: Database, payment: PaymentId, other: PaymentId)
    requires Inv(db) && payment in db.payments && other != payment
    requires db.payments[payment].order in db.orders && db.orders[db.payments[payment].order].attempt == Some(other)
    ensures Complete(db, payment) == Err(PaymentNotAuthorized)
    ensures Fail(db, payment) == Ok(db)
  {
    PaymentStanding(db.orders, db.payments, payment);
    AttemptOfUnpaid(db.orders, db.payments, db.payments[payment].order);
    CompleteEffect(db, payment);
    FailEffect(db, payment);
    hide Inv, Complete, Fail, EnoughStock, Claims, SalePool;
  }

  lemma AttemptOfUnpaid(orders: map<OrderId, Order>, payments: map<PaymentId, Payment>, order: OrderId)
    requires Authority(orders, payments) && order in orders && orders[order].attempt.Some?
    ensures !orders[order].status.Paid?
  {
  }

  /** The same through the webhook: a stale failure only records its event, a stale success is not even recorded. */
  lemma StaleEventsArePowerless(db: Database, event: Event, payment: PaymentId, other: PaymentId)
    requires Inv(db) && event.id !in db.events && event.session.Some?
    requires ReferredPayment(db, event.session.value) == Ok(payment) && other != payment
    requires db.orders[db.payments[payment].order].attempt == Some(other)
    ensures Process(db, event).Ok? ==> Process(db, event).value == Record(db, event)
    ensures (event.kind.Completed? || event.kind.AsyncPaymentSucceeded?) && Successful(event.session.value.paymentStatus)
            ==> Process(db, event) == Err(PaymentNotAuthorized)
  {
    hide Inv, Complete, Fail, Successful;
    RecordKeepsInv(db, event);
    StaleAttemptsArePowerless(Record(db, event), payment, other);
  }

  // ---------------------------------------------------------------- reservation

  /**
   * A reservation run alone on an unpaid order without attempt: it succeeds exactly when the
   * unlocked stock covers every item. It then gives each item exactly its quantity of keys of its
   * product, all reserved, never passes over a lower id, and touches no other key or assignment.
   */
  lemma ReservationIsExact(db: Database, order: OrderId, locked: set<KeyId>)
    requires Inv(db) && order in db.orders && !db.orders[order].HoldsKeys()
    ensures var pool := ReservationPool(db.keys, db.assignments, locked);
            var result := Reserve(db, order, locked);
            && (result.Ok? <==> forall i <- ItemsOf(db.items, order) ::
                  db.items[i].quantity <= |Stock(db.keys, pool, db.items[i].product)|)
            && (result.Err? ==> result.error == NoKeysAvailable)
            && (result.Ok? ==> ReservedExactly(db, result.value, order, pool))
  {
    var pool := ReservationPool(db.keys, db.assignments, locked);
    TotalsExist(db);
    InvIsStocked(db, order);
    ReserveEffect(db, order, locked);
    if EnoughStock(db.keys, db.items, order, pool) {
      GrantIsExact(db, order, pool);
    }
    hide Inv, Reserve, ReservedExactly;
  }

  ghost predicate ReservedExactly(before: Database, after: Database, order: OrderId, pool: set<KeyId>) {
    && after == before.(keys := after.keys, assignments := after.assignments)
    && after.keys.Keys == before.keys.Keys
    && (forall i <- ItemsOf(before.items, order) :: |HeldBy(after.assignments, i)| == before.items[i].quantity)
    && (forall k <- before.assignments :: k in after.assignments && after.assignments[k] == before.assignments[k])
    && (forall k <- before.keys | k !in after.assignments || k in before.assignments :: after.keys[k] == before.keys[k])
    && (forall k <- after.assignments | k !in before.assignments ::
          && k in pool && k in before.keys && after.assignments[k] in ItemsOf(before.items, order)
          && after.keys[k] == LicenseKey(before.items[after.assignments[k]].product, Reserved)
          && before.keys[k].product == after.keys[k].product)
    && (forall k, other | k in after.assignments && k !in before.assignments && other in pool && other !in after.assignments
          && k in before.keys && other in before.keys && before.keys[other].product == before.keys[k].product :: k < other)
  }

  lemma GrantIsExact(db: Database, order: OrderId, pool: set<KeyId>)
    requires KeyStates(db.keys, db.assignments, db.items, db.orders) && Holdings(db.assignments, db.items, db.orders)
    requires UniqueProducts(db.items) && order in db.orders && !db.orders[order].HoldsKeys()
    requires pool <= SalePool(db.keys) && EnoughStock(db.keys, db.items, order, pool)
    ensures ReservedExactly(db, Grant(db, Claims(db.keys, db.items, order, pool), Reserved), order, pool)
  {
    hide KeyStates, Holdings, Claims, EnoughStock, Covers, HeldBy, SalePool, UniqueProducts;
    var claims := Claims(db.keys, db.items, order, pool);
    ClaimsMeetDemand(db.keys, db.items, order, pool);
    ClaimsCover(db, order, pool);
    ClaimsAreUnassigned(db.keys, db.assignments, db.items, db.orders, order, claims);
    assert claims.Keys <= pool;
    GrantedHoldings(db, order, claims);
  }

  lemma GrantedHoldings(db: Database, order: OrderId, claims: map<KeyId, ItemId>)
    requires Holdings(db.assignments, db.items, db.orders) && order in db.orders && !db.orders[order].HoldsKeys()
    requires claims.Keys !! db.assignments.Keys
    requires forall i <- ItemsOf(db.items, order) :: |HeldBy(claims, i)| == db.items[i].quantity
    ensures forall i <- ItemsOf(db.items, order) :: |HeldBy(db.assignments + claims, i)| == db.items[i].quantity
  {
    forall i | i in ItemsOf(db.items, order)
      ensures |HeldBy(db.assignments + claims, i)| == db.items[i].quantity
    {
      HeldByUnion(db.assignments, claims, i);
    }
  }

  // ---------------------------------------------------------------- opening an attempt

  predicate StockCovers(db: Database, order: OrderId, locked: set<KeyId>) {
    EnoughStock(db.keys, db.items, order, ReservationPool(db.keys, db.assignments, locked))
  }

  /**
   * The exact conditions under which the drivers open. `create_payment`: the order is unpaid, has no
   * attempt in charge, a provider can be used and the unlocked stock covers every item. `pay_order`
   * the same without Stripe, or, with an attempt in charge, iff that attempt's provider can be used;
   * resuming never needs stock.
   */
  lemma OpeningSucceedsIff(db: Database, order: OrderId, given: Option<ProviderName>, settings: Settings, schedule: Schedule)
    requires Inv(db)
    ensures OpenCreate(db, order, given, settings, schedule).Ok? <==> MayCreate(db, order, given, settings, schedule.locked)
    ensures OpenPay(db, order, given, settings, schedule).Ok? <==> MayPay(db, order, given, settings, schedule.locked)
  {
    hide KeyStates, Holdings, Outcomes, Valued, Agreement, NonEmptyOrders, DirectItems, Delivered, Notified, UniqueProducts,
         PositiveQuantities, UniqueTransactions, CartRows, Sequences, Authority, OpenCreate, OpenPay, CreateCase, PayCase,
         MayCreate, MayPay;
    OpenCreateEffect(db, order, given, settings, schedule);
    OpenPayEffect(db, order, given, settings, schedule);
    TotalsExist(db);
    CasesSucceedIff(db, order, given, settings, schedule);
  }

  predicate MayCreate(db: Database, order: OrderId, given: Option<ProviderName>, settings: Settings, locked: set<KeyId>) {
    && order in db.orders && !db.orders[order].HoldsKeys()
    && (given.Some? || settings.selected == Local || (settings.selected == Stripe && settings.stripeReady))
    && StockCovers(db, order, locked)
  }

  predicate MayPay(db: Database, order: OrderId, given: Option<ProviderName>, settings: Settings, locked: set<KeyId>) {
    && order in db.orders && !db.orders[order].status.Paid?
    && if db.orders[order].attempt.Some? then
         db.orders[order].attempt.value in db.payments && MayResume(db.payments[db.orders[order].attempt.value], given, settings)
       else
         && (given != Some(Stripe) && (given.Some? || settings.selected == Local))
         && StockCovers(db, order, locked)
  }

  /** An attempt with a stored reference needs its own provider, one without takes the provider at hand. */
  predicate MayResume(payment: Payment, given: Option<ProviderName>, settings: Settings) {
    if payment.transactionId.Some? && payment.transactionId.value != "" then
      if given.Some? then given == payment.provider
      else payment.provider == Some(Local) || (payment.provider == Some(Stripe) && settings.stripeReady)
    else given.Some? || settings.selected == Local || (settings.selected == Stripe && settings.stripeReady)
  }

  lemma CasesSucceedIff(db: Database, order: OrderId, given: Option<ProviderName>, settings: Settings, schedule: Schedule)
    requires Authority(db.orders, db.payments) && forall o <- db.orders :: db.orders[o].total.Some?
    ensures CreateCase(db, order, given, settings, schedule).Ok? <==> MayCreate(db, order, given, settings, schedule.locked)
    ensures PayCase(db, order, given, settings, schedule).Ok? <==> MayPay(db, order, given, settings, schedule.locked)
  {
    hide EnoughStock, Claims, ReservationPool, Opened;
  }

  // ---------------------------------------------------------------- resuming and retrying

  /** Whatever was interrupted, `pay_order` on an order with an attempt in charge resumes that attempt and writes nothing. */
  lemma PayOrderResumes(db: Database, order: OrderId, given: Option<ProviderName>, settings: Settings, schedule: Schedule)
    requires Inv(db) && order in db.orders && db.orders[order].attempt.Some?
    ensures var opening := OpenPay(db, order, given, settings, schedule);
            opening.Ok? ==> opening.value.db == db && opening.value.payment == db.orders[order].attempt.value
    ensures OpenCreate(db, order, given, settings, schedule) == Err(PaymentInProgress)
  {
    OpenPayEffect(db, order, given, settings, schedule);
    OpenCreateEffect(db, order, given, settings, schedule);
    AttemptOfUnpaid(db.orders, db.payments, order);
    TotalsExist(db);
    hide Inv, OpenPay, OpenCreate, FreshOpening;
  }

  /** Over a whole run, two provider requests agree on key and amount exactly when they are for the same attempt. */
  lemma ProviderCallsAreIdempotent(w: World, a: nat, b: nat)
    requires Sound(w) && a < |w.calls| && b < |w.calls|
    ensures w.calls[a].payment == w.calls[b].payment <==> w.calls[a].key == w.calls[b].key
    ensures w.calls[a].payment == w.calls[b].payment ==> w.calls[a] == w.calls[b]
  {
    assert w.calls[a] in w.calls && w.calls[b] in w.calls;
    assert CallSound(w.db, w.calls[a]) && CallSound(w.db, w.calls[b]);
    hide Inv, Print;
    if w.calls[a].key == w.calls[b].key {
      SamePrefix("payment-", Print(w.calls[a].payment), Print(w.calls[b].payment));
      PrintInjective(w.calls[a].payment, w.calls[b].payment);
    }
  }

  // ---------------------------------------------------------------- money

  /** In every reachable state all records of what a paid order cost agree. */
  lemma MoneyAgrees(db: Database, order: OrderId)
    requires Inv(db) && order in db.orders && db.orders[order].status.Paid?
    ensures exists p :: PaidPayments(db.payments, order) == {p}
              && db.orders[order].pricePaid == Some(db.payments[p].amount)
              && db.orders[order].total == Some(db.payments[p].amount)
              && db.payments[p].amount == OrderValue(db.items, order, db.nextItem)
  {
    hide KeyStates, Holdings, Authority, Outcomes, NonEmptyOrders, DirectItems, Delivered, Notified, UniqueProducts,
         PositiveQuantities, UniqueTransactions, CartRows, Sequences, OrderValue;
    var p := OnlyPaidPayment(db.orders, db.payments, order);
  }

  lemma OnlyPaidPayment(orders: map<OrderId, Order>, payments: map<PaymentId, Payment>, order: OrderId) returns (p: PaymentId)
    requires Outcomes(orders, payments) && order in orders && orders[order].status.Paid?
    ensures PaidPayments(payments, order) == {p}
  {
    var paid := PaidPayments(payments, order);
    assert |paid| == 1;
    p :| p in paid;
    SubsetEqual({p}, paid);
  }

  // ---------------------------------------------------------------- duplicated deliveries

  /** A recorded event delivered again at any point is no step at all. */
  lemma RedeliveryIsNoStep(w: World, event: Event)
    requires event.id in w.db.events
    ensures Next(w, Deliver(event)) == w
  {
  }

  /** Inserting a second delivery of a processed event anywhere later leaves the whole run as it was. */
  lemma DuplicatesAreHarmless(w: World, first: seq<Step>, event: Event, between: seq<Step>, rest: seq<Step>)
    requires Sound(w) && Process(Run(w, first).db, event).Ok?
    ensures var delivered := first + [Deliver(event)] + between;
            Run(w, delivered + [Deliver(event)] + rest) == Run(w, delivered + rest)
  {
    var delivered := first + [Deliver(event)] + between;
    var middle := Run(w, first + [Deliver(event)]);
    assert (first + [Deliver(event)])[..|first|] == first;
    ProcessedOnce(Run(w, first).db, event);
    assert event.id in middle.db.events;
    RunIsSound(w, first + [Deliver(event)]);
    RunIsSound(middle, between);
    RunsCompose(w, first + [Deliver(event)], between);
    var again := delivered + [Deliver(event)];
    assert again[..|delivered|] == delivered;
    RedeliveryIsNoStep(Run(w, delivered), event);
    RunsCompose(w, again, rest);
    RunsCompose(w, delivered, rest);
  }

  /** A delivery that raises leaves everything, the event table included, as it was. */
  lemma FailedDeliveryIsNoStep(w: World, event: Event)
    requires Process(w.db, event).Err?
    ensures Next(w, Deliver(event)) == w
  {
  }

  lemma AuthorityHolds(db: Database)
    requires Inv(db)
    ensures Authority(db.orders, db.payments)
  {
  }
}
