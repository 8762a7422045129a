/** Success and failure events of the attempt in charge may arrive in either order. */
module OutOfOrder {
  import opened Foundations
  import opened Schema
  import opened Allocation
  import opened Payments
  import opened Invariants
  import opened Transitions
  import opened Effects
  import opened Webhooks
  import opened History
  import opened Runs
  import opened Safety
  import opened Conservation
  import opened Guarantees

  predicate ReportsSuccess(event: Event) {
    && event.session.Some? && Successful(event.session.value.paymentStatus)
    && (event.kind.Completed? || event.kind.AsyncPaymentSucceeded?)
  }

  predicate ReportsFailure(event: Event) {
    event.session.Some? && (event.kind.AsyncPaymentFailed? || event.kind.SessionExpired?)
  }

  /** Two unrecorded events about the payment in charge of its order. */
  ghost predicate Conflicting(db: Database, success: Event, failure: Event, payment: PaymentId, order: OrderId) {
    && payment in db.payments && db.payments[payment].order == order && order in db.orders
    && db.orders[order].attempt == Some(payment)
    && success.id !in db.events && failure.id !in db.events && success.id != failure.id
    && ReportsSuccess(success) && ReportsFailure(failure)
    && ReferredPayment(db, success.session.value) == Ok(payment)
    && ReferredPayment(db, failure.session.value) == Ok(payment)
  }

  /** Every table agrees up to which keys the one order received. */
  ghost predicate SameUpToKeys(a: Database, b: Database, order: OrderId) {
    && order in a.orders && order in b.orders
    && a.orders[order := b.orders[order]] == b.orders
    && a.orders[order] == b.orders[order].(licenseKey := a.orders[order].licenseKey)
    && a == b.(orders := a.orders, keys := a.keys, assignments := a.assignments)
    && (forall product, status :: |KeysOf(a.keys, product, status)| == |KeysOf(b.keys, product, status)|)
  }

  /** No row, assignment or key of any other order differs. */
  ghost predicate UntouchedElsewhere(before: Database, after: Database, order: OrderId) {
    forall o <- before.orders | o != order ::
      && o in after.orders && after.orders[o] == before.orders[o]
      && HeldFor(after.assignments, after.items, o) == HeldFor(before.assignments, before.items, o)
      && forall k <- HeldFor(before.assignments, before.items, o) ::
           k in before.keys && k in after.keys && after.keys[k] == before.keys[k]
  }

  // ---------------------------------------------------------------- the payment stays referable

  lemma StillReferred(before: Database, after: Database, session: CheckoutSession, payment: PaymentId)
    requires ReferredPayment(before, session) == Ok(payment)
    requires payment in after.payments && after.payments[payment].order in after.orders
    requires after.payments[payment].provider == before.payments[payment].provider
    requires after.payments[payment].transactionId == before.payments[payment].transactionId
    ensures ReferredPayment(after, session) == Ok(payment)
  {
  }

  /** The keys a withdrawn order gives back are enough to sell to it again. */
  lemma FreedStockSuffices(db: Database, payment: PaymentId, order: OrderId)
    requires KeyStates(db.keys, db.assignments, db.items, db.orders) && Holdings(db.assignments, db.items, db.orders)
    requires payment in db.payments && db.payments[payment].order == order && order in db.orders
    requires db.orders[order].HoldsKeys()
    ensures var after := Withdrawn(db, payment);
            EnoughStock(after.keys, after.items, order, SalePool(after.keys))
  {
    var after := Withdrawn(db, payment);
    forall i | i in ItemsOf(db.items, order)
      ensures db.items[i].quantity <= |Stock(after.keys, SalePool(after.keys), db.items[i].product)|
    {
      FreedStock(db, payment, order, i);
      SubsetCount(HeldBy(db.assignments, i), Stock(after.keys, SalePool(after.keys), db.items[i].product));
    }
  }

  lemma FreedStock(db: Database, payment: PaymentId, order: OrderId, i: ItemId)
    requires KeyStates(db.keys, db.assignments, db.items, db.orders)
    requires payment in db.payments && db.payments[payment].order == order && order in db.orders
    requires i in ItemsOf(db.items, order)
    ensures var after := Withdrawn(db, payment);
            HeldBy(db.assignments, i) <= Stock(after.keys, SalePool(after.keys), db.items[i].product)
  {
  }

  // ---------------------------------------------------------------- the two orders of delivery

  lemma ChargeIsActive(db: Database, payment: PaymentId, order: OrderId)
    requires Inv(db) && order in db.orders && db.orders[order].attempt == Some(payment)
    ensures payment in db.payments && db.payments[payment].status.Active() && !db.orders[order].status.Paid?
  {
  }

  /** A success event that reaches completion. */
  lemma SuccessCompletes(db: Database, success: Event, payment: PaymentId)
    requires ReportsSuccess(success) && success.id !in db.events
    requires ReferredPayment(db, success.session.value) == Ok(payment)
    requires Complete(Record(db, success), payment).Ok?
    ensures Process(db, success) == Ok(Complete(Record(db, success), payment).value.db)
  {
    hide Complete, ReferredPayment, Successful;
    SameReference(db, success);
  }

  /** A failure event of an unpaid payment. */
  lemma FailureFails(db: Database, failure: Event, payment: PaymentId)
    requires ReportsFailure(failure) && failure.id !in db.events
    requires ReferredPayment(db, failure.session.value) == Ok(payment)
    requires payment in db.payments && db.payments[payment].order in db.orders
    ensures Process(db, failure)
         == if db.payments[payment].status.Paid? then Ok(Record(db, failure)) else Fail(Record(db, failure), payment)
  {
    hide Fail, ReferredPayment;
    SameReference(db, failure);
  }

  lemma SuccessFirst(db: Database, success: Event, failure: Event, payment: PaymentId, order: OrderId)
    requires Inv(db) && Conflicting(db, success, failure, payment, order) && !db.orders[order].status.Paid?
    ensures var paid := SettledFromReservation(Record(db, success), payment, db.payments[payment].amount);
            && Process(db, success) == Ok(paid)
            && Process(paid, failure) == Ok(Record(paid, failure)) && Inv(Record(paid, failure))
  {
    hide Inv, Complete, ReferredPayment, Successful, SetStatus, HeldFor, Process;
    var recorded := Record(db, success);
    var paid := SettledFromReservation(recorded, payment, db.payments[payment].amount);
    RecordKeepsInv(db, success);
    CompleteEffect(recorded, payment);
    SuccessCompletes(db, success, payment);
    StillReferred(db, paid, failure.session.value, payment);
    FailureFails(paid, failure, payment);
    RecordKeepsInv(paid, failure);
  }

  lemma FailureFirst(db: Database, success: Event, failure: Event, payment: PaymentId, order: OrderId)
    requires Inv(db) && Conflicting(db, success, failure, payment, order)
    requires !db.orders[order].status.Paid? && db.payments[payment].status.Active()
    ensures var failed := Withdrawn(Record(db, failure), payment);
            && Process(db, failure) == Ok(failed)
            && Process(failed, success) == Ok(SoldAgain(failed, success, payment, order))
            && Inv(SoldAgain(failed, success, payment, order))
  {
    hide Inv, Complete, Fail, ReferredPayment, Successful, SetStatus, HeldFor, Process, Withdrawn, EnoughStock;
    var recorded := Record(db, failure);
    var failed := Withdrawn(recorded, payment);
    RecordKeepsInv(db, failure);
    FailEffect(recorded, payment);
    FailureFails(db, failure, payment);
    WithdrawnRows(recorded, payment, order);
    StillReferred(db, failed, success.session.value, payment);
    WithdrawnCompletes(recorded, success, payment, order);
    SuccessCompletes(failed, success, payment);
  }

  lemma WithdrawnRows(db: Database, payment: PaymentId, order: OrderId)
    requires payment in db.payments && order in db.orders && db.payments[payment].order == order
    ensures var failed := Withdrawn(db, payment);
            && failed.payments == db.payments[payment := db.payments[payment].(status := Failed)]
            && failed.orders == db.orders[order := db.orders[order].(attempt := None)]
            && failed.events == db.events && failed.items == db.items
  {
  }

  lemma WithdrawnCompletes(db: Database, success: Event, payment: PaymentId, order: OrderId)
    requires Inv(db) && payment in db.payments && order in db.orders && db.payments[payment].order == order
    requires !db.orders[order].status.Paid? && db.payments[payment].status.Active() && db.orders[order].attempt == Some(payment)
    ensures var failed := Withdrawn(db, payment);
            && Complete(Record(failed, success), payment) == Ok(Completion(SoldAgain(failed, success, payment, order), false))
            && Inv(SoldAgain(failed, success, payment, order))
  {
    hide KeyStates, Holdings, Authority, Outcomes, Valued, Agreement, NonEmptyOrders, DirectItems, Delivered, Notified, UniqueProducts,
         PositiveQuantities, UniqueTransactions, CartRows, Sequences, Complete, SetStatus, HeldFor, EnoughStock, Claims, SalePool,
         ItemsOf, Withdrawn, SettledFromStock;
    var failed := Withdrawn(db, payment);
    WithdrawnKeepsInv(db, payment);
    WithdrawnRows(db, payment, order);
    FreedStockSuffices(db, payment, order);
    RecordKeepsInv(failed, success);
    CompleteEffect(Record(failed, success), payment);
  }

  /** The state after the late success: sold from free stock to the order of a failed payment. */
  ghost function SoldAgain(failed: Database, success: Event, payment: PaymentId, order: OrderId): Database
    requires payment in failed.payments && failed.payments[payment].order in failed.orders
  {
    var claims := Claims(failed.keys, failed.items, order, SalePool(failed.keys));
    SettledFromStock(Record(failed, success), payment, failed.payments[payment].amount, claims,
                     FirstClaim(Record(failed, success), order, claims))
  }

  // ---------------------------------------------------------------- comparing the outcomes

  lemma {:induction false} UnitsIgnoreDeliveredKey(
    items: map<ItemId, OrderItem>, a: map<OrderId, Order>, b: map<OrderId, Order>, product: ProductId, paid: bool, n: nat)
    requires a.Keys == b.Keys && forall o <- a :: a[o].status == b[o].status && a[o].attempt == b[o].attempt
    ensures Units(items, a, product, paid, n) == Units(items, b, product, paid, n)
  {
    if n > 0 {
      UnitsIgnoreDeliveredKey(items, a, b, product, paid, n - 1);
    }
  }

  /** Equal orders up to the delivered key, over the same stock, have equal key counts in every status. */
  lemma SameCounts(a: Database, b: Database, product: ProductId, status: KeyStatus)
    requires Inv(a) && Inv(b) && a.items == b.items && a.nextItem == b.nextItem && SameStock(a.keys, b.keys)
    requires a.orders.Keys == b.orders.Keys
    requires forall o <- a.orders :: a.orders[o].status == b.orders[o].status && a.orders[o].attempt == b.orders[o].attempt
    ensures |KeysOf(a.keys, product, status)| == |KeysOf(b.keys, product, status)|
  {
    hide Inv, KeysOf, Units, SameStock;
    NoOverselling(a, product);
    NoOverselling(b, product);
    UnitsIgnoreDeliveredKey(a.items, a.orders, b.orders, product, true, a.nextItem);
    UnitsIgnoreDeliveredKey(a.items, a.orders, b.orders, product, false, a.nextItem);
    StockCount(a.keys, b.keys, product);
    assert status in {Available, Reserved, Sold};
  }

  lemma SameRows(db: Database, success: Event, failure: Event, payment: PaymentId, order: OrderId)
    requires Conflicting(db, success, failure, payment, order) && !db.orders[order].status.Paid?
    requires db.orders[order].total == Some(db.payments[payment].amount)
    ensures var a := Record(SettledFromReservation(Record(db, success), payment, db.payments[payment].amount), failure);
            var b := SoldAgain(Withdrawn(Record(db, failure), payment), success, payment, order);
            && order in a.orders && order in b.orders
            && a.orders[order := b.orders[order]] == b.orders
            && a.orders[order] == b.orders[order].(licenseKey := a.orders[order].licenseKey)
            && a == b.(orders := a.orders, keys := a.keys, assignments := a.assignments)
            && SameStock(a.keys, b.keys) && a.orders.Keys == b.orders.Keys
            && a.orders[order].status.Paid? && payment in a.payments && a.payments[payment].status.Paid?
            && a.emails == db.emails + multiset{order}
  {
    hide Claims, SalePool, HeldFor, FirstClaim, ReferredPayment;
  }

  lemma ReservationSaleUntouched(db: Database, payment: PaymentId, order: OrderId, price: Money)
    requires KeyStates(db.keys, db.assignments, db.items, db.orders)
    requires payment in db.payments && order in db.orders && db.payments[payment].order == order
    ensures UntouchedElsewhere(db, SettledFromReservation(db, payment, price), order)
  {
  }

  lemma WithdrawnUntouched(db: Database, payment: PaymentId, order: OrderId)
    requires KeyStates(db.keys, db.assignments, db.items, db.orders)
    requires payment in db.payments && order in db.orders && db.payments[payment].order == order
    ensures UntouchedElsewhere(db, Withdrawn(db, payment), order)
  {
  }

  lemma StockSaleUntouched(
    db: Database, payment: PaymentId, order: OrderId, price: Money, claims: map<KeyId, ItemId>, firstKey: Option<KeyId>)
    requires KeyStates(db.keys, db.assignments, db.items, db.orders) && Covers(db.keys, db.items, order, claims)
    requires payment in db.payments && order in db.orders && db.payments[payment].order == order
    ensures UntouchedElsewhere(db, SettledFromStock(db, payment, price, claims, firstKey), order)
  {
    ClaimsAreUnassigned(db.keys, db.assignments, db.items, db.orders, order, claims);
  }

  lemma UntouchedTwice(a: Database, b: Database, c: Database, order: OrderId)
    requires UntouchedElsewhere(a, b, order) && UntouchedElsewhere(b, c, order)
    ensures UntouchedElsewhere(a, c, order)
  {
  }

  /** Deliver two events one after the other. */
  function DeliverBoth(db: Database, first: Event, second: Event): Result<Database, Error> {
    var between :- Process(db, first);
    Process(between, second)
  }

  ghost predicate SameOutcome(before: Database, a: Database, b: Database, payment: PaymentId, order: OrderId) {
    && SameUpToKeys(a, b, order)
    && a.orders[order].status.Paid? && payment in a.payments && a.payments[payment].status.Paid?
    && a.emails == before.emails + multiset{order}
    && UntouchedElsewhere(before, a, order) && UntouchedElsewhere(before, b, order)
  }

  /**
   * For the attempt in charge, delivering a success and a failure in either order raises nothing
   * and ends the same: order and payment paid, one more email, equal tables and key counts up to
   * the choice of this order's keys, and every other order untouched.
   */
  lemma DeliveryOrderDoesNotMatter(db: Database, success: Event, failure: Event, payment: PaymentId, order: OrderId)
    returns (a: Database, b: Database)
    requires Inv(db) && Conflicting(db, success, failure, payment, order)
    ensures DeliverBoth(db, success, failure) == Ok(a)
    ensures DeliverBoth(db, failure, success) == Ok(b)
    ensures SameOutcome(db, a, b, payment, order)
  {
    ChargeIsActive(db, payment, order);
    RowTotal(db.orders, db.payments, payment);
    a, b := BothOutcomes(db, success, failure, payment, order);
  }

  lemma BothOutcomes(db: Database, success: Event, failure: Event, payment: PaymentId, order: OrderId)
    returns (a: Database, b: Database)
    requires Inv(db) && Conflicting(db, success, failure, payment, order)
    requires db.payments[payment].status.Active() && !db.orders[order].status.Paid?
    requires db.orders[order].total == Some(db.payments[payment].amount)
    ensures DeliverBoth(db, success, failure) == Ok(a)
    ensures DeliverBoth(db, failure, success) == Ok(b)
    ensures SameOutcome(db, a, b, payment, order)
  {
    hide Inv, Process, SoldAgain, Withdrawn, SettledFromReservation, UntouchedElsewhere, ReferredPayment;
    SuccessFirst(db, success, failure, payment, order);
    FailureFirst(db, success, failure, payment, order);
    a := Record(SettledFromReservation(Record(db, success), payment, db.payments[payment].amount), failure);
    WithdrawnRows(Record(db, failure), payment, order);
    b := SoldAgain(Withdrawn(Record(db, failure), payment), success, payment, order);
    SameRows(db, success, failure, payment, order);
    SameCountsEverywhere(a, b);
    OthersUntouched(db, success, failure, payment, order);
  }

  lemma SameCountsEverywhere(a: Database, b: Database)
    requires Inv(a) && Inv(b) && a.items == b.items && a.nextItem == b.nextItem && SameStock(a.keys, b.keys)
    requires a.orders.Keys == b.orders.Keys
    requires forall o <- a.orders :: a.orders[o].status == b.orders[o].status && a.orders[o].attempt == b.orders[o].attempt
    ensures forall product, status :: |KeysOf(a.keys, product, status)| == |KeysOf(b.keys, product, status)|
  {
    hide Inv;
    forall product, status
      ensures |KeysOf(a.keys, product, status)| == |KeysOf(b.keys, product, status)|
    {
      SameCounts(a, b, product, status);
    }
  }

  lemma OthersUntouched(db: Database, success: Event, failure: Event, payment: PaymentId, order: OrderId)
    requires Inv(db) && Conflicting(db, success, failure, payment, order)
    requires !db.orders[order].status.Paid? && db.payments[payment].status.Active()
    ensures UntouchedElsewhere(db, Record(SettledFromReservation(Record(db, success), payment, db.payments[payment].amount), failure), order)
    ensures UntouchedElsewhere(db, SoldAgain(Withdrawn(Record(db, failure), payment), success, payment, order), order)
  {
    var failed := Withdrawn(Record(db, failure), payment);
    var claims := Claims(failed.keys, failed.items, order, SalePool(failed.keys));
    hide Holdings, Authority, Outcomes, Valued, Agreement, NonEmptyOrders, DirectItems, Delivered, Notified, KeyStates, UniqueProducts,
         PositiveQuantities, UniqueTransactions, CartRows, Sequences, SettledFromStock, SettledFromReservation, SalePool, Claims,
         EnoughStock, FirstClaim, Process, ReferredPayment, Withdrawn, UntouchedElsewhere, Covers, Successful;
    RecordKeepsInv(db, failure);
    WithdrawnKeepsInv(Record(db, failure), payment);
    WithdrawnRows(Record(db, failure), payment, order);
    RecordUntouched(db, success, failure, payment, order);
    FreedStockSuffices(Record(db, failure), payment, order);
    ClaimsCover(failed, order, SalePool(failed.keys));
    StockSaleUntouched(Record(failed, success), payment, order, failed.payments[payment].amount, claims,
                       FirstClaim(Record(failed, success), order, claims));
    UntouchedTwice(db, failed, SoldAgain(failed, success, payment, order), order);
  }

  /** Recording an event is invisible to orders and keys. */
  lemma RecordUntouched(db: Database, success: Event, failure: Event, payment: PaymentId, order: OrderId)
    requires KeyStates(db.keys, db.assignments, db.items, db.orders)
    requires payment in db.payments && order in db.orders && db.payments[payment].order == order
    ensures UntouchedElsewhere(db, Record(SettledFromReservation(Record(db, success), payment, db.payments[payment].amount), failure), order)
    ensures UntouchedElsewhere(db, Withdrawn(Record(db, failure), payment), order)
  {
    hide KeyStates, HeldFor;
    ReservationSaleUntouched(Record(db, success), payment, order, db.payments[payment].amount);
    WithdrawnUntouched(Record(db, failure), payment, order);
  }

  // ---------------------------------------------------------------- with anything in between

  /** An unrecorded event about a payment. */
  ghost predicate IsAbout(db: Database, event: Event, payment: PaymentId) {
    event.id !in db.events && event.session.Some? && ReferredPayment(db, event.session.value) == Ok(payment)
  }

  /** What an accepted delivery and any run after it are known to keep. */
  lemma Aftermath(w: World, event: Event, steps: seq<Step>)
    requires Sound(w) && Process(w.db, event).Ok?
    ensures var middle := Next(w, Deliver(event));
            && middle.db == Process(w.db, event).value
            && Inv(w.db) && Inv(middle.db) && Inv(Run(middle, steps).db) && Later(middle.db, Run(middle, steps).db)
  {
    hide Inv, Run, Process, Later;
    NextIsSound(w, Deliver(event));
    RunIsSound(Next(w, Deliver(event)), steps);
  }

  /**
   * A success was accepted, then anything happened, then a failure of the same payment arrives: it is
   * recorded and changes nothing else.
   */
  lemma SuccessThenFailure(w: World, success: Event, steps: seq<Step>, failure: Event, payment: PaymentId)
    requires Sound(w) && ReportsSuccess(success) && IsAbout(w.db, success, payment) && Process(w.db, success).Ok?
    requires ReportsFailure(failure) && IsAbout(Run(Next(w, Deliver(success)), steps).db, failure, payment)
    ensures var later := Run(Next(w, Deliver(success)), steps).db;
            Settled(later, payment) && Process(later, failure) == Ok(Record(later, failure))
  {
    hide Sound, Run, Next, Inv, Process, Settled, Later, IsAbout;
    var middle := Next(w, Deliver(success));
    Aftermath(w, success, steps);
    AcceptedSuccessSettles(w.db, success, payment);
    SettledPersists(middle.db, Run(middle, steps).db, payment);
    PaidFailure(Run(middle, steps).db, failure, payment);
  }

  lemma AcceptedSuccessSettles(db: Database, success: Event, payment: PaymentId)
    requires Inv(db) && ReportsSuccess(success) && IsAbout(db, success, payment) && Process(db, success).Ok?
    ensures Settled(Process(db, success).value, payment)
  {
    hide Inv, Complete, Fail, ReferredPayment, Settled;
    RecordKeepsInv(db, success);
    SameReference(db, success);
    ReferredExists(db, success.session.value);
    CompletionSucceedsIff(Record(db, success), payment);
  }

  lemma SettledPersists(before: Database, after: Database, payment: PaymentId)
    requires Inv(before) && Inv(after) && Later(before, after) && Settled(before, payment)
    ensures Settled(after, payment)
  {
    hide ItemsPersist, DeliveriesPersist;
  }

  lemma PaidFailure(db: Database, failure: Event, payment: PaymentId)
    requires ReportsFailure(failure) && IsAbout(db, failure, payment) && Settled(db, payment)
    ensures Process(db, failure) == Ok(Record(db, failure))
  {
    SettledExists(db, payment);
    hide ReferredPayment, Fail;
    FailureFails(db, failure, payment);
  }

  lemma SettledExists(db: Database, payment: PaymentId)
    requires Settled(db, payment)
    ensures payment in db.payments && db.payments[payment].order in db.orders
  {
  }

  /**
   * A failure was accepted, then anything happened, then a success of the same payment arrives: it is
   * accepted exactly when the order has been paid by this payment, or is unpaid with no attempt in
   * charge and enough free stock; order and payment are paid afterwards.
   */
  lemma FailureThenSuccess(w: World, failure: Event, steps: seq<Step>, success: Event, payment: PaymentId)
    requires Sound(w) && ReportsFailure(failure) && IsAbout(w.db, failure, payment) && Process(w.db, failure).Ok?
    requires ReportsSuccess(success) && IsAbout(Run(Next(w, Deliver(failure)), steps).db, success, payment)
    ensures var later := Run(Next(w, Deliver(failure)), steps).db;
            && (Process(later, success).Ok? <==> MayComplete(later, payment))
            && (MayComplete(later, payment) ==> Settled(Process(later, success).value, payment))
            && later.orders[later.payments[payment].order].attempt != Some(payment)
  {
    hide Sound, Run, Next, Inv, Process, Settled, Later, IsAbout, MayComplete, Ended;
    var middle := Next(w, Deliver(failure));
    var later := Run(middle, steps).db;
    Aftermath(w, failure, steps);
    AcceptedFailureEnds(w.db, failure, payment);
    EndedPersists(middle.db, later, payment);
    SuccessArrives(later, success, payment);
  }

  ghost predicate Ended(db: Database, payment: PaymentId) {
    payment in db.payments && !db.payments[payment].status.Active()
  }

  lemma AcceptedFailureEnds(db: Database, failure: Event, payment: PaymentId)
    requires Inv(db) && ReportsFailure(failure) && IsAbout(db, failure, payment) && Process(db, failure).Ok?
    ensures Ended(Process(db, failure).value, payment)
  {
    hide Inv, Fail, ReferredPayment;
    RecordKeepsInv(db, failure);
    SameReference(db, failure);
    ReferredExists(db, failure.session.value);
    FailEffect(Record(db, failure), payment);
    hide Process, Return, HeldFor;
    FailureFails(db, failure, payment);
  }

  lemma EndedPersists(before: Database, after: Database, payment: PaymentId)
    requires Inv(after) && Later(before, after) && Ended(before, payment)
    ensures Ended(after, payment)
    ensures after.payments[payment].order in after.orders && after.orders[after.payments[payment].order].attempt != Some(payment)
  {
    hide ItemsPersist, DeliveriesPersist, OrdersPersist;
    PaymentStanding(after.orders, after.payments, payment);
  }

  lemma SuccessArrives(db: Database, success: Event, payment: PaymentId)
    requires Inv(db) && ReportsSuccess(success) && IsAbout(db, success, payment)
    ensures Process(db, success).Ok? <==> MayComplete(db, payment)
    ensures Process(db, success).Ok? ==> Settled(Process(db, success).value, payment)
  {
    hide Inv, Complete, Fail, ReferredPayment, MayComplete, Settled;
    RecordKeepsInv(db, success);
    SameReference(db, success);
    ReferredExists(db, success.session.value);
    RecordedMayComplete(db, success, payment);
    CompletionSucceedsIff(Record(db, success), payment);
  }
}
