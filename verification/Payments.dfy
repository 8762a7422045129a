/** The payment transactions: authority, termination, completion, and the phases of the two drivers. */
module Payments {
  import opened Foundations
  import opened Schema
  import opened Allocation

  // ---------------------------------------------------------------- authority

  /** `authorize_order_reservation`. */
  function Authorize(db: Database, order: OrderId, payment: PaymentId): Result<Database, Error>
    requires order in db.orders && payment in db.payments
  {
    var row := db.orders[order];
    if db.payments[payment].order != order then Err(ForeignPayment)
    else if row.attempt != None && row.attempt != Some(payment) then Err(ReservationOfAnotherPayment)
    else Ok(db.(orders := db.orders[order := row.(attempt := Some(payment))]))
  }

  predicate Unsuccessful(status: PaymentStatus) {
    status.Failed? || status.Cancelled? || status.Expired?
  }

  /** The order's keys are released, and no attempt has authority over it any more. */
  function GiveUp(db: Database, order: OrderId): Result<Database, Error>
    requires order in db.orders
  {
    var released :- Release(db, order);
    Ok(released.(orders := released.orders[order := db.orders[order].(attempt := None)]))
  }

  /** `terminate_payment`. */
  function Terminate(db: Database, order: OrderId, payment: PaymentId, status: PaymentStatus): Result<Database, Error>
    requires order in db.orders && payment in db.payments
  {
    if !Unsuccessful(status) then Err(ValueError)
    else if db.payments[payment].status.Paid? then Ok(db)
    else
      var marked := db.(payments := db.payments[payment := db.payments[payment].(status := status)]);
      var attempt := db.orders[order].attempt;
      if db.orders[order].status.Paid? then Ok(marked)
      else if attempt == None || attempt == Some(payment) then
        GiveUp(marked, order)
      else Ok(marked)
  }

  function Fail(db: Database, payment: PaymentId): Result<Database, Error>
    requires payment in db.payments && db.payments[payment].order in db.orders
  {
    Terminate(db, db.payments[payment].order, payment, Failed)
  }

  // ---------------------------------------------------------------- completion

  function Products(items: map<ItemId, OrderItem>, order: OrderId): set<ProductId> {
    set i | i in items && items[i].order == order :: items[i].product
  }

  datatype Fulfilment = Fulfilment(db: Database, firstKey: Option<KeyId>)

  /**
   * `_fulfil_order`. `firstKey` is the first key of the returned list: the lowest id of a
   * reservation, or the lowest id taken for the item that comes first by product.
   */
  function Fulfil(db: Database, order: OrderId, requireReservation: bool): (r: Result<Fulfilment, Error>)
    ensures r.Ok? ==> r.value.db == db.(keys := r.value.db.keys, assignments := r.value.db.assignments)
  {
    if ItemsOf(db.items, order) == {} then Err(NoProductReference)
    else
      var held :- LockedReservation(db.keys, db.items, db.assignments, order);
      if held != {} then
        Ok(Fulfilment(db.(keys := SetStatus(db.keys, held, Sold)), Some(Least(held))))
      else if requireReservation then Err(ReservationInconsistent)
      else if !EnoughStock(db.keys, db.items, order, SalePool(db.keys)) then Err(NoKeysAvailable)
      else
        var claims := Claims(db.keys, db.items, order, SalePool(db.keys));
        if claims.Keys !! db.assignments.Keys then
          Ok(Fulfilment(Grant(db, claims, Sold), FirstClaim(db, order, claims)))
        else Err(IntegrityError)
  }

  function FirstProduct(items: map<ItemId, OrderItem>, order: OrderId): ProductId {
    if Products(items, order) == {} then 0 else Least(Products(items, order))
  }

  /** The key a direct order would record first when it is sold from free stock. */
  function FirstClaim(db: Database, order: OrderId, claims: map<KeyId, ItemId>): Option<KeyId> {
    var first := Stock(db.keys, claims.Keys, FirstProduct(db.items, order));
    if first == {} then None else Some(Least(first))
  }

  /** Another order already refers to this key in its one-to-one `license_key` column. */
  predicate KeyTaken(db: Database, order: OrderId, key: Option<KeyId>) {
    key.Some? && exists o <- db.orders :: o != order && db.orders[o].licenseKey == key
  }

  datatype Completion = Completion(db: Database, alreadyCompleted: bool)

  /** The order and payment rows written by a completion, and its queued email. */
  function Settle(db: Database, order: OrderId, payment: PaymentId, price: Money, firstKey: Option<KeyId>): Database
    requires order in db.orders && payment in db.payments
  {
    var row := db.orders[order];
    db.(
      orders := db.orders[order := row.(
          licenseKey := if row.source.Direct? then firstKey else row.licenseKey,
          status := OrderStatus.Paid,
          pricePaid := Some(price),
          attempt := None)],
      payments := db.payments[payment := db.payments[payment].(status := PaymentStatus.Paid)],
      emails := db.emails + multiset{order})
  }

  /** The part of a completion after its checks: fulfil the items, then write order and payment. */
  function Conclude(db: Database, order: OrderId, payment: PaymentId, price: Money): Result<Completion, Error>
    requires order in db.orders && payment in db.payments
  {
    var row := db.orders[order];
    var ready :- EnsureItems(db, order, price);
    var fulfilled :- Fulfil(ready, order, row.attempt.Some?);
    if row.source.Direct? && KeyTaken(ready, order, fulfilled.firstKey) then Err(IntegrityError)
    else Ok(Completion(Settle(fulfilled.db, order, payment, price, fulfilled.firstKey), false))
  }

  /** `complete_payment`. */
  function Complete(db: Database, payment: PaymentId): Result<Completion, Error> {
    if payment !in db.payments || db.payments[payment].order !in db.orders then Err(DoesNotExist)
    else
      var order := db.payments[payment].order;
      var row := db.orders[order];
      var status := db.payments[payment].status;
      if row.status.Paid? && status.Paid? then Ok(Completion(db, true))
      else if row.status.Paid? then Err(PaymentStateInconsistent)
      else if !status.Active() && !status.Failed? then Err(PaymentCannotBeCompleted)
      else
        var price :- PayableTotal(db, order);
        if db.payments[payment].amount != price then Err(AmountMismatch)
        else if row.attempt != None && row.attempt != Some(payment) then Err(PaymentNotAuthorized)
        else Conclude(db, order, payment, price)
  }

  // ---------------------------------------------------------------- opening an attempt

  /** The configured default provider, if its name is supported, and whether Stripe is set up. */
  datatype Settings = Settings(selected: ProviderName, stripeReady: bool)

  /** Whether `get_payment_provider(name)` returns instead of raising `ImproperlyConfigured`. */
  predicate Usable(settings: Settings, name: ProviderName) {
    name.Local? || (name.Stripe? && settings.stripeReady)
  }

  /** The injected provider, or the configured one. */
  function ChooseProvider(given: Option<ProviderName>, settings: Settings): Result<ProviderName, Error> {
    if given.Some? then Ok(given.value)
    else if Usable(settings, settings.selected) then Ok(settings.selected)
    else Err(ProviderMisconfigured)
  }

  /** A payment attempt whose first transaction has committed. */
  datatype Opening = Opening(
    db: Database,
    payment: PaymentId,
    amount: Money,
    provider: ProviderName,
    createdItem: Option<ItemId>)

  /**
   * What concurrency decides for an opening transaction: the keys others have locked, and the id
   * its payment row has drawn, which need not be the next one when others drew ids before it.
   */
  datatype Schedule = Schedule(locked: set<KeyId>, drawn: PaymentId)

  /** The id of the new payment: the drawn one, or the next of the sequence if the drawn id is in use. */
  function NewId(db: Database, schedule: Schedule): PaymentId {
    if schedule.drawn in db.payments then db.nextPayment else schedule.drawn
  }

  function InsertPayment(db: Database, payment: PaymentId, order: OrderId, provider: Option<ProviderName>, amount: Money): Database {
    db.(
      payments := db.payments[payment := Payment(order, PaymentStatus.Created, provider, None, amount)],
      nextPayment := if payment < db.nextPayment then db.nextPayment else payment + 1)
  }

  /** The item added by `EnsureItems`, if it added one. */
  function AddedItem(before: Database, after: Database, order: OrderId): Option<ItemId> {
    if ItemsOf(before.items, order) == {} && ItemsOf(after.items, order) != {}
    then Some(Least(ItemsOf(after.items, order)))
    else None
  }

  /** Reserve and authorize: the two calls every opening transaction makes together. */
  function ReserveFor(db: Database, order: OrderId, payment: PaymentId, locked: set<KeyId>): Result<Database, Error>
    requires payment in db.payments
  {
    var holding :- Reserve(db, order, locked);
    Authorize(holding, order, payment)
  }

  /** The first transaction of `create_payment`. */
  function OpenCreate(
    db: Database, order: OrderId, given: Option<ProviderName>, settings: Settings, schedule: Schedule
  ): Result<Opening, Error> {
    if order !in db.orders then Err(DoesNotExist)
    else if db.orders[order].status.Paid? then Err(AlreadyPaid)
    else
      var amount :- PayableTotal(db, order);
      if ActivePayments(db.payments, order) != {} then Err(PaymentInProgress)
      else
        var provider :- ChooseProvider(given, settings);
        var payment := NewId(db, schedule);
        var inserted := InsertPayment(db, payment, order, Some(provider), amount);
        var ready :- EnsureItems(inserted, order, amount);
        var reserved :- ReserveFor(ready, order, payment, schedule.locked);
        Ok(Opening(reserved, payment, amount, provider, AddedItem(db, ready, order)))
  }

  /** The first transaction of `_pay_order`: resume the active attempt or open a new one. */
  function OpenPay(
    db: Database, order: OrderId, given: Option<ProviderName>, settings: Settings, schedule: Schedule
  ): Result<Opening, Error> {
    if order !in db.orders then Err(DoesNotExist)
    else if db.orders[order].status.Paid? then Err(AlreadyPaid)
    else
      var amount :- PayableTotal(db, order);
      var active := ActivePayments(db.payments, order);
      if active == {} then
        var provider :- ChooseProvider(given, settings);
        if provider.Stripe? then Err(StripeRequiresCheckout)
        else
          var payment := NewId(db, schedule);
          var inserted := InsertPayment(db, payment, order, None, amount);
          var reserved :- ReserveFor(inserted, order, payment, schedule.locked);
          Ok(Opening(reserved, payment, amount, provider, AddedItem(db, reserved, order)))
      else
        var payment := Least(active);
        var reserved :- ReserveFor(db, order, payment, schedule.locked);
        var provider :- ResumeProvider(db.payments[payment], given, settings);
        Ok(Opening(reserved, payment, db.payments[payment].amount, provider, AddedItem(db, reserved, order)))
  }

  /** The provider a resumed attempt must use: its own one once a transaction reference is stored. */
  function ResumeProvider(payment: Payment, given: Option<ProviderName>, settings: Settings): Result<ProviderName, Error> {
    if !payment.HasReference() then ChooseProvider(given, settings)
    else if payment.provider == None then Err(ProviderMisconfigured)
    else if given.Some? then
      if given == payment.provider then Ok(given.value) else Err(ProviderMisconfigured)
    else if Usable(settings, payment.provider.value) then Ok(payment.provider.value)
    else Err(ProviderMisconfigured)
  }

  // ---------------------------------------------------------------- later phases

  /** The transaction that stores the provider's reference on the payment. */
  function StoreReference(db: Database, payment: PaymentId, provider: ProviderName, reference: string): Result<Database, Error> {
    if payment !in db.payments then Err(DoesNotExist)
    else if exists q <- db.payments :: q != payment && db.payments[q].transactionId == Some(reference)
    then Err(IntegrityError)
    else
      Ok(db.(payments := db.payments[payment :=
              db.payments[payment].(provider := Some(provider), transactionId := Some(reference))]))
  }

  /** Deleting an order item cascades to its assignments. */
  function DeleteItem(db: Database, item: ItemId): Database {
    db.(items := db.items - {item}, assignments := db.assignments - HeldBy(db.assignments, item))
  }

  /** The compensating transaction after the provider rejected the attempt. */
  function Compensate(db: Database, payment: PaymentId, createdItem: Option<ItemId>): Result<Database, Error> {
    if payment !in db.payments || db.payments[payment].order !in db.orders then Err(DoesNotExist)
    else
      var failed :- Fail(db, payment);
      Ok(if createdItem.Some? then DeleteItem(failed, createdItem.value) else failed)
  }

  /** What a provider reports when asked to confirm: success, failure, or anything else. */
  datatype Verdict = Succeeded | Declined | Unsettled

  /** The write `_pay_order` makes when a provider reports neither success nor failure. */
  function MarkPending(db: Database, payment: PaymentId): Database
    requires payment in db.payments
  {
    db.(payments := db.payments[payment := db.payments[payment].(status := Pending)])
  }

  /** The last transaction of `_pay_order`. */
  function FinishPay(db: Database, payment: PaymentId, verdict: Verdict): Result<Database, Error> {
    if payment !in db.payments || db.payments[payment].order !in db.orders then Err(DoesNotExist)
    else
      match verdict
      case Succeeded =>
        var completion :- Complete(db, payment);
        Ok(completion.db)
      case Declined => Fail(db, payment)
      case Unsettled => Ok(MarkPending(db, payment))
  }
}
