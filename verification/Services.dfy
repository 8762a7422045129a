/**
 * The services as they run: one object holding the tables, one method per service function or
 * transaction block, each proved against the specification of that transaction. A method that
 * raises restores the tables it had changed, as its enclosing transaction does.
 */
module Services {
  import opened Foundations
  import opened Schema
  import opened Allocation
  import opened Payments
  import opened Carts
  import opened Webhooks
  import opened RowLoops

  /** What the caller sees of a transaction: it committed the expected rows, or raised and changed nothing. */
  ghost predicate Commits(before: Database, after: Database, expected: Result<Database, Error>, raised: Option<Error>) {
    match expected
    case Ok(db) => raised == None && after == db
    case Err(error) => raised == Some(error) && after == before
  }

  class Store {
    var keys: map<KeyId, LicenseKey>
    var assignments: map<KeyId, ItemId>
    var items: map<ItemId, OrderItem>
    var orders: map<OrderId, Order>
    var payments: map<PaymentId, Payment>
    var catalogue: map<ProductId, Product>
    var cart: map<RowId, CartRow>
    var events: set<string>
    var emails: multiset<OrderId>
    var nextKey: KeyId
    var nextItem: ItemId
    var nextOrder: OrderId
    var nextPayment: PaymentId
    var nextRow: RowId

    /** The rows of all tables. */
    function Rows(): Database
      reads this
    {
      Database(keys, assignments, items, orders, payments, catalogue, cart, events, emails,
               nextKey, nextItem, nextOrder, nextPayment, nextRow)
    }

    constructor (db: Database)
      ensures Rows() == db
    {
      keys, assignments, items, orders, payments := db.keys, db.assignments, db.items, db.orders, db.payments;
      catalogue, cart, events, emails := db.catalogue, db.cart, db.events, db.emails;
      nextKey, nextItem, nextOrder, nextPayment, nextRow := db.nextKey, db.nextItem, db.nextOrder, db.nextPayment, db.nextRow;
    }

    // -------------------------------------------------------------- saving rows

    /** Agreement on what a purchase transaction never writes, and so need not restore. */
    ghost predicate AgreesElsewhere(db: Database)
      reads this
    {
      && catalogue == db.catalogue && cart == db.cart
      && nextKey == db.nextKey && nextOrder == db.nextOrder && nextRow == db.nextRow
    }

    method SaveStock(newKeys: map<KeyId, LicenseKey>, newAssignments: map<KeyId, ItemId>)
      modifies this
      ensures Rows() == old(Rows()).(keys := newKeys, assignments := newAssignments)
    {
      keys, assignments := newKeys, newAssignments;
    }

    method SaveOrder(order: OrderId, row: Order)
      modifies this
      ensures Rows() == old(Rows()).(orders := old(orders)[order := row])
    {
      orders := orders[order := row];
    }

    method SavePayment(payment: PaymentId, row: Payment)
      modifies this
      ensures Rows() == old(Rows()).(payments := old(payments)[payment := row])
    {
      payments := payments[payment := row];
    }

    method InsertItem(item: OrderItem)
      modifies this
      ensures Rows() == old(Rows()).(items := old(items)[old(nextItem) := item], nextItem := old(nextItem) + 1)
    {
      items, nextItem := items[nextItem := item], nextItem + 1;
    }

    /** The rollback of a purchase transaction, which writes no catalogue, cart, order-id or key-id row. */
    method Rollback(before: Database)
      requires AgreesElsewhere(before)
      modifies this
      ensures Rows() == before
    {
      RollbackStock(before);
      RollbackSales(before);
    }

    method RollbackStock(before: Database)
      modifies this
      ensures Rows() == old(Rows()).(
        keys := before.keys, assignments := before.assignments, items := before.items, nextItem := before.nextItem)
    {
      keys, assignments, items, nextItem := before.keys, before.assignments, before.items, before.nextItem;
    }

    method RollbackSales(before: Database)
      modifies this
      ensures Rows() == old(Rows()).(
        orders := before.orders, payments := before.payments, nextPayment := before.nextPayment,
        emails := before.emails, events := before.events)
    {
      orders, payments, nextPayment := before.orders, before.payments, before.nextPayment;
      emails, events := before.emails, before.events;
    }

    // -------------------------------------------------------------- reservation

    /** `get_or_create_order_items_for_fulfilment`. */
    method GetOrCreateOrderItems(order: OrderId, price: Money) returns (raised: Option<Error>, orderItems: seq<ItemId>)
      requires order in orders && Tidy(items, nextItem)
      modifies this
      ensures Commits(old(Rows()), Rows(), EnsureItems(old(Rows()), order, price), raised)
      ensures raised.None? ==> orderItems == ItemsByProduct(items, order)
      ensures Tidy(items, nextItem)
      ensures Rows() == old(Rows()).(items := items, nextItem := nextItem)
    {
      orderItems := ItemsByProduct(items, order);
      ItemsByProductLists(items, order);
      if orderItems != [] || orders[order].source.Cart? {
        assert orderItems != [] ==> orderItems[0] in ItemsOf(items, order);
        raised := None;
      } else if orders[order].product.Some? {
        assert forall i <- items :: i in ItemsOf(items, order) <==> i in orderItems;
        var item := OrderItem(order, orders[order].product.value, 1, price);
        InsertItem(item);
        orderItems := ItemsByProduct(items, order);
        raised := None;
      } else {
        raised := Some(NoProductReference);
      }
    }

    /** `reserve_order_licenses`; `locked` are the keys other transactions have locked. */
    method ReserveOrderLicenses(order: OrderId, locked: set<KeyId>) returns (raised: Option<Error>)
      requires Tidy(items, nextItem)
      modifies this
      ensures Commits(old(Rows()), Rows(), Reserve(old(Rows()), order, locked), raised)
      ensures Tidy(items, nextItem) && AgreesElsewhere(old(Rows())) && orders == old(orders) && payments == old(payments)
      ensures raised.None? ==> order in orders
    {
      hide EnsureItems, Hold, Tidy, ItemsByProduct;
      var before := Rows();
      if order !in orders { return Some(DoesNotExist); }
      if orders[order].status.Paid? { return Some(PaidOrderCannotReserve); }
      if orders[order].total.None? { return Some(NoAuthoritativeTotal); }
      var orderItems;
      raised, orderItems := GetOrCreateOrderItems(order, orders[order].total.value);
      if raised.Some? { return; }
      raised := HoldItems(order, orderItems, locked);
      if raised.Some? {
        Rollback(before);
      }
    }

    /** The rest of `reserve_order_licenses`: the statuses and assignments are written after the loop. */
    method HoldItems(order: OrderId, orderItems: seq<ItemId>, locked: set<KeyId>) returns (raised: Option<Error>)
      requires Tidy(items, nextItem) && orderItems == ItemsByProduct(items, order)
      modifies this
      ensures Commits(old(Rows()), Rows(), Hold(old(Rows()), order, locked), raised)
      ensures Rows() == old(Rows()).(keys := keys, assignments := assignments)
    {
      hide Hold, ItemsByProduct, SetStatus, Tidy, AsRows, KeysListed;
      var selected := SelectReservation(Rows(), order, orderItems, locked);
      if selected.Err? { return Some(selected.error); }
      var held := SetStatuses(keys, KeysListed(selected.value), Reserved);
      SaveStock(held, assignments + AsRows(selected.value));
      raised := None;
    }

    // -------------------------------------------------------------- release and authority

    /** `release_order_license_reservation`. */
    method ReleaseOrderLicenseReservation(order: OrderId) returns (raised: Option<Error>)
      requires Tidy(items, nextItem)
      modifies this
      ensures Commits(old(Rows()), Rows(), Release(old(Rows()), order), raised)
      ensures Rows() == old(Rows()).(keys := keys, assignments := assignments)
    {
      hide ItemsByProduct, LockedReservation;
      if order !in orders { return Some(DoesNotExist); }
      if orders[order].status.Paid? { return Some(PaidOrderCannotRelease); }
      var orderItems := ItemsByProduct(items, order);
      ItemsByProductLists(items, order);
      if orderItems == [] {
        assert forall i <- items :: i in ItemsOf(items, order) <==> i in orderItems;
        return None;
      }
      assert orderItems[0] in ItemsOf(items, order);
      var held := LockedReservationAssignments(keys, items, assignments, order, orderItems);
      if held.Err? { return Some(held.error); }
      ReservedKeysExist(keys, items, assignments, order, SeqSet(held.value));
      var freed := SetStatuses(keys, held.value, Available);
      SaveStock(freed, assignments - SeqSet(held.value));
      raised := None;
    }

    /** `authorize_order_reservation`. */
    method AuthorizeOrderReservation(order: OrderId, payment: PaymentId) returns (raised: Option<Error>)
      requires order in orders && payment in payments
      modifies this
      ensures Commits(old(Rows()), Rows(), Authorize(old(Rows()), order, payment), raised)
      ensures Rows() == old(Rows()).(orders := orders)
    {
      var row := orders[order];
      if payments[payment].order != order { return Some(ForeignPayment); }
      if row.attempt != None && row.attempt != Some(payment) { return Some(ReservationOfAnotherPayment); }
      if row.attempt != Some(payment) {
        SaveOrder(order, row.(attempt := Some(payment)));
      }
      raised := None;
    }

    /** `terminate_payment`. */
    method TerminatePayment(order: OrderId, payment: PaymentId, status: PaymentStatus) returns (raised: Option<Error>)
      requires order in orders && payment in payments && Tidy(items, nextItem)
      modifies this
      ensures Commits(old(Rows()), Rows(), Terminate(old(Rows()), order, payment, status), raised)
    {
      hide GiveUp, Tidy;
      var before := Rows();
      if !Unsuccessful(status) { return Some(ValueError); }
      if payments[payment].status.Paid? { return None; }
      var row := orders[order];
      if payments[payment].status != status {
        SavePayment(payment, payments[payment].(status := status));
      }
      assert payments == before.payments[payment := before.payments[payment].(status := status)];
      if row.status.Paid? { return None; }
      if row.attempt == None || row.attempt == Some(payment) {
        raised := GiveUpReservation(order);
        if raised.Some? {
          Rollback(before);
        }
      } else {
        raised := None;
      }
    }

    /** The release inside `terminate_payment`, after which no attempt has authority. */
    method GiveUpReservation(order: OrderId) returns (raised: Option<Error>)
      requires order in orders && Tidy(items, nextItem)
      modifies this
      ensures Commits(old(Rows()), Rows(), GiveUp(old(Rows()), order), raised)
      ensures AgreesElsewhere(old(Rows()))
    {
      hide Release, Tidy;
      var row := orders[order];
      raised := ReleaseOrderLicenseReservation(order);
      if raised.None? && row.attempt != None {
        SaveOrder(order, row.(attempt := None));
      }
      assert raised.None? ==> orders == old(orders)[order := row.(attempt := None)];
    }

    /** `fail_payment`. */
    method FailPayment(order: OrderId, payment: PaymentId) returns (raised: Option<Error>)
      requires order in orders && payment in payments && Tidy(items, nextItem)
      modifies this
      ensures Commits(old(Rows()), Rows(), Terminate(old(Rows()), order, payment, Failed), raised)
    {
      raised := TerminatePayment(order, payment, Failed);
    }

    // -------------------------------------------------------------- completion

    /** `_fulfil_order`. */
    method FulfilOrder(order: OrderId, orderItems: seq<ItemId>, requireReservation: bool)
      returns (raised: Option<Error>, licenseKeys: seq<KeyId>)
      requires Tidy(items, nextItem) && orderItems == ItemsByProduct(items, order)
      modifies this
      ensures match Fulfil(old(Rows()), order, requireReservation)
              case Ok(done) =>
                && raised == None && Rows() == done.db
                && licenseKeys != [] && done.firstKey == Some(licenseKeys[0])
              case Err(error) => raised == Some(error) && Rows() == old(Rows())
    {
      hide Fulfil, ItemsByProduct, SetStatus, Tidy, AsRows;
      licenseKeys := [];
      var selected := SelectSale(Rows(), order, orderItems, requireReservation);
      if selected.Err? { return Some(selected.error), []; }
      licenseKeys := selected.value.licenseKeys;
      var sold := SetStatuses(keys, licenseKeys, KeyStatus.Sold);
      SaveStock(sold, assignments + AsRows(selected.value.list));
      raised := None;
    }

    /** `complete_payment`: on success, whether the order had been completed before. */
    method CompletePayment(payment: PaymentId) returns (raised: Option<Error>, alreadyCompleted: bool)
      requires Tidy(items, nextItem)
      modifies this
      ensures match Complete(old(Rows()), payment)
              case Ok(done) => raised == None && Rows() == done.db && alreadyCompleted == done.alreadyCompleted
              case Err(error) => raised == Some(error) && Rows() == old(Rows())
    {
      hide Conclude, Tidy;
      alreadyCompleted := false;
      if payment !in payments || payments[payment].order !in orders { return Some(DoesNotExist), false; }
      var order := payments[payment].order;
      var row := orders[order];
      var status := payments[payment].status;
      if row.status.Paid? && status.Paid? { return None, true; }
      if row.status.Paid? { return Some(PaymentStateInconsistent), false; }
      if !status.Active() && !status.Failed? { return Some(PaymentCannotBeCompleted), false; }
      if row.total.None? { return Some(NoAuthoritativeTotal), false; }
      var price := row.total.value;
      if payments[payment].amount != price { return Some(AmountMismatch), false; }
      if row.attempt != None && row.attempt != Some(payment) { return Some(PaymentNotAuthorized), false; }
      raised := ConcludePayment(order, payment, price);
    }

    /** The rest of `complete_payment`: fulfil, then save the order and the payment and queue the email. */
    method ConcludePayment(order: OrderId, payment: PaymentId, price: Money) returns (raised: Option<Error>)
      requires order in orders && payment in payments && Tidy(items, nextItem)
      modifies this
      ensures match Conclude(old(Rows()), order, payment, price)
              case Ok(done) => raised == None && Rows() == done.db && !done.alreadyCompleted
              case Err(error) => raised == Some(error) && Rows() == old(Rows())
    {
      hide Fulfil, EnsureItems, ItemsByProduct, Tidy, Settle;
      var before := Rows();
      var row := orders[order];
      var orderItems, licenseKeys;
      raised, orderItems := GetOrCreateOrderItems(order, price);
      if raised.Some? { return; }
      raised, licenseKeys := FulfilOrder(order, orderItems, row.attempt.Some?);
      if raised.Some? {
        Rollback(before);
        return;
      }
      if row.source.Direct? && exists o <- orders :: o != order && orders[o].licenseKey == Some(licenseKeys[0]) {
        Rollback(before);
        return Some(IntegrityError);
      }
      SaveCompletion(order, payment, price, licenseKeys[0]);
      raised := None;
    }

    method SaveCompletion(order: OrderId, payment: PaymentId, price: Money, firstKey: KeyId)
      requires order in orders && payment in payments
      modifies this
      ensures Rows() == Settle(old(Rows()), order, payment, price, Some(firstKey))
    {
      var row := orders[order];
      if row.source.Direct? {
        row := row.(licenseKey := Some(firstKey));
      }
      orders := orders[order := row.(status := OrderStatus.Paid, pricePaid := Some(price), attempt := None)];
      payments := payments[payment := payments[payment].(status := PaymentStatus.Paid)];
      emails := emails + multiset{order};
    }

    // -------------------------------------------------------------- the phases of the two drivers

    method InsertPaymentRow(order: OrderId, provider: Option<ProviderName>, amount: Money) returns (payment: PaymentId)
      modifies this
      ensures payment == old(nextPayment) && Rows() == InsertPayment(old(Rows()), payment, order, provider, amount)
      ensures AgreesElsewhere(old(Rows())) && items == old(items) && nextItem == old(nextItem) && orders == old(orders)
      ensures payment in payments && payments[payment].amount == amount
    {
      payment := nextPayment;
      payments := payments[payment := Payment(order, PaymentStatus.Created, provider, None, amount)];
      nextPayment := nextPayment + 1;
    }

    /** The two calls at the end of every opening transaction. */
    method ReserveForPayment(order: OrderId, payment: PaymentId, locked: set<KeyId>) returns (raised: Option<Error>)
      requires payment in payments && Tidy(items, nextItem)
      modifies this
      ensures Commits(old(Rows()), Rows(), ReserveFor(old(Rows()), order, payment, locked), raised)
      ensures AgreesElsewhere(old(Rows())) && payments == old(payments)
    {
      hide Reserve, Authorize, Tidy;
      var before := Rows();
      raised := ReserveOrderLicenses(order, locked);
      if raised.Some? { return; }
      raised := AuthorizeOrderReservation(order, payment);
      if raised.Some? {
        Rollback(before);
      }
    }

    /** The first transaction of `create_payment`. */
    method OpenCreatePayment(order: OrderId, given: Option<ProviderName>, settings: Settings, locked: set<KeyId>)
      returns (opening: Result<Opening, Error>)
      requires Tidy(items, nextItem)
      modifies this
      ensures opening == OpenCreate(old(Rows()), order, given, settings, Schedule(locked, old(nextPayment)))
      ensures Rows() == if opening.Ok? then opening.value.db else old(Rows())
    {
      hide ReserveFor, EnsureItems, Tidy, ChooseProvider, ItemsByProduct;
      var before := Rows();
      if order !in orders { return Err(DoesNotExist); }
      if orders[order].status.Paid? { return Err(AlreadyPaid); }
      if orders[order].total.None? { return Err(NoAuthoritativeTotal); }
      var amount := orders[order].total.value;
      if ActivePayments(payments, order) != {} { return Err(PaymentInProgress); }
      var provider := ChooseProvider(given, settings);
      if provider.Err? { return Err(provider.error); }
      var payment := InsertPaymentRow(order, Some(provider.value), amount);
      ghost var inserted := Rows();
      var raised, orderItems := GetOrCreateOrderItems(order, amount);
      if raised.Some? {
        Rollback(before);
        return Err(raised.value);
      }
      FirstCreated(before, inserted, Rows(), order, amount);
      var createdItem := if orderItems != [] && ItemsOf(before.items, order) == {} then Some(orderItems[0]) else None;
      raised := ReserveForPayment(order, payment, locked);
      if raised.Some? {
        Rollback(before);
        return Err(raised.value);
      }
      opening := Ok(Opening(Rows(), payment, amount, provider.value, createdItem));
    }

    /** The first transaction of `_pay_order`: resume the active attempt or open a new one. */
    method OpenPayOrder(order: OrderId, given: Option<ProviderName>, settings: Settings, locked: set<KeyId>)
      returns (opening: Result<Opening, Error>)
      requires Tidy(items, nextItem)
      modifies this
      ensures opening == OpenPay(old(Rows()), order, given, settings, Schedule(locked, old(nextPayment)))
      ensures Rows() == if opening.Ok? then opening.value.db else old(Rows())
    {
      hide ReserveFor, Tidy, ChooseProvider, AddedItem, ResumeProvider, ActivePayments, InsertPayment;
      var before := Rows();
      if order !in orders { return Err(DoesNotExist); }
      if orders[order].status.Paid? { return Err(AlreadyPaid); }
      if orders[order].total.None? { return Err(NoAuthoritativeTotal); }
      var active := ActivePayments(payments, order);
      if active == {} {
        var selected := ChooseProvider(given, settings);
        if selected.Err? { return Err(selected.error); }
        if selected.value.Stripe? { return Err(StripeRequiresCheckout); }
        var payment := InsertPaymentRow(order, None, orders[order].total.value);
        opening := FinishOpening(before, order, payment, selected, locked);
      } else {
        var payment := Least(active);
        ActiveExists(payments, order, payment);
        opening := FinishOpening(before, order, payment, ResumeProvider(payments[payment], given, settings), locked);
      }
    }

    /** The end of the first transaction: a failed reservation is reported before an unusable provider. */
    method FinishOpening(before: Database, order: OrderId, payment: PaymentId, selected: Result<ProviderName, Error>, locked: set<KeyId>)
      returns (opening: Result<Opening, Error>)
      requires payment in payments && Tidy(items, nextItem) && AgreesElsewhere(before)
      modifies this
      ensures match ReserveFor(old(Rows()), order, payment, locked)
              case Err(error) => opening == Err(error) && Rows() == before
              case Ok(db) =>
                if selected.Err? then opening == Err(selected.error) && Rows() == before
                else
                  && Rows() == db
                  && opening == Ok(Opening(db, payment, old(payments)[payment].amount, selected.value, AddedItem(before, db, order)))
    {
      hide ReserveFor, Tidy, AddedItem;
      var raised := ReserveForPayment(order, payment, locked);
      if raised.Some? {
        Rollback(before);
        return Err(raised.value);
      }
      if selected.Err? {
        Rollback(before);
        return Err(selected.error);
      }
      opening := Ok(Opening(Rows(), payment, payments[payment].amount, selected.value, AddedItem(before, Rows(), order)));
    }

    /** The transaction that stores the provider's reference. */
    method StoreProviderReference(payment: PaymentId, provider: ProviderName, reference: string) returns (raised: Option<Error>)
      modifies this
      ensures Commits(old(Rows()), Rows(), StoreReference(old(Rows()), payment, provider, reference), raised)
    {
      if payment !in payments { return Some(DoesNotExist); }
      if exists q <- payments :: q != payment && payments[q].transactionId == Some(reference) { return Some(IntegrityError); }
      SavePayment(payment, payments[payment].(provider := Some(provider), transactionId := Some(reference)));
      raised := None;
    }

    /** The compensating transaction after a provider rejection. */
    method CompensateOpening(payment: PaymentId, createdItem: Option<ItemId>) returns (raised: Option<Error>)
      requires Tidy(items, nextItem)
      modifies this
      ensures Commits(old(Rows()), Rows(), Compensate(old(Rows()), payment, createdItem), raised)
    {
      hide Terminate, Tidy;
      if payment !in payments || payments[payment].order !in orders { return Some(DoesNotExist); }
      raised := FailPayment(payments[payment].order, payment);
      if raised.None? && createdItem.Some? {
        DeleteOrderItem(createdItem.value);
      }
    }

    method DeleteOrderItem(item: ItemId)
      modifies this
      ensures Rows() == DeleteItem(old(Rows()), item)
    {
      items, assignments := items - {item}, assignments - HeldBy(assignments, item);
    }

    /** The last transaction of `_pay_order`. */
    method FinishPayOrder(payment: PaymentId, verdict: Verdict) returns (raised: Option<Error>)
      requires Tidy(items, nextItem)
      modifies this
      ensures Commits(old(Rows()), Rows(), FinishPay(old(Rows()), payment, verdict), raised)
    {
      hide Terminate, Complete, Tidy;
      if payment !in payments || payments[payment].order !in orders { return Some(DoesNotExist); }
      raised := None;
      match verdict
      case Succeeded =>
        var already;
        raised, already := CompletePayment(payment);
      case Declined =>
        raised := FailPayment(payments[payment].order, payment);
      case Unsettled =>
        SavePayment(payment, payments[payment].(status := Pending));
    }

    // -------------------------------------------------------------- webhook

    /** `process_stripe_webhook`: the event row is inserted first, and rolled back with everything else. */
    method ProcessStripeWebhook(event: Event) returns (raised: Option<Error>)
      requires Tidy(items, nextItem)
      modifies this
      ensures Commits(old(Rows()), Rows(), Process(old(Rows()), event), raised)
    {
      hide Terminate, Complete, Tidy, ReferredPayment;
      if event.id in events { return None; }
      var before := Rows();
      events := events + {event.id};
      if event.session == None { return None; }
      raised := ApplyEvent(event.session.value, event.kind);
      if raised.Some? {
        events := before.events;
      }
    }

    /** Validation and dispatch of an event with a checkout session. */
    method ApplyEvent(session: CheckoutSession, kind: EventType) returns (raised: Option<Error>)
      requires Tidy(items, nextItem)
      modifies this
      ensures Commits(old(Rows()), Rows(), Apply(old(Rows()), session, kind), raised)
    {
      hide Terminate, Complete, Tidy, ReferredPayment;
      var referred := ReferredPayment(Rows(), session);
      if referred.Err? { return Some(referred.error); }
      var payment := referred.value;
      ReferredExists(Rows(), session);
      match kind
      case Unrecognised => raised := Some(ValueError);
      case Completed | AsyncPaymentSucceeded =>
        raised := None;
        if Successful(session.paymentStatus) {
          var already;
          raised, already := CompletePayment(payment);
        }
      case AsyncPaymentFailed | SessionExpired =>
        raised := None;
        if !payments[payment].status.Paid? {
          raised := FailPayment(payments[payment].order, payment);
        }
    }

    // -------------------------------------------------------------- carts and new orders

    /** `add_cart_item`. */
    method AddCartItem(user: UserId, product: ProductId, quantity: int) returns (raised: Option<Error>)
      modifies this
      ensures Commits(old(Rows()), Rows(), AddItem(old(Rows()), user, product, quantity), raised)
    {
      if !OnSale(catalogue, product) { return Some(ProductUnavailable); }
      var existing := RowsFor(cart, user, product);
      var newQuantity := quantity;
      if existing != {} {
        newQuantity := newQuantity + cart[Least(existing)].quantity;
      }
      if newQuantity > MAX_CART_ITEM_QUANTITY { return Some(CartConflict); }
      if newQuantity < 1 { return Some(IntegrityError); }
      if existing != {} {
        cart := cart[Least(existing) := cart[Least(existing)].(quantity := newQuantity)];
      } else {
        cart, nextRow := cart[nextRow := CartRow(user, product, newQuantity)], nextRow + 1;
      }
      raised := None;
    }

    /** `set_cart_item_quantity`. */
    method SetCartItemQuantity(user: UserId, row: RowId, quantity: int) returns (raised: Option<Error>)
      modifies this
      ensures Commits(old(Rows()), Rows(), SetQuantity(old(Rows()), user, row, quantity), raised)
    {
      if row !in cart || cart[row].user != user { return Some(CartItemNotFound); }
      if !(1 <= quantity <= MAX_CART_ITEM_QUANTITY) { return Some(ValidationError); }
      cart := cart[row := cart[row].(quantity := quantity)];
      raised := None;
    }

    /** `remove_cart_item`. */
    method RemoveCartItem(user: UserId, row: RowId) returns (raised: Option<Error>)
      modifies this
      ensures Commits(old(Rows()), Rows(), RemoveItem(old(Rows()), user, row), raised)
    {
      if row !in cart || cart[row].user != user { return Some(CartItemNotFound); }
      cart := cart - {row};
      raised := None;
    }

    /** `clear_cart`. */
    method ClearCartOf(user: UserId)
      modifies this
      ensures Rows() == ClearCart(old(Rows()), user)
    {
      cart := WithoutUser(cart, user);
    }

    /** `checkout_cart`. */
    method CheckoutCart(user: UserId) returns (raised: Option<Error>)
      modifies this
      ensures Commits(old(Rows()), Rows(), Checkout(old(Rows()), user), raised)
    {
      hide CartTotal, Snapshot, WithoutUser, RowsOf;
      var rows := RowsOf(cart, user, nextRow);
      if rows == [] { return Some(EmptyCart); }
      var unavailable := AnyUnavailable(cart, catalogue, rows);
      if unavailable { return Some(ProductUnavailable); }
      var total := SumRows(cart, catalogue, rows);
      var lines := SnapshotRows(cart, catalogue, nextOrder, nextItem, rows);
      InsertOrderRow(Order(Cart, None, Some(total), OrderStatus.Created, None, None, None), lines, nextItem + |rows|);
      ClearCartOf(user);
      raised := None;
    }

    method InsertOrderRow(row: Order, added: map<ItemId, OrderItem>, next: ItemId)
      modifies this
      ensures Rows() == InsertOrder(old(Rows()), row, added, next)
    {
      orders, nextOrder := orders[nextOrder := row], nextOrder + 1;
      items, nextItem := items + added, next;
    }

    /** `create_direct_order`. */
    method CreateDirectOrder(product: ProductId) returns (raised: Option<Error>)
      modifies this
      ensures Commits(old(Rows()), Rows(), DirectOrder(old(Rows()), product), raised)
    {
      if product !in catalogue { return Some(DoesNotExist); }
      var price := catalogue[product].price;
      var item := OrderItem(nextOrder, product, 1, price);
      var first: ItemId := nextItem;
      var added := map[first := item];
      InsertOrderRow(Order(Direct, Some(product), Some(price), OrderStatus.Created, None, None, None), added, nextItem + 1);
      raised := None;
    }
  }

  lemma ActiveExists(payments: map<PaymentId, Payment>, order: OrderId, payment: PaymentId)
    requires payment in ActivePayments(payments, order)
    ensures payment in payments
  {
  }

  /** The item a legacy order gets on first use is the first of its item list. */
  lemma FirstCreated(before: Database, inserted: Database, ready: Database, order: OrderId, price: Money)
    requires order in inserted.orders && EnsureItems(inserted, order, price) == Ok(ready) && inserted.items == before.items
    ensures AddedItem(before, ready, order)
         == if ItemsByProduct(ready.items, order) != [] && ItemsOf(before.items, order) == {}
            then Some(ItemsByProduct(ready.items, order)[0]) else None
  {
    hide ItemsByProduct;
    ItemsByProductLists(ready.items, order);
    var orderItems := ItemsByProduct(ready.items, order);
    assert orderItems != [] ==> orderItems[0] in orderItems;
    if ItemsOf(before.items, order) == {} && ItemsOf(ready.items, order) != {} {
      assert ItemsOf(ready.items, order) == {inserted.nextItem};
      assert inserted.nextItem in orderItems;
    }
  }
}
