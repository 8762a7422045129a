/** The tables of the shop database, the values in their rows, and the queries the services issue. */
module Schema {
  import opened Foundations

  type ProductId = nat
  type KeyId = nat
  type RowId = nat
  type UserId = nat
  type ItemId = nat
  type OrderId = nat
  type PaymentId = nat

  /** An amount of money in minor units. */
  type Money = nat

  datatype Product = Product(price: Money, active: bool)

  datatype KeyStatus = Available | Reserved | Sold

  datatype LicenseKey = LicenseKey(product: ProductId, status: KeyStatus)

  datatype OrderItem = OrderItem(order: OrderId, product: ProductId, quantity: nat, unitPrice: Money)

  /** `OrderItem.line_total`, and the same product in a cart. */
  function LineTotal(unitPrice: Money, quantity: nat): Money {
    unitPrice * quantity
  }

  datatype Source = Direct | Cart

  datatype OrderStatus = Created | Paid | Cancelled

  datatype Order = Order(
    source: Source,
    product: Option<ProductId>,
    total: Option<Money>,
    status: OrderStatus,
    pricePaid: Option<Money>,
    licenseKey: Option<KeyId>,
    attempt: Option<PaymentId>)
  {
    /** An order owns keys while it is paid or while some payment attempt has authority over it. */
    predicate HoldsKeys() {
      status.Paid? || attempt.Some?
    }
  }

  datatype PaymentStatus = Created | Pending | Paid | Failed | Cancelled | Expired {
    predicate Active() {
      Created? || Pending?
    }
  }

  datatype ProviderName = Local | Stripe | Other(name: string)

  datatype Payment = Payment(
    order: OrderId,
    status: PaymentStatus,
    provider: Option<ProviderName>,
    transactionId: Option<string>,
    amount: Money)
  {
    /** Whether `payment.transaction_id` is truthy: neither null nor the empty string. */
    predicate HasReference() {
      transactionId.Some? && transactionId.value != ""
    }
  }

  datatype CartRow = CartRow(user: UserId, product: ProductId, quantity: nat)

  /**
   * A snapshot of every table. An assignment row is one entry of `assignments`: its key column is
   * unique, so the map from key to order item is the table. `emails` counts the confirmation
   * emails queued on commit, per order. The `next` fields are the id sequences.
   */
  datatype Database = Database(
    keys: map<KeyId, LicenseKey>,
    assignments: map<KeyId, ItemId>,
    items: map<ItemId, OrderItem>,
    orders: map<OrderId, Order>,
    payments: map<PaymentId, Payment>,
    catalogue: map<ProductId, Product>,
    cart: map<RowId, CartRow>,
    events: set<string>,
    emails: multiset<OrderId>,
    nextKey: KeyId,
    nextItem: ItemId,
    nextOrder: OrderId,
    nextPayment: PaymentId,
    nextRow: RowId)

  /** What the services raise. */
  datatype Error =
    | DoesNotExist
    | IntegrityError
    | ValidationError
    | ValueError
    | AlreadyPaid
    | NoAuthoritativeTotal
    | NoProductReference
    | ReservationInconsistent
    | NoKeysAvailable
    | PaidOrderCannotReserve
    | PaidOrderCannotRelease
    | ForeignPayment
    | ReservationOfAnotherPayment
    | PaymentStateInconsistent
    | PaymentCannotBeCompleted
    | AmountMismatch
    | PaymentNotAuthorized
    | PaymentInProgress
    | ProviderMisconfigured
    | StripeRequiresCheckout
    | InvalidPaymentReference
    | UnknownStripePayment
    | ProviderIsNotStripe
    | ForeignCheckoutSession
    | ProductUnavailable
    | CartConflict
    | CartItemNotFound
    | EmptyCart

  // ---------------------------------------------------------------- queries

  function ItemsOf(items: map<ItemId, OrderItem>, order: OrderId): set<ItemId> {
    set i | i in items && items[i].order == order
  }

  /** The items of an order for one product: at most one by `unique_product_per_order`. */
  function ItemsFor(items: map<ItemId, OrderItem>, order: OrderId, product: ProductId): set<ItemId> {
    set i | i in items && items[i].order == order && items[i].product == product
  }

  /** The keys assigned to one order item. */
  function HeldBy(assignments: map<KeyId, ItemId>, item: ItemId): set<KeyId> {
    set k | k in assignments && assignments[k] == item
  }

  /** The keys assigned to any item of an order. */
  function HeldFor(assignments: map<KeyId, ItemId>, items: map<ItemId, OrderItem>, order: OrderId): set<KeyId> {
    set k | k in assignments && assignments[k] in items && items[assignments[k]].order == order
  }

  function ActivePayments(payments: map<PaymentId, Payment>, order: OrderId): set<PaymentId> {
    set p | p in payments && payments[p].order == order && payments[p].status.Active()
  }

  function PaidPayments(payments: map<PaymentId, Payment>, order: OrderId): set<PaymentId> {
    set p | p in payments && payments[p].order == order && payments[p].status.Paid?
  }

  function KeysOf(keys: map<KeyId, LicenseKey>, product: ProductId, status: KeyStatus): set<KeyId> {
    set k | k in keys && keys[k].product == product && keys[k].status == status
  }

  // ---------------------------------------------------------------- constraints

  /** `unique_product_per_order`. */
  ghost predicate UniqueProducts(items: map<ItemId, OrderItem>) {
    forall i, j | i in items && j in items
      && items[i].order == items[j].order && items[i].product == items[j].product :: i == j
  }

  /** Every id in use lies below its sequence. */
  ghost predicate Sequences(db: Database) {
    && (forall k <- db.keys :: k < db.nextKey)
    && (forall i <- db.items :: i < db.nextItem)
    && (forall o <- db.orders :: o < db.nextOrder)
    && (forall p <- db.payments :: p < db.nextPayment)
    && (forall r <- db.cart :: r < db.nextRow)
  }

  /** Foreign keys. */
  ghost predicate References(db: Database) {
    && (forall k <- db.assignments :: k in db.keys && db.assignments[k] in db.items)
    && (forall i <- db.items :: db.items[i].order in db.orders)
    && (forall p <- db.payments :: db.payments[p].order in db.orders)
    && (forall o <- db.orders :: db.orders[o].attempt.Some? ==> db.orders[o].attempt.value in db.payments)
    && (forall o <- db.orders :: db.orders[o].licenseKey.Some? ==> db.orders[o].licenseKey.value in db.keys)
  }

  /** `order_item_quantity_positive`. */
  ghost predicate PositiveQuantities(items: map<ItemId, OrderItem>) {
    forall i <- items :: items[i].quantity >= 1
  }

  /** `Payment.transaction_id` is unique when present. */
  ghost predicate UniqueTransactions(payments: map<PaymentId, Payment>) {
    forall p, q | p in payments && q in payments
      && payments[p].transactionId.Some? && payments[p].transactionId == payments[q].transactionId :: p == q
  }

  /** `unique_active_payment_per_order`. */
  ghost predicate OneActivePayment(payments: map<PaymentId, Payment>) {
    forall p, q | p in payments && q in payments && payments[p].status.Active() && payments[q].status.Active()
      && payments[p].order == payments[q].order :: p == q
  }

  /** `Order.license_key` is one-to-one. */
  ghost predicate OneOrderPerKey(orders: map<OrderId, Order>) {
    forall o, q | o in orders && q in orders && orders[o].licenseKey.Some? && orders[o].licenseKey == orders[q].licenseKey :: o == q
  }

  /** `cart_order_has_no_legacy_product`. */
  ghost predicate CartOrders(orders: map<OrderId, Order>) {
    forall o <- orders :: orders[o].source.Cart? ==> orders[o].product == None
  }

  const MAX_CART_ITEM_QUANTITY: nat := 99

  /** `unique_product_per_cart` and `cart_item_quantity_between_1_and_99`. */
  ghost predicate CartRows(cart: map<RowId, CartRow>) {
    && (forall r <- cart :: 1 <= cart[r].quantity <= MAX_CART_ITEM_QUANTITY)
    && (forall r, q | r in cart && q in cart
          && cart[r].user == cart[q].user && cart[r].product == cart[q].product :: r == q)
  }

  /**
   * The constraints the database enforces on these tables, besides the unique transaction id: keys
   * and foreign keys, the unique constraints, and the checks that are not in the column types.
   */
  ghost predicate Constraints(db: Database) {
    && Sequences(db)
    && References(db)
    && UniqueProducts(db.items)
    && PositiveQuantities(db.items)
    && OneActivePayment(db.payments)
    && OneOrderPerKey(db.orders)
    && CartOrders(db.orders)
    && CartRows(db.cart)
  }
}
