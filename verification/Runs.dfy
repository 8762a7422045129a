/**
 * Runs of the whole system: carts, catalogue and stock, the phases of any number of concurrent
 * `create_payment` and `pay_order` calls, webhook deliveries, and crashes between transactions.
 */
module Runs {
  import opened Foundations
  import opened Schema
  import opened Payments
  import opened Invariants
  import opened Carts
  import opened References
  import opened Webhooks

  type CallId = nat

  datatype Driver = CreatePayment | PayOrder

  /** Where a driver call stands between two transactions, with its local variables. */
  datatype Phase =
    | Calling(driver: Driver, payment: PaymentId, amount: Money, provider: ProviderName, createdItem: Option<ItemId>)
    | Storing(driver: Driver, payment: PaymentId, provider: ProviderName, reference: string)
    | Undoing(payment: PaymentId, createdItem: Option<ItemId>)
    | Confirming(payment: PaymentId, provider: ProviderName, reference: string)
    | Finishing(payment: PaymentId, accepted: bool)

  /** One request to a provider to create a payment. */
  datatype ProviderCall = ProviderCall(payment: PaymentId, key: string, amount: Money)

  /** The provider's answer to a creation request; `Lost` stands for every other exception. */
  datatype Reply = Accepted(reference: string) | Rejected | Misconfigured | Lost

  datatype World = World(db: Database, phases: map<CallId, Phase>, calls: seq<ProviderCall>)

  datatype Step =
    | SupplyKey(product: ProductId)
    | WithdrawKey(key: KeyId)
    | PublishProduct(product: ProductId, details: Product)
    | AddToCart(user: UserId, product: ProductId, quantity: int)
    | ChangeQuantity(user: UserId, row: RowId, quantity: int)
    | RemoveFromCart(user: UserId, row: RowId)
    | EmptyTheCart(user: UserId)
    | CheckOut(user: UserId)
    | BuyDirectly(product: ProductId)
    | StartCreate(id: CallId, order: OrderId, given: Option<ProviderName>, settings: Settings, schedule: Schedule)
    | StartPay(id: CallId, order: OrderId, given: Option<ProviderName>, settings: Settings, schedule: Schedule)
    | CallProvider(id: CallId, reply: Reply)
    | StoreReply(id: CallId)
    | UndoOpening(id: CallId)
    | Confirm(id: CallId, accepted: bool)
    | FinishPayment(id: CallId)
    | Deliver(event: Event)
    | Crash(id: CallId)

  // ---------------------------------------------------------------- one step

  /** Adding an imported key, and deleting one that is neither sold nor referenced. */
  function Supply(db: Database, product: ProductId): Database {
    db.(keys := db.keys[db.nextKey := LicenseKey(product, Available)], nextKey := db.nextKey + 1)
  }

  predicate Withdrawable(db: Database, key: KeyId) {
    && key in db.keys && !db.keys[key].status.Sold? && key !in db.assignments
    && (forall o <- db.orders :: db.orders[o].licenseKey != Some(key))
  }

  function Withdraw(db: Database, key: KeyId): Result<Database, Error> {
    if Withdrawable(db, key) then Ok(db.(keys := db.keys - {key})) else Err(IntegrityError)
  }

  /** The transaction a step runs on the database; steps without one leave it alone. */
  function Transact(w: World, step: Step): Result<Database, Error> {
    var db := w.db;
    match step
    case SupplyKey(product) => Ok(Supply(db, product))
    case WithdrawKey(key) => Withdraw(db, key)
    case PublishProduct(product, details) => Ok(db.(catalogue := db.catalogue[product := details]))
    case AddToCart(user, product, quantity) => AddItem(db, user, product, quantity)
    case ChangeQuantity(user, row, quantity) => SetQuantity(db, user, row, quantity)
    case RemoveFromCart(user, row) => RemoveItem(db, user, row)
    case EmptyTheCart(user) => Ok(ClearCart(db, user))
    case CheckOut(user) => Checkout(db, user)
    case BuyDirectly(product) => DirectOrder(db, product)
    case StartCreate(_, order, given, settings, schedule) =>
      var opening :- OpenCreate(db, order, given, settings, schedule);
      Ok(opening.db)
    case StartPay(_, order, given, settings, schedule) =>
      var opening :- OpenPay(db, order, given, settings, schedule);
      Ok(opening.db)
    case StoreReply(id) =>
      if id in w.phases && w.phases[id].Storing?
      then StoreReference(db, w.phases[id].payment, w.phases[id].provider, w.phases[id].reference)
      else Ok(db)
    case UndoOpening(id) =>
      if id in w.phases && w.phases[id].Undoing? then Compensate(db, w.phases[id].payment, w.phases[id].createdItem) else Ok(db)
    case FinishPayment(id) =>
      if id in w.phases && w.phases[id].Finishing? then FinishPay(db, w.phases[id].payment, Answer(w.phases[id].accepted)) else Ok(db)
    case Deliver(event) => Process(db, event)
    case CallProvider(_, _) => Ok(db)
    case Confirm(_, _) => Ok(db)
    case Crash(_) => Ok(db)
  }

  /** A call that has opened its attempt asks the provider, unless the reference is already stored. */
  function AfterOpening(driver: Driver, opening: Opening): Phase
    requires opening.payment in opening.db.payments
  {
    var row := opening.db.payments[opening.payment];
    if driver.PayOrder? && row.HasReference()
    then Confirming(opening.payment, opening.provider, row.transactionId.value)
    else Calling(driver, opening.payment, opening.amount, opening.provider, opening.createdItem)
  }

  function AfterReply(phase: Phase, reply: Reply): Option<Phase>
    requires phase.Calling?
  {
    match reply
    case Accepted(reference) => Some(Storing(phase.driver, phase.payment, phase.provider, reference))
    case Rejected => Some(Undoing(phase.payment, phase.createdItem))
    case Misconfigured => Some(Undoing(phase.payment, phase.createdItem))
    case Lost => None
  }

  /** The local provider's two answers. */
  function Answer(accepted: bool): Verdict {
    if accepted then Succeeded else Declined
  }

  /** Only the local provider confirms, and only its own references; Stripe's confirmation raises. */
  function AfterConfirmation(phase: Phase, accepted: bool): Option<Phase>
    requires phase.Confirming?
  {
    if phase.provider.Local? && LOCAL_PREFIX <= phase.reference then Some(Finishing(phase.payment, accepted)) else None
  }

  function Move(phases: map<CallId, Phase>, id: CallId, next: Option<Phase>): map<CallId, Phase> {
    if next.Some? then phases[id := next.value] else phases - {id}
  }

  /** The phases after a step: a call whose transaction raised is over. */
  function Phases(w: World, step: Step): map<CallId, Phase> {
    match step
    case StartCreate(id, order, given, settings, schedule) =>
      var opening := OpenCreate(w.db, order, given, settings, schedule);
      if opening.Ok? && opening.value.payment in opening.value.db.payments
      then w.phases[id := AfterOpening(CreatePayment, opening.value)] else w.phases
    case StartPay(id, order, given, settings, schedule) =>
      var opening := OpenPay(w.db, order, given, settings, schedule);
      if opening.Ok? && opening.value.payment in opening.value.db.payments
      then w.phases[id := AfterOpening(PayOrder, opening.value)] else w.phases
    case CallProvider(id, reply) =>
      if id in w.phases && w.phases[id].Calling? then Move(w.phases, id, AfterReply(w.phases[id], reply)) else w.phases
    case StoreReply(id) =>
      if id in w.phases && w.phases[id].Storing? then
        var phase := w.phases[id];
        var next := Confirming(phase.payment, phase.provider, phase.reference);
        Move(w.phases, id, if phase.driver.PayOrder? && Transact(w, step).Ok? then Some(next) else None)
      else w.phases
    case UndoOpening(id) => if id in w.phases && w.phases[id].Undoing? then w.phases - {id} else w.phases
    case Confirm(id, accepted) =>
      if id in w.phases && w.phases[id].Confirming? then Move(w.phases, id, AfterConfirmation(w.phases[id], accepted)) else w.phases
    case FinishPayment(id) => if id in w.phases && w.phases[id].Finishing? then w.phases - {id} else w.phases
    case Crash(id) => w.phases - {id}
    case _ => w.phases
  }

  function Calls(w: World, step: Step): seq<ProviderCall> {
    if step.CallProvider? && step.id in w.phases && w.phases[step.id].Calling? then
      var phase := w.phases[step.id];
      w.calls + [ProviderCall(phase.payment, IdempotencyKey(phase.payment), phase.amount)]
    else w.calls
  }

  /** A transaction that raises is rolled back: the database stays as it was. */
  function Next(w: World, step: Step): World {
    var result := Transact(w, step);
    World(if result.Ok? then result.value else w.db, Phases(w, step), Calls(w, step))
  }

  function Run(w: World, steps: seq<Step>): World {
    if steps == [] then w else Next(Run(w, steps[..|steps| - 1]), steps[|steps| - 1])
  }

  const EMPTY: Database :=
    Database(map[], map[], map[], map[], map[], map[], map[], {}, multiset{}, 0, 0, 0, 0, 0)

  /** The empty shop, in which every run starts. */
  const START: World := World(EMPTY, map[], [])

  // ---------------------------------------------------------------- the invariant over runs

  ghost predicate PhaseSound(db: Database, phase: Phase) {
    && phase.payment in db.payments
    && (phase.Calling? ==> phase.amount == db.payments[phase.payment].amount && phase.createdItem == None)
    && (phase.Undoing? ==> phase.createdItem == None)
  }

  ghost predicate CallSound(db: Database, call: ProviderCall) {
    && call.payment in db.payments
    && call.key == IdempotencyKey(call.payment) && call.amount == db.payments[call.payment].amount
  }

  ghost predicate Sound(w: World) {
    && Inv(w.db)
    && (forall id <- w.phases :: PhaseSound(w.db, w.phases[id]))
    && (forall call <- w.calls :: CallSound(w.db, call))
  }
}
