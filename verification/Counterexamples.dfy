/**
 * Concrete runs in which the code does not do what its documentation or its callers hope for: a late
 * success that finds no key, and the two writes that do not look at the order again.
 */
module Counterexamples {
  import opened Foundations
  import opened Schema
  import opened Allocation
  import opened Payments
  import opened Invariants
  import opened Transitions
  import opened Effects
  import opened References
  import opened Webhooks
  import opened Runs
  import opened Safety
  import opened Conservation
  import opened Guarantees
  import opened Compensation

  // ---------------------------------------------------------------- one product, one key, one order

  const SETTINGS: Settings := Settings(Local, true)
  const PRICE: Product := Product(5, true)
  const ITEM: OrderItem := OrderItem(0, 0, 1, 5)
  const FREE_KEY: map<KeyId, LicenseKey> := map[0 := LicenseKey(0, Available)]
  const HELD_KEY: map<KeyId, LicenseKey> := map[0 := LicenseKey(0, Reserved)]
  const SOLD_KEY: map<KeyId, LicenseKey> := map[0 := LicenseKey(0, Sold)]
  const ITEMS: map<ItemId, OrderItem> := map[0 := ITEM]

  function TheOrder(attempt: Option<PaymentId>): Order {
    Order(Direct, Some(0), Some(5), OrderStatus.Created, None, None, attempt)
  }

  const PAID_ORDER: Order := Order(Direct, Some(0), Some(5), OrderStatus.Paid, Some(5), Some(0), None)

  function ThePayment(status: PaymentStatus, provider: ProviderName, reference: Option<string>): Payment {
    Payment(0, status, Some(provider), reference, 5)
  }

  function Shop(
    keys: map<KeyId, LicenseKey>, assignments: map<KeyId, ItemId>, items: map<ItemId, OrderItem>, order: Order,
    payments: map<PaymentId, Payment>, events: set<string>, emails: multiset<OrderId>, nextItem: ItemId, nextPayment: PaymentId
  ): Database {
    Database(keys, assignments, items, map[0 := order], payments, map[0 := PRICE], map[], events, emails,
             1, nextItem, 1, nextPayment, 0)
  }

  /** The order with its item, unpaid, and a free key. */
  const FRESH: Database := Shop(FREE_KEY, map[], ITEMS, TheOrder(None), map[], {}, multiset{}, 1, 0)

  /** The same order from before order items. */
  const LEGACY: Database := Shop(FREE_KEY, map[], map[], TheOrder(None), map[], {}, multiset{}, 0, 0)

  /** A Stripe attempt has been opened. */
  const OPEN: Database :=
    Shop(HELD_KEY, map[0 := 0], ITEMS, TheOrder(Some(0)), map[0 := ThePayment(PaymentStatus.Created, Stripe, None)], {}, multiset{}, 1, 1)

  lemma OneKey()
    ensures ReservationPool(FREE_KEY, map[], {}) == {0}
    ensures EnoughStock(FREE_KEY, ITEMS, 0, {0})
    ensures Claims(FREE_KEY, ITEMS, 0, {0}) == map[0 := 0]
  {
    assert Stock(FREE_KEY, {0}, 0) == {0};
    assert ItemsFor(ITEMS, 0, 0) == {0};
    var ids := FirstIds({0}, 1);
    assert ids[0] in ids;
    assert IsClaimed(FREE_KEY, ITEMS, 0, {0}, 0);
  }

  lemma Opening0()
    ensures Opened(FRESH, 0, 0, Some(Stripe), 5, map[0 := 0]) == OPEN
  {
    assert SetStatus(FREE_KEY, {0}, Reserved) == HELD_KEY;
    assert (map[0 := 0]).Keys == {0};
  }

  lemma RunSnoc(w: World, steps: seq<Step>, step: Step)
    ensures Run(w, steps + [step]) == Next(Run(w, steps), step)
  {
    assert (steps + [step])[..|steps|] == steps;
    hide Next;
  }

  // ---------------------------------------------------------------- a late success that finds no key

  const SESSION: string := "session"

  function TheEvent(id: string, kind: EventType): Event {
    Event(id, kind, Some(CheckoutSession(SESSION, Some(Print(0)), "paid")))
  }

  const FAILURE: Event := TheEvent("failure", AsyncPaymentFailed)
  const SUCCESS: Event := TheEvent("success", AsyncPaymentSucceeded)

  /** The attempt with its Stripe session, then after its failure, then after the freed key has gone. */
  const STORED: Database := OPEN.(payments := map[0 := ThePayment(PaymentStatus.Created, Stripe, Some(SESSION))])
  const FAILED: map<PaymentId, Payment> := map[0 := ThePayment(PaymentStatus.Failed, Stripe, Some(SESSION))]
  const FREED: Database := Shop(FREE_KEY, map[], ITEMS, TheOrder(None), FAILED, {"failure"}, multiset{}, 1, 1)
  const GONE: Database := Shop(map[], map[], ITEMS, TheOrder(None), FAILED, {"failure"}, multiset{}, 1, 1)

  /** Stock one key, buy it, open a Stripe checkout, fail it, and withdraw the freed key. */
  const PREPARATION: seq<Step> := [PublishProduct(0, PRICE), SupplyKey(0), BuyDirectly(0)]
  const CHECKOUT: seq<Step> :=
    [StartCreate(0, 0, Some(Stripe), SETTINGS, Schedule({}, 0)), CallProvider(0, Accepted(SESSION)), StoreReply(0)]
  const LOSS: seq<Step> := [Deliver(FAILURE), WithdrawKey(0)]

  const CALL: ProviderCall := ProviderCall(0, IdempotencyKey(0), 5)

  lemma Prepared()
    ensures Run(START, PREPARATION) == World(FRESH, map[], [])
  {
    var published := World(EMPTY.(catalogue := map[0 := PRICE]), map[], []);
    var supplied := World(published.db.(keys := FREE_KEY, nextKey := 1), map[], []);
    assert Next(START, PREPARATION[0]) == published;
    assert Next(published, PREPARATION[1]) == supplied;
    assert Next(supplied, PREPARATION[2]) == World(FRESH, map[], []) by {
      assert EMPTY.items + ITEMS == ITEMS;
    }
    ThreeSteps(START, PREPARATION[0], PREPARATION[1], PREPARATION[2]);
  }

  lemma TwoSteps(w: World, a: Step, b: Step)
    ensures Run(w, [a, b]) == Next(Next(w, a), b)
  {
    hide Next;
    RunSnoc(w, [], a);
    RunSnoc(w, [a], b);
    assert [] + [a] == [a] && [a] + [b] == [a, b];
  }

  lemma ThreeSteps(w: World, a: Step, b: Step, c: Step)
    ensures Run(w, [a, b, c]) == Next(Next(Next(w, a), b), c)
  {
    hide Next;
    TwoSteps(w, a, b);
    RunSnoc(w, [a, b], c);
    assert [a, b] + [c] == [a, b, c];
  }

  const CALLING: World := World(OPEN, map[0 := Calling(CreatePayment, 0, 5, Stripe, None)], [])
  const REPLIED: World := World(OPEN, map[0 := Storing(CreatePayment, 0, Stripe, SESSION)], [CALL])

  lemma Starts()
    requires Inv(FRESH)
    ensures Next(World(FRESH, map[], []), CHECKOUT[0]) == CALLING
  {
    FreshOpens();
    hide OpenCreate, Inv;
  }

  lemma Stores()
    ensures Next(CALLING, CHECKOUT[1]) == REPLIED
    ensures Next(REPLIED, CHECKOUT[2]) == World(STORED, map[], [CALL])
  {
    assert map[0 := ThePayment(PaymentStatus.Created, Stripe, None)][0 := ThePayment(PaymentStatus.Created, Stripe, Some(SESSION))]
        == STORED.payments;
  }

  lemma CheckedOut()
    ensures Run(World(FRESH, map[], []), CHECKOUT) == World(STORED, map[], [CALL])
  {
    hide Run, Next, Sound;
    Prepared();
    ReachableStatesAreSound(PREPARATION);
    SoundMeansInv(World(FRESH, map[], []));
    Starts();
    Stores();
    ThreeSteps(World(FRESH, map[], []), CHECKOUT[0], CHECKOUT[1], CHECKOUT[2]);
  }

  lemma FreshOpens()
    requires Inv(FRESH)
    ensures OpenCreate(FRESH, 0, Some(Stripe), SETTINGS, Schedule({}, 0)) == Ok(Opening(OPEN, 0, 5, Stripe, None))
  {
    hide Inv, OpenCreate, Claims, EnoughStock, ReservationPool, Opened;
    OpenCreateEffect(FRESH, 0, Some(Stripe), SETTINGS, Schedule({}, 0));
    OneKey();
    Opening0();
  }

  /** The events refer to the payment. */
  lemma EventsRefer(db: Database, event: Event)
    requires event == FAILURE || event == SUCCESS
    requires 0 in db.orders && 0 in db.payments && db.payments[0].order == 0
    requires db.payments[0].provider == Some(Stripe) && db.payments[0].transactionId == Some(SESSION)
    ensures ReferredPayment(db, event.session.value) == Ok(0)
  {
    hide Print, ParseReference;
    ReferenceRoundTrip(Print(0), 0, AsciiDigit);
  }

  lemma Fails()
    requires Inv(STORED)
    ensures Next(World(STORED, map[], [CALL]), LOSS[0]) == World(FREED, map[], [CALL])
  {
    hide Process, Inv, Print;
    FailureFrees();
  }

  lemma Withdraws()
    ensures Next(World(FREED, map[], [CALL]), LOSS[1]) == World(GONE, map[], [CALL])
  {
    assert FREE_KEY - {0} == map[];
  }

  lemma Lost()
    requires Inv(STORED)
    ensures Run(World(STORED, map[], [CALL]), LOSS) == World(GONE, map[], [CALL])
  {
    hide Run, Next, Inv;
    Fails();
    Withdraws();
    TwoSteps(World(STORED, map[], [CALL]), LOSS[0], LOSS[1]);
  }

  lemma FailureFrees()
    requires Inv(STORED)
    ensures Process(STORED, FAILURE) == Ok(FREED)
  {
    hide Inv, ReferredPayment, Fail, Withdrawn;
    EventsRefer(Record(STORED, FAILURE), FAILURE);
    RecordKeepsInv(STORED, FAILURE);
    FailEffect(Record(STORED, FAILURE), 0);
    WithdrawnIsFreed();
  }

  lemma WithdrawnIsFreed()
    ensures Withdrawn(Record(STORED, FAILURE), 0) == FREED
  {
    assert HeldFor(STORED.assignments, STORED.items, 0) == {0};
    assert SetStatus(HELD_KEY, {0}, Available) == FREE_KEY;
  }

  /**
   * After this run from the empty shop the customer's payment is confirmed, but its completion fails
   * for lack of keys: fulfilment did search for inventory after payment.
   */
  lemma LateSuccessMayFindNoKey()
    ensures var w := Run(START, PREPARATION + CHECKOUT + LOSS);
            && Sound(w) && w.db == GONE
            && Complete(w.db, 0) == Err(NoKeysAvailable)
            && Process(w.db, SUCCESS) == Err(NoKeysAvailable)
            && Next(w, Deliver(SUCCESS)) == w
  {
    hide Sound, Run, Complete, Process, Next;
    Prepared();
    CheckedOut();
    RunsCompose(START, PREPARATION, CHECKOUT);
    ReachableStatesAreSound(PREPARATION + CHECKOUT);
    SoundMeansInv(World(STORED, map[], [CALL]));
    Lost();
    RunsCompose(START, PREPARATION + CHECKOUT, LOSS);
    ReachableStatesAreSound(PREPARATION + CHECKOUT + LOSS);
    SoundMeansInv(World(GONE, map[], [CALL]));
    NoKeyLeft();
    FailedDeliveryIsNoStep(World(GONE, map[], [CALL]), SUCCESS);
  }

  lemma NoKeyLeft()
    requires Inv(GONE)
    ensures Complete(GONE, 0) == Err(NoKeysAvailable) && Process(GONE, SUCCESS) == Err(NoKeysAvailable)
  {
    hide Inv, ReferredPayment, Complete;
    EventsRefer(Record(GONE, SUCCESS), SUCCESS);
    RecordKeepsInv(GONE, SUCCESS);
    CompleteEffect(GONE, 0);
    CompleteEffect(Record(GONE, SUCCESS), 0);
    assert Stock(map[], SalePool(map[]), 0) == {};
    assert 0 in ItemsOf(ITEMS, 0);
  }

  // ---------------------------------------------------------------- two calls race on a legacy order

  /** The reference the local provider returns for payment 0. */
  const REFERENCE: string := LOCAL_PREFIX + "payment-" + Print(0)

  const PAYING: Database := OPEN.(payments := map[0 := ThePayment(PaymentStatus.Created, Local, Some(REFERENCE))])
  const PAID: Database :=
    Shop(SOLD_KEY, map[0 := 0], ITEMS, PAID_ORDER, map[0 := ThePayment(PaymentStatus.Paid, Local, Some(REFERENCE))], {},
         multiset{0}, 1, 1)
  const STRANDED: Database := PAID.(items := map[], assignments := map[])

  /**
   * One call opens a Stripe checkout for an order without items. Another resumes the attempt with the
   * local provider and pays it. Then the first learns that Stripe rejected it, and compensates.
   */
  const OPENINGS: seq<Step> :=
    [StartCreate(0, 0, Some(Stripe), SETTINGS, Schedule({}, 0)), StartPay(1, 0, Some(Local), SETTINGS, Schedule({}, 1))]
  const PAYMENT: seq<Step> := [CallProvider(1, Accepted(REFERENCE)), StoreReply(1), Confirm(1, true)]
  const SETTLEMENT: seq<Step> := [FinishPayment(1), CallProvider(0, Reply.Rejected), UndoOpening(0)]

  const FIRST: Phase := Calling(CreatePayment, 0, 5, Stripe, Some(0))
  const UNDERWAY: World := World(OPEN, map[0 := FIRST, 1 := Calling(PayOrder, 0, 5, Local, None)], [])
  const CONFIRMED: World := World(PAYING, map[0 := FIRST, 1 := Finishing(0, true)], [CALL])

  lemma ReferenceIsLocal()
    ensures LocalReference(IdempotencyKey(0)) == REFERENCE
  {
    LocalReferenceShape(0);
  }

  lemma LegacyIsCoherent()
    ensures Coherent(LEGACY) && Legacy(LEGACY, 0)
  {
    assert PaidPayments(map[], 0) == {};
    assert HeldFor(map[], map[], 0) == {};
    assert ItemsOf(map[], 0) == {};
    assert ActivePayments(map[], 0) == {};
  }

  lemma LegacyOpens()
    ensures OpenCreate(LEGACY, 0, Some(Stripe), SETTINGS, Schedule({}, 0)) == Ok(Opening(OPEN, 0, 5, Stripe, Some(0)))
  {
    hide Claims, EnoughStock, ReservationPool, Coherent, Reserve, SetStatus;
    LegacyIsCoherent();
    LegacyItemIsStocked(LEGACY, 0);
    var ready := InsertPayment(FRESH, 0, 0, Some(Stripe), 5);
    assert EnsureItems(InsertPayment(LEGACY, 0, 0, Some(Stripe), 5), 0, 5) == Ok(ready);
    FreshReserves();
    Opening0();
    assert ItemsOf(ITEMS, 0) == {0};
  }

  lemma FreshReserves()
    requires Stocked(FRESH, 0)
    ensures ReserveFor(InsertPayment(FRESH, 0, 0, Some(Stripe), 5), 0, 0, {}) == Ok(Opened(FRESH, 0, 0, Some(Stripe), 5, map[0 := 0]))
  {
    hide Claims, EnoughStock, ReservationPool, Reserve, SetStatus, KeyStates, Holdings, UniqueProducts, PositiveQuantities;
    OneKey();
    ReserveEffect(InsertPayment(FRESH, 0, 0, Some(Stripe), 5), 0, {});
  }

  lemma LegacyStarts()
    ensures Next(World(LEGACY, map[], []), OPENINGS[0]) == World(OPEN, map[0 := FIRST], [])
  {
    hide OpenCreate;
    LegacyOpens();
  }

  lemma OpenIsConsistent()
    ensures Inv(OPEN)
  {
    hide Sound, Run, Inv, Next;
    Prepared();
    ReachableStatesAreSound(PREPARATION);
    SoundMeansInv(World(FRESH, map[], []));
    FreshKeepsInv();
  }

  lemma FreshKeepsInv()
    requires Inv(FRESH)
    ensures Inv(OPEN)
  {
    hide Inv, OpenCreate;
    FreshOpens();
    OpenCreateEffect(FRESH, 0, Some(Stripe), SETTINGS, Schedule({}, 0));
  }

  lemma Resumes()
    ensures OpenPay(OPEN, 0, Some(Local), SETTINGS, Schedule({}, 1)) == Ok(Opening(OPEN, 0, 5, Local, None))
  {
    hide Inv, OpenPay, FreshOpening;
    OpenIsConsistent();
    AuthorityHolds(OPEN);
    OpenPayEffect(OPEN, 0, Some(Local), SETTINGS, Schedule({}, 1));
  }

  lemma ResumeStep()
    ensures Next(World(OPEN, map[0 := FIRST], []), OPENINGS[1]) == UNDERWAY
  {
    hide OpenPay;
    Resumes();
  }

  const STORING: World := World(OPEN, map[0 := FIRST, 1 := Storing(PayOrder, 0, Local, REFERENCE)], [CALL])
  const CONFIRMING: World := World(PAYING, map[0 := FIRST, 1 := Confirming(0, Local, REFERENCE)], [CALL])

  lemma Replies()
    ensures Next(UNDERWAY, PAYMENT[0]) == STORING
    ensures Next(CONFIRMING, PAYMENT[2]) == CONFIRMED
  {
    hide Print;
    assert LOCAL_PREFIX <= REFERENCE;
  }

  lemma StoresReference()
    ensures StoreReference(OPEN, 0, Local, REFERENCE) == Ok(PAYING)
  {
    hide Print;
    assert OPEN.payments[0 := ThePayment(PaymentStatus.Created, Local, Some(REFERENCE))] == PAYING.payments;
  }

  lemma StoreStep()
    ensures Next(STORING, PAYMENT[1]) == CONFIRMING
  {
    hide StoreReference, Print;
    StoresReference();
  }

  lemma Pays()
    ensures Run(UNDERWAY, PAYMENT) == CONFIRMED
  {
    hide Print, Run, Next;
    Replies();
    StoreStep();
    ThreeSteps(UNDERWAY, PAYMENT[0], PAYMENT[1], PAYMENT[2]);
  }

  lemma PayingIsConsistent()
    ensures Inv(PAYING)
  {
    hide Inv, Print, StoreReference;
    OpenIsConsistent();
    StoreReferenceKeepsInv(OPEN, 0, Local, REFERENCE);
    StoresReference();
  }

  lemma Completes()
    ensures Complete(PAYING, 0) == Ok(Completion(PAID, false)) && Inv(PAID)
  {
    hide Inv, Complete, Print;
    PayingIsConsistent();
    CompleteEffect(PAYING, 0);
    SettledIsPaid();
  }

  lemma SettledIsPaid()
    ensures SettledFromReservation(PAYING, 0, 5) == PAID
  {
    hide Print;
    assert HeldFor(PAYING.assignments, PAYING.items, 0) == {0};
    assert SetStatus(HELD_KEY, {0}, Sold) == SOLD_KEY;
  }

  lemma DeletesTheItem()
    ensures Compensate(PAID, 0, Some(0)) == Ok(STRANDED) && !Coherent(STRANDED)
  {
    hide Inv, Coherent, Print, Compensate;
    Completes();
    CoherenceOfInv(PAID);
    assert 0 in ItemsOf(PAID.items, 0);
    var after := ItemDeleteIsSafeIff(PAID, 0, 0, 0);
    CompensationStrands();
  }

  lemma CompensationStrands()
    ensures Compensate(PAID, 0, Some(0)) == Ok(STRANDED)
  {
    hide Print;
    assert HeldBy(map[0 := 0], 0) == {0};
    assert ITEMS - {0} == map[];
    assert (map[0 := 0]) - {0} == map[];
  }

  lemma CoherenceOfInv(db: Database)
    requires Inv(db)
    ensures Coherent(db)
  {
  }

  const COMPLETED: World := World(PAID, map[0 := FIRST], [CALL])
  const UNDOING: World := World(PAID, map[0 := Undoing(0, Some(0))], [CALL, CALL])

  lemma FinishStep()
    ensures Next(CONFIRMED, SETTLEMENT[0]) == COMPLETED
  {
    hide Complete, Inv, Print;
    Completes();
  }

  lemma RejectionStep()
    ensures Next(COMPLETED, SETTLEMENT[1]) == UNDOING
  {
    hide Print;
  }

  lemma UndoStep()
    ensures Next(UNDOING, SETTLEMENT[2]) == World(STRANDED, map[], [CALL, CALL])
  {
    hide Compensate, Coherent, Print;
    DeletesTheItem();
  }

  lemma Settles()
    ensures Run(CONFIRMED, SETTLEMENT) == World(STRANDED, map[], [CALL, CALL])
  {
    hide Run, Next, Print;
    FinishStep();
    RejectionStep();
    UndoStep();
    ThreeSteps(CONFIRMED, SETTLEMENT[0], SETTLEMENT[1], SETTLEMENT[2]);
  }

  /**
   * The run starts from coherent tables with one legacy order and ends with that order paid, without
   * items, and its key sold but assigned to nobody. Just before the compensation all was consistent.
   */
  lemma CompensationMayStrandASoldKey()
    ensures Legacy(LEGACY, 0) && Coherent(LEGACY)
    ensures Run(World(LEGACY, map[], []), OPENINGS + PAYMENT + SETTLEMENT).db == STRANDED
    ensures Inv(PAID) && Compensate(PAID, 0, Some(0)) == Ok(STRANDED)
    ensures STRANDED.orders[0].status.Paid? && ItemsOf(STRANDED.items, 0) == {}
    ensures STRANDED.keys[0].status.Sold? && 0 !in STRANDED.assignments && !Coherent(STRANDED)
  {
    hide Run, Next, Inv, Coherent, Compensate, Print;
    LegacyIsCoherent();
    LegacyStarts();
    ResumeStep();
    TwoSteps(World(LEGACY, map[], []), OPENINGS[0], OPENINGS[1]);
    Pays();
    Settles();
    RunsCompose(World(LEGACY, map[], []), OPENINGS, PAYMENT);
    RunsCompose(World(LEGACY, map[], []), OPENINGS + PAYMENT, SETTLEMENT);
    Completes();
    DeletesTheItem();
  }

  /** On the same paid shop the pending write of a provider that has not settled reopens the payment. */
  lemma PendingWriteMayReopenAPaidPayment()
    ensures Inv(PAID)
    ensures var after := FinishPay(PAID, 0, Unsettled);
            && after.Ok? && after.value.payments[0].status.Pending? && after.value.orders[0].status.Paid?
            && !Coherent(after.value)
  {
    hide Inv, Coherent, Print;
    Completes();
    CoherenceOfInv(PAID);
    PendingWriteIsSafeIff(PAID, 0);
  }
}
