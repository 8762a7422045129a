/** The Stripe webhook consumer: deduplication, validation and dispatch, all in one transaction. */
module Webhooks {
  import opened Foundations
  import opened Schema
  import opened Allocation
  import opened Payments
  import opened Invariants
  import opened Effects
  import opened References

  datatype EventType = Completed | AsyncPaymentSucceeded | AsyncPaymentFailed | SessionExpired | Unrecognised

  datatype CheckoutSession = CheckoutSession(id: string, localPaymentId: Option<string>, paymentStatus: string)

  /** `StripeWebhookResult`: a parsed event; events of other kinds carry no session. */
  datatype Event = Event(id: string, kind: EventType, session: Option<CheckoutSession>)

  function AsciiDigit(c: char): int {
    if '0' <= c <= '9' then (c - '0') as int else -1
  }

  /** `SUCCESSFUL_PAYMENT_STATUSES`. */
  predicate Successful(paymentStatus: string) {
    paymentStatus == "paid" || paymentStatus == "no_payment_required"
  }

  /** The payment a supported event refers to, after every check the webhook makes. */
  function ReferredPayment(db: Database, session: CheckoutSession): Result<PaymentId, Error> {
    if session.localPaymentId == None then Err(InvalidPaymentReference)
    else
      var parsed := ParseReference(session.localPaymentId.value, AsciiDigit);
      if parsed == None then Err(InvalidPaymentReference)
      else if parsed.value !in db.payments || db.payments[parsed.value].order !in db.orders then Err(UnknownStripePayment)
      else if db.payments[parsed.value].provider != Some(Stripe) then Err(ProviderIsNotStripe)
      else if db.payments[parsed.value].transactionId != Some(session.id) then Err(ForeignCheckoutSession)
      else Ok(parsed.value)
  }

  function Record(db: Database, event: Event): Database {
    db.(events := db.events + {event.id})
  }

  /** Validation and dispatch of a supported event. */
  function Apply(db: Database, session: CheckoutSession, kind: EventType): Result<Database, Error> {
    var payment :- ReferredPayment(db, session);
    match kind
    case Unrecognised => Err(ValueError)
    case Completed | AsyncPaymentSucceeded =>
      if !Successful(session.paymentStatus) then Ok(db)
      else
        var completion :- Complete(db, payment);
        Ok(completion.db)
    case AsyncPaymentFailed | SessionExpired =>
      if db.payments[payment].status.Paid? then Ok(db) else Fail(db, payment)
  }

  /** `process_stripe_webhook`. An error leaves the database as it was, event table included. */
  function Process(db: Database, event: Event): Result<Database, Error> {
    if event.id in db.events then Ok(db)
    else if event.session == None then Ok(Record(db, event))
    else Apply(Record(db, event), event.session.value, event.kind)
  }

  lemma ReferredExists(db: Database, session: CheckoutSession)
    requires ReferredPayment(db, session).Ok?
    ensures ReferredPayment(db, session).value in db.payments
    ensures db.payments[ReferredPayment(db, session).value].order in db.orders
  {
  }

  lemma SameReference(db: Database, event: Event)
    requires event.session.Some?
    ensures ReferredPayment(Record(db, event), event.session.value) == ReferredPayment(db, event.session.value)
  {
  }

  lemma RecordKeepsInv(db: Database, event: Event)
    requires Inv(db)
    ensures Inv(Record(db, event))
  {
    hide KeyStates, Holdings, Authority, Outcomes, Valued, Agreement, NonEmptyOrders, DirectItems, Delivered, Notified, UniqueProducts,
         PositiveQuantities, UniqueTransactions, CartRows;
  }

  lemma ProcessKeepsInv(db: Database, event: Event)
    requires Inv(db) && Process(db, event).Ok?
    ensures Inv(Process(db, event).value)
  {
    hide Inv, Complete, Fail, ParseReference;
    RecordKeepsInv(db, event);
    if event.session.Some? && ReferredPayment(db, event.session.value).Ok? {
      var payment := ReferredPayment(db, event.session.value).value;
      CompleteEffect(Record(db, event), payment);
      FailEffect(Record(db, event), payment);
    }
  }

  // ---------------------------------------------------------------- exactly once

  /** A processed event is recorded, no recorded event is forgotten, and a recorded event has no further effect. */
  lemma ProcessedOnce(db: Database, event: Event)
    requires Process(db, event).Ok?
    ensures event.id in Process(db, event).value.events && db.events <= Process(db, event).value.events
    ensures Process(Process(db, event).value, event) == Ok(Process(db, event).value)
  {
    if event.id !in db.events && event.session.Some? {
      var recorded := Record(db, event);
      var payment := ReferredPayment(db, event.session.value).value;
      CompleteKeepsEvents(recorded, payment);
      FailKeepsEvents(recorded, payment);
    }
  }

  lemma CompleteKeepsEvents(db: Database, payment: PaymentId)
    ensures Complete(db, payment).Ok? ==> Complete(db, payment).value.db.events == db.events
  {
    hide EnoughStock, Claims, LockedReservation, KeyTaken;
  }

  lemma FailKeepsEvents(db: Database, payment: PaymentId)
    requires payment in db.payments && db.payments[payment].order in db.orders
    ensures Fail(db, payment).Ok? ==> Fail(db, payment).value.events == db.events
  {
    hide LockedReservation;
  }
}
