/** What the phases of a driver call amount to, from one transaction of a run to the next. */
module DriverCalls {
  import opened Foundations
  import opened Schema
  import opened Payments
  import opened Invariants
  import opened References
  import opened Runs
  import opened Safety
  import opened Conservation
  import opened Operations

  /** No other call is touched. */
  ghost predicate OthersStay(before: map<CallId, Phase>, after: map<CallId, Phase>, id: CallId) {
    forall other | other != id :: (other in after <==> other in before) && (other in before ==> after[other] == before[other])
  }

  lemma RunOfTwo(w: World, a: Step, b: Step)
    ensures Run(w, [a, b]) == Next(Next(w, a), b)
  {
    hide Next;
    assert [a, b][..1] == [a] && [a][..0] == [];
    assert Run(w, []) == w && Run(w, [a]) == Next(w, a);
  }

  // ---------------------------------------------------------------- starting

  /** A `create_payment` that opens its attempt goes on to ask the provider; one that raises is over. */
  lemma CreateStarts(w: World, id: CallId, order: OrderId, given: Option<ProviderName>, settings: Settings, schedule: Schedule)
    requires Sound(w)
    ensures var result := OpenCreate(w.db, order, given, settings, schedule);
            var after := Next(w, StartCreate(id, order, given, settings, schedule));
            && after.calls == w.calls && OthersStay(w.phases, after.phases, id)
            && (result.Err? ==> after == w)
            && (result.Ok? ==>
                  && after.db == result.value.db && id in after.phases
                  && after.phases[id] == Calling(CreatePayment, result.value.payment, result.value.amount, result.value.provider, None))
  {
    hide Inv, OpenCreate, OpenPay, InStock, OpenedExactly;
    CreationIsExact(w.db, order, given, settings, schedule);
    OpenedPaymentExists(w.db, order, given, settings, schedule);
  }

  lemma OpenedPaymentExists(db: Database, order: OrderId, given: Option<ProviderName>, settings: Settings, schedule: Schedule)
    requires Inv(db)
    ensures var result := OpenCreate(db, order, given, settings, schedule);
            result.Ok? ==> result.value.payment in result.value.db.payments
    ensures var result := OpenPay(db, order, given, settings, schedule);
            result.Ok? ==> result.value.payment in result.value.db.payments
  {
    hide Inv, OpenCreate, OpenPay, InStock, TakesLowest;
    CreationIsExact(db, order, given, settings, schedule);
    PayingIsExact(db, order, given, settings, schedule);
  }

  /**
   * A `pay_order` that finds an attempt with a stored reference goes straight to confirming that
   * reference, without asking the provider for a payment again; otherwise it asks.
   */
  lemma PayStarts(w: World, id: CallId, order: OrderId, given: Option<ProviderName>, settings: Settings, schedule: Schedule)
    requires Sound(w)
    ensures var result := OpenPay(w.db, order, given, settings, schedule);
            var after := Next(w, StartPay(id, order, given, settings, schedule));
            && after.calls == w.calls && OthersStay(w.phases, after.phases, id)
            && (result.Err? ==> after == w)
            && (result.Ok? ==>
                  && after.db == result.value.db && id in after.phases && result.value.payment in after.db.payments
                  && var reference := after.db.payments[result.value.payment].transactionId;
                     after.phases[id] ==
                       if reference.Some? && reference.value != "" then Confirming(result.value.payment, result.value.provider, reference.value)
                       else Calling(PayOrder, result.value.payment, result.value.amount, result.value.provider, result.value.createdItem))
  {
    hide Inv, OpenCreate, OpenPay;
    OpenedPaymentExists(w.db, order, given, settings, schedule);
  }

  // ---------------------------------------------------------------- the provider's reply

  /** Every reply: the request is on record with the attempt's key and amount, and no row changes. */
  lemma RepliesWriteNothing(w: World, id: CallId, reply: Reply)
    requires id in w.phases && w.phases[id].Calling?
    ensures var after := Next(w, CallProvider(id, reply));
            && after.db == w.db && OthersStay(w.phases, after.phases, id)
            && after.calls == w.calls + [ProviderCall(w.phases[id].payment, "payment-" + Print(w.phases[id].payment), w.phases[id].amount)]
  {
    hide Print;
  }

  /** A lost reply ends the call; payment, authority and reservation stay for a retry. */
  lemma LossEndsTheCall(w: World, id: CallId)
    requires id in w.phases && w.phases[id].Calling?
    ensures var after := Next(w, CallProvider(id, Lost));
            after.db == w.db && id !in after.phases && OthersStay(w.phases, after.phases, id)
  {
  }

  /** A rejection, or a provider that is not configured, ends the attempt and the call, unless the attempt has been paid. */
  lemma RejectionEndsTheAttempt(w: World, id: CallId, reply: Reply)
    requires Sound(w) && id in w.phases && w.phases[id].Calling? && (reply.Rejected? || reply.Misconfigured?)
    ensures var payment := w.phases[id].payment;
            var after := Run(w, [CallProvider(id, reply), UndoOpening(id)]);
            && id !in after.phases && OthersStay(w.phases, after.phases, id)
            && payment in w.db.payments
            && if w.db.payments[payment].status.Paid? then after.db == w.db
               else EndedExactly(w.db, after.db, payment, PaymentStatus.Failed)
  {
    hide Run, EndedExactly, Compensate, Inv, Print;
    var phase := w.phases[id];
    assert PhaseSound(w.db, phase);
    RunOfTwo(w, CallProvider(id, reply), UndoOpening(id));
    CompensationIsExact(w.db, phase.payment);
  }

  lemma CompensationIsExact(db: Database, payment: PaymentId)
    requires Inv(db) && payment in db.payments
    ensures var result := Compensate(db, payment, None);
            result.Ok? && if db.payments[payment].status.Paid? then result.value == db
                          else EndedExactly(db, result.value, payment, PaymentStatus.Failed)
  {
    hide Inv, Terminate, EndedExactly;
    TerminationIsExact(db, payment, PaymentStatus.Failed);
  }

  /**
   * An accepted payment: unless another payment has the reference, provider and reference are stored;
   * `create_payment` is over then, and `pay_order` goes on to confirm that reference.
   */
  lemma AcceptanceIsStored(w: World, id: CallId, reference: string)
    requires id in w.phases && w.phases[id].Calling?
    ensures var phase := w.phases[id];
            var after := Run(w, [CallProvider(id, Accepted(reference)), StoreReply(id)]);
            && OthersStay(w.phases, after.phases, id)
            && (StoreReference(w.db, phase.payment, phase.provider, reference).Ok? ==>
                  && after.db == StoreReference(w.db, phase.payment, phase.provider, reference).value
                  && if phase.driver.CreatePayment? then id !in after.phases
                     else id in after.phases && after.phases[id] == Confirming(phase.payment, phase.provider, reference))
            && (StoreReference(w.db, phase.payment, phase.provider, reference).Err? ==> after.db == w.db && id !in after.phases)
  {
    hide Run, StoreReference, Print;
    RunOfTwo(w, CallProvider(id, Accepted(reference)), StoreReply(id));
  }

  // ---------------------------------------------------------------- confirming

  /**
   * Only the local provider's own references are confirmed. A declined payment ends unless it has been
   * paid; an accepted one completes, or leaves everything as it was. The call is over either way.
   */
  lemma ConfirmationFinishes(w: World, id: CallId, accepted: bool)
    requires Sound(w) && id in w.phases && w.phases[id].Confirming?
    ensures var phase := w.phases[id];
            var after := Run(w, [Confirm(id, accepted), FinishPayment(id)]);
            && id !in after.phases && OthersStay(w.phases, after.phases, id) && after.calls == w.calls
            && phase.payment in w.db.payments
            && if phase.provider != Local || !("local-pay-" <= phase.reference) then after.db == w.db
               else if accepted then
                 exists result :: CompletesExactly(w.db, phase.payment, result) && after.db == if result.Ok? then result.value else w.db
               else if w.db.payments[phase.payment].status.Paid? then after.db == w.db
               else EndedExactly(w.db, after.db, phase.payment, PaymentStatus.Failed)
  {
    hide Run, FinishPay, Inv, EndedExactly, CompletesExactly;
    var phase := w.phases[id];
    assert PhaseSound(w.db, phase);
    RunOfTwo(w, Confirm(id, accepted), FinishPayment(id));
    FinishingIsExact(w.db, phase.payment, if accepted then Succeeded else Declined);
  }

  // ---------------------------------------------------------------- interruptions

  /** A crash ends one call, wherever it stands, and touches nothing else. */
  lemma CrashEndsTheCall(w: World, id: CallId)
    ensures var after := Next(w, Crash(id));
            after.db == w.db && after.calls == w.calls && id !in after.phases && OthersStay(w.phases, after.phases, id)
  {
  }

  lemma {:induction false} CrashesWriteNothing(w: World, crashes: seq<Step>)
    requires forall step <- crashes :: step.Crash?
    ensures Run(w, crashes).db == w.db && Run(w, crashes).calls == w.calls
  {
    if crashes != [] {
      CrashesWriteNothing(w, crashes[..|crashes| - 1]);
      assert crashes[|crashes| - 1] in crashes;
    }
  }

  /**
   * A call stored the reference of the attempt in charge, and then any calls crashed, this one too.
   * A later `pay_order` without injected provider resumes that attempt with that provider and
   * confirms that reference, without a second request to the provider.
   */
  lemma StoredAttemptResumes(w: World, id: CallId, crashes: seq<Step>, other: CallId, order: OrderId, settings: Settings, schedule: Schedule)
    requires Sound(w) && id in w.phases && w.phases[id].Storing? && w.phases[id].reference != ""
    requires order in w.db.orders && w.db.orders[order].attempt == Some(w.phases[id].payment)
    requires w.phases[id].provider == Local || (w.phases[id].provider == Stripe && settings.stripeReady)
    requires forall q <- w.db.payments | w.db.payments[q].transactionId == Some(w.phases[id].reference) :: q == w.phases[id].payment
    requires forall step <- crashes :: step.Crash?
    ensures var phase := w.phases[id];
            var stored := Next(w, StoreReply(id));
            var after := Next(Run(stored, crashes), StartPay(other, order, None, settings, schedule));
            && stored.db.payments[phase.payment].provider == Some(phase.provider)
            && stored.db.payments[phase.payment].transactionId == Some(phase.reference)
            && after.db == stored.db && after.calls == w.calls
            && other in after.phases && after.phases[other] == Confirming(phase.payment, phase.provider, phase.reference)
  {
    hide Run, Inv, Next, Sound;
    var phase := w.phases[id];
    var stored := Next(w, StoreReply(id));
    StoreWrites(w, id);
    NextIsSound(w, StoreReply(id));
    RunIsSound(stored, crashes);
    CrashesWriteNothing(stored, crashes);
    StoredIsResumed(Run(stored, crashes), other, order, settings, schedule, phase);
  }

  lemma StoreWrites(w: World, id: CallId)
    requires Sound(w) && id in w.phases && w.phases[id].Storing?
    requires forall q <- w.db.payments | w.db.payments[q].transactionId == Some(w.phases[id].reference) :: q == w.phases[id].payment
    ensures var phase := w.phases[id];
            var stored := Next(w, StoreReply(id));
            && stored.calls == w.calls && stored.db == w.db.(payments := stored.db.payments)
            && phase.payment in stored.db.payments
            && stored.db.payments[phase.payment].provider == Some(phase.provider)
            && stored.db.payments[phase.payment].transactionId == Some(phase.reference)
  {
    hide StoreReference, Inv;
    assert PhaseSound(w.db, w.phases[id]);
    StoringIsExact(w.db, w.phases[id].payment, w.phases[id].provider, w.phases[id].reference);
  }

  lemma StoredIsResumed(w: World, other: CallId, order: OrderId, settings: Settings, schedule: Schedule, phase: Phase)
    requires Sound(w) && phase.Storing? && phase.reference != "" && phase.payment in w.db.payments
    requires order in w.db.orders && w.db.orders[order].attempt == Some(phase.payment)
    requires phase.provider == Local || (phase.provider == Stripe && settings.stripeReady)
    requires w.db.payments[phase.payment].provider == Some(phase.provider)
    requires w.db.payments[phase.payment].transactionId == Some(phase.reference)
    ensures var after := Next(w, StartPay(other, order, None, settings, schedule));
            && after.db == w.db && after.calls == w.calls
            && other in after.phases && after.phases[other] == Confirming(phase.payment, phase.provider, phase.reference)
  {
    hide Sound, OpenPay, Next, Inv, InStock, OpenedExactly;
    SoundMeansInv(w);
    AttemptIsUnpaid(w.db, order);
    PayingIsExact(w.db, order, None, settings, schedule);
    PayStarts(w, other, order, None, settings, schedule);
  }

  lemma AttemptIsUnpaid(db: Database, order: OrderId)
    requires Inv(db) && order in db.orders && db.orders[order].attempt.Some?
    ensures !db.orders[order].status.Paid?
  {
  }
}
