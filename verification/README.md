# Purchase engine of Ludora: model and proofs

Ludora sells licence keys. This project models the part of its backend that must not go wrong:
orders, reservations, payments and keys, the two payment drivers `create_payment` and `pay_order`
with their transactions around calls to an external provider, the Stripe webhook consumer, the cart
that produces orders, the confirmation email's eligibility test, and the two migrations that brought
older orders into the current form.

A key is available, reserved for an unpaid order, or sold to a paid one. An order may have many
payment attempts; `reservation_payment_attempt` names the only one that may sell or free its keys.
Provider calls run between database transactions, processes may stop anywhere, and webhooks arrive
late, twice and out of order.

## How the model is built

- `Schema` holds the tables as one value, `Database`, with the database's own constraints.
  `Allocation`, `Payments`, `Carts` and `Webhooks` specify every transaction as a function from
  tables to tables or an error. Branches, their order and their errors are those of the services.
- `Services.Store` is the imperative form: one object with a field per table and one method per
  service function. Each method is proved against the function that specifies it, rolling back when
  it raises. `RowLoops` has the loops the services run over query results. Methods that touch order
  items require `Tidy`, which the database's constraints imply (`RowLoops.ConstraintsAreTidy`).
- `Invariants` states the invariant that relates all tables. `Transitions` shows that four moves
  keep it; `Effects` shows that, under it, every payment transaction is one of those moves, no
  change, or a named error.
- `Runs` is the whole system as a state machine: stock and catalogue changes, cart operations, the
  phases of any number of concurrent driver calls with their local variables, provider replies,
  webhook deliveries and crashes. `History` says what is never undone; `Safety`, `Conservation`,
  `Guarantees`, `OutOfOrder`, `Compensation`, `Confirmation` and `Ledger` prove the results.
- `Operations` says what each purchase operation does to the rows of a consistent shop, case by case and
  without reference to the functions that specify it; `DriverCalls` does the same for the phases of a call.
- `Interleaving` drops the assumption that a reservation is atomic: transactions lock key rows one
  at a time, skipping locked ones, while everything else goes on; such runs are shown to be runs of
  `Runs`.
- `Counterexamples` has concrete runs for what does not hold.
- `References` covers payment references and transaction ids, `Backfill` the migrations.

An opening transaction has a parameter `schedule`: the keys other transactions have locked when it
runs `SELECT ... FOR UPDATE SKIP LOCKED`, and the id its payment row has drawn. `Runs` lets it be
arbitrary; `Interleaving` derives it.

## Where code and documentation differ

The model follows the code.

- `docs/architecture/ADR-001-license-reservation.md:401` says fulfilment never searches for inventory
  after payment. The code does (`backend/apps/orders/services.py:312-338`) when a success arrives for a
  payment that had failed and no attempt is in charge. `Guarantees.CompletionSucceedsIff` gives the
  exact condition under which it succeeds, and `Counterexamples.LateSuccessMayFindNoKey` a run from
  the empty shop after which it does not.
- The same document (line 174) lets a release verify authority first. `terminate_payment` also
  releases when no attempt is in charge (`backend/apps/orders/services.py:261`); `Effects.FailEffect` shows
  that there is then nothing to release.
- Two writes do not look at the order again: the compensating item delete
  (`backend/apps/orders/payment_services.py:85-86`) and the pending write
  (`backend/apps/orders/services.py:616-618`). `Coherent` is the invariant without the demand that orders
  have items worth their total, which legacy orders do not meet. `Compensation.ItemDeleteIsSafeIff` and
  `Compensation.PendingWriteIsSafeIff` say exactly when the writes keep it; `Counterexamples` has a
  run in which the delete does not, and a paid order of that run on which the pending write does not. Runs from the empty shop never meet either case: their orders
  have items from the start, and no shipped provider confirms with a pending outcome.

## Model

| member | source | states |
|---|---|---|
| `Safety.TransactIsKept` | backend/apps/orders/services.py:135-431 | every transaction any step runs, if it commits, keeps the global invariant over all tables and undoes nothing final: payments and orders are never deleted, item snapshots never change, sold keys stay sold to the same item |
| `Safety.NextIsSound` | backend/apps/orders/payment_services.py:27-110 | each step of the system, including crashes between transactions and provider failures, keeps the database invariant, the local variables of every driver call in progress, and the record of provider requests |
| `Safety.RunIsSound` | backend/apps/orders/services.py:461-629 | the same for runs of any length and interleaving of driver calls, webhooks, cart and stock changes |
| `Safety.ReachableStatesAreSound` | backend/apps/orders/payment_services.py:21-110 | from the empty shop every reachable state satisfies the invariant |
| `Safety.RunsCompose` | backend/apps/orders/services.py:461-629 | stopping a run at any step and going on from there is the same as the whole run |
| `Invariants.ConstraintsHold` | backend/apps/orders/models.py:63-246 | consistent tables meet every id, foreign-key, unique and check constraint on them, among them one active payment per order, one order per delivered key and no product on cart orders, so a transaction that ends in them is not rejected by one |
| `Guarantees.OnlyInputsAreRejected` | backend/apps/orders/models.py:138-246 | a reachable step is rejected by the database only for its input: a provider reference another payment has, a cart quantity below one, or the withdrawal of a key that is sold, assigned or delivered |
| `Invariants.ActiveIsAttempt` | backend/apps/orders/models.py:239-245 | an order's active payments are exactly the attempt it names, so the one-active-payment constraint never rejects |
| `Guarantees.OrderIsConsistent` | docs/architecture/ADR-001-license-reservation.md:166-178 | unpaid orders: an active payment, a named attempt and a complete reservation exist together or not at all, and without them no key is held; paid orders: no attempt, no active payment, one paid payment, every item fully sold |
| `Guarantees.OrdersStayConsistent` | backend/apps/orders/services.py:219-266 | that equivalence after every run from the empty shop |
| `Conservation.NoOverselling` | backend/apps/orders/services.py:135-431 | for every product sold keys equal the units of paid orders, reserved keys the units of unpaid orders with an attempt, and the three statuses partition the product's keys |
| `Conservation.KeysAreConserved` | backend/apps/orders/services.py:135-431 | over every run from the empty shop available, reserved and sold keys add up to keys supplied minus keys withdrawn, together with the two equations above |
| `Conservation.StockMatchesSupply` | backend/apps/games/admin.py:272-283 | of the modelled steps only supplying and withdrawing keys changes how many keys a product has |
| `Conservation.TransactKeepsKeys` | backend/apps/orders/services.py:183-215 | no purchase transaction creates, deletes or re-labels a key |
| `Transitions.OpenedKeepsInv` | backend/apps/orders/payment_services.py:53-69 | inserting a payment, reserving keys that cover the order and naming the payment keeps the invariant |
| `Transitions.WithdrawnKeepsInv` | backend/apps/orders/services.py:258-266 | failing the attempt in charge and freeing its keys keeps the invariant |
| `Transitions.SettledFromReservationKeepsInv` | backend/apps/orders/services.py:288-307 | selling a reservation and settling order, payment and email keeps the invariant |
| `Transitions.SettledFromStockKeepsInv` | backend/apps/orders/services.py:312-338 | selling free keys to a payment that had failed keeps the invariant |
| `Effects.ReserveEffect` | backend/apps/orders/services.py:135-184 | a reservation on an unpaid order either finds a complete reservation and changes nothing, or succeeds exactly when stock suffices, or fails without effect |
| `Effects.ReleaseEffect` | backend/apps/orders/services.py:187-216 | a release frees exactly the keys the order holds, or nothing |
| `Effects.FailEffect` | backend/apps/orders/services.py:230-274 | failing a payment withdraws it when it is in charge and otherwise changes nothing |
| `Effects.CompleteEffect` | backend/apps/orders/services.py:341-431 | completion makes one of two moves, recognises an earlier completion, or raises one of three errors, and keeps the invariant |
| `Effects.OpenCreateEffect` | backend/apps/orders/payment_services.py:27-69 | opening with create_payment makes one move or raises, and keeps the invariant |
| `Effects.OpenPayEffect` | backend/apps/orders/services.py:468-549 | opening with pay_order resumes the attempt without writing, or opens one, or raises, and keeps the invariant |
| `Effects.PoolsAgree` | backend/apps/orders/services.py:316-321 | the completion query does not exclude assigned keys; under the invariant that excludes nothing |
| `Operations.CreationIsExact` | backend/apps/orders/payment_services.py:27-69 | the first transaction of create_payment, case by case on the rows: each error with its condition, and else one new CREATED payment at the order's total with the provider's name, in charge of the order, which holds the lowest unlocked keys |
| `Operations.PayingIsExact` | backend/apps/orders/services.py:468-549 | the first transaction of pay_order, case by case on the rows: resuming writes nothing and takes the attempt's own provider once a reference is stored, a new attempt has no provider yet, and each error has its condition |
| `Operations.CompletionIsExact` | backend/apps/orders/services.py:341-431 | completion, case by case on the rows: order, payment, price, email and keys as they are afterwards; a direct order records the lowest of its keys, a cart order none |
| `Operations.CompletionIsGuarded` | backend/apps/orders/services.py:355-380 | on any tables each failed check of a completion raises its own error, and nothing completes past one |
| `Operations.FirstItemIsExact` | backend/apps/orders/services.py:65-94 | on any tables a direct order without items gets one unit of its product at the total, or raises without a product; every other order keeps its items |
| `Operations.ReservationIsGuarded` | backend/apps/orders/services.py:138-153 | on any tables only an unpaid order with a total and an item or product is reserved for, and each refusal has its error |
| `Operations.ReleaseIsGuarded` | backend/apps/orders/services.py:192-200 | on any tables a paid order is not released, and one without items is left alone |
| `Operations.AuthorizationIsExact` | backend/apps/orders/services.py:219-227 | on any tables a payment takes charge only of its own order and never from another payment, and changes that one column |
| `Operations.ReservationIsReadExactly` | backend/apps/orders/services.py:97-132 | on any tables an order's reservation is read as nothing, as all its keys if statuses, products and quantities are right, or as an error |
| `Operations.TerminationIsExact` | backend/apps/orders/services.py:230-266 | for every status: only the three unsuccessful ones are accepted, a paid payment stays paid, and else exactly the payment's status changes and, if it was in charge, its order's authority, assignments and key statuses |
| `Operations.StoringIsExact` | backend/apps/orders/services.py:561-565 | on any tables the reference is accepted iff the payment exists and no other has it, and then exactly that row gets this provider and reference |
| `Operations.FinishingIsExact` | backend/apps/orders/services.py:610-624 | a success completes, a failure frees the keys and sells none unless the payment is paid already, any other answer only marks the payment pending |
| `Operations.ReferenceIsExact` | backend/apps/payments/webhooks.py:60-86 | which payment a session refers to, by printed id, provider and session id, and which error it raises otherwise |
| `Operations.DeliveryIsExact` | backend/apps/payments/webhooks.py:46-99 | deliveries, case by case on the rows; a completed session that is not paid is only recorded, and a delivery changes more than the event table only for a payment whose own Stripe session it is |
| `Operations.RecordedKeys` | backend/apps/orders/services.py:392-393 | after every run an unpaid or cart order records no key, and a paid direct order one of its own sold keys |
| `DriverCalls.CreateStarts` | backend/apps/orders/payment_services.py:71-79 | a create_payment that opened an attempt asks the provider for it, one that raised is over with nothing changed |
| `DriverCalls.PayStarts` | backend/apps/orders/services.py:551-594 | a pay_order confirms a stored reference without another request, and otherwise asks the provider |
| `DriverCalls.RepliesWriteNothing` | backend/apps/orders/services.py:553-560 | each request carries the attempt's key and amount, and a reply changes no row |
| `DriverCalls.LossEndsTheCall` | backend/apps/orders/services.py:586-589 | an ambiguous failure ends the call and leaves every row as it was |
| `DriverCalls.RejectionEndsTheAttempt` | backend/apps/orders/payment_services.py:80-97 | a rejection or misconfiguration ends the call and, unless it is paid, the attempt, whose keys are free again |
| `DriverCalls.AcceptanceIsStored` | backend/apps/orders/payment_services.py:101-108 | an accepted payment is stored unless the reference is in use; then create_payment is over and pay_order confirms that reference |
| `DriverCalls.ConfirmationFinishes` | backend/apps/orders/services.py:591-629 | only the local provider's own references are confirmed; a declined payment ends, an accepted one completes or changes nothing |
| `DriverCalls.CrashEndsTheCall` | backend/apps/orders/payment_services.py:98-99 | a call may stop between any two transactions; that changes no row and no other call |
| `DriverCalls.StoredAttemptResumes` | backend/apps/orders/services.py:530-549 | after a stored reference and any crashes a later pay_order resumes that attempt with its provider and confirms that reference, without a second request |
| `Guarantees.ReservationIsExact` | backend/apps/orders/services.py:135-184 | run alone: succeeds iff every item's product has enough unlocked available keys; then gives each item its exact quantity of its own product, lowest ids first, and changes nothing else |
| `Allocation.ItemClaim` | backend/apps/orders/services.py:161-181 | although statuses are written after the loop, with one item per product an item's keys are the lowest ids of its product in the pool |
| `Allocation.ClaimsMeetDemand` | backend/apps/orders/services.py:161-184 | the keys taken are of the item's product, from the pool, in the exact quantity, and pass over no lower id |
| `RowLoops.LockedReservationAssignments` | backend/apps/orders/services.py:97-132 | for arbitrary tables the counting loop returns nothing iff nothing is assigned, everything iff every item holds its exact quantity of reserved keys of its product, and raises otherwise |
| `RowLoops.SelectKeys` | backend/apps/orders/services.py:159-181 | the allocation loop succeeds iff stock covers every item, lists exactly the claimed keys, no key for two items, and starts with the first item's lowest key |
| `RowLoops.SetStatuses` | backend/apps/orders/services.py:173-183 | the status loop changes the listed keys and no other |
| `RowLoops.SelectReservation` | backend/apps/orders/services.py:155-184 | reuse of a complete reservation adds nothing; a new one adds exactly the specified assignments |
| `RowLoops.SelectSale` | backend/apps/orders/services.py:277-338 | what fulfilment sells, and that the first returned key is the one a direct order records |
| `RowLoops.FirstItem` | backend/apps/orders/services.py:75-77 | the first item in the item order is of the order's lowest product, which fixes the first delivered key |
| `Interleaving.CommitClaims` | backend/apps/orders/services.py:161-181 | the keys locked one by one, skipping locked rows, are exactly those the atomic selection takes when the skipped keys are excluded |
| `Interleaving.CommitIsAtomic` | backend/apps/orders/services.py:159-184 | committing a key-by-key allocation is the atomic opening step for the keys it skipped and the payment id it drew before reserving |
| `Interleaving.RunningOutIsAtomic` | backend/apps/orders/services.py:171-172 | an allocation whose scan has seen every key and still misses some fails as the atomic opening does for the keys it skipped, without effect |
| `Interleaving.MicroNextIsSound` | backend/apps/orders/models.py:169-173 | in every interleaving of key-by-key allocations with all other transactions, the keys in flight stay pairwise disjoint and available, and the committed tables keep the invariant |
| `Interleaving.InterleavingIsAtomic` | backend/apps/orders/services.py:159-184 | every interleaved run ends in the tables, driver states and provider requests of a run of atomic steps |
| `Interleaving.InFlightKeysAreSafe` | backend/apps/orders/services.py:163-170 | keys locked by different uncommitted transactions are disjoint, assigned to nobody and still available |
| `Interleaving.InterleavedRunsConserveKeys` | backend/apps/orders/services.py:135-184 | sold and reserved keys match paid and reserved units after every interleaved run |
| `Guarantees.DefensiveChecksNeverFire` | backend/apps/orders/services.py:126-374 | no reachable step raises the inconsistent-reservation, foreign-payment, other-attempt, cannot-complete, amount-mismatch, missing-total or missing-product errors |
| `Guarantees.OpeningSucceedsIff` | backend/apps/orders/services.py:468-549 | exactly when each driver opens, in terms of the configured, injected and stored provider names; a new attempt needs nobody in charge and stock for every item, resuming needs no stock |
| `Guarantees.CompletionSucceedsIff` | backend/apps/orders/services.py:355-390 | a success completes iff the order was paid by this payment, or it is unpaid and this payment is in charge, or nobody is and free stock covers it; order and payment are paid then |
| `Guarantees.StaleAttemptsArePowerless` | backend/apps/orders/services.py:258-380 | while another attempt is in charge, a success is rejected and a failure changes nothing at all |
| `Guarantees.StaleEventsArePowerless` | backend/apps/payments/webhooks.py:88-99 | through the webhook a stale success is rejected unrecorded and a stale failure only records its event |
| `Guarantees.ProviderCallsAreIdempotent` | backend/apps/orders/services.py:551-560 | over a run two provider requests carry the same idempotency key iff they are for the same attempt, and then also the same amount |
| `Guarantees.MoneyAgrees` | backend/apps/orders/services.py:372-395 | for every paid order price paid, total, the single paid payment's amount and the value of the item snapshots are equal, whatever happened to catalogue prices |
| `Webhooks.ProcessedOnce` | backend/apps/payments/webhooks.py:49-53 | a processed event is recorded, no recorded event is forgotten, and processing it again changes nothing |
| `Webhooks.ProcessKeepsInv` | backend/apps/payments/webhooks.py:46-99 | every event, supported or not, keeps the invariant |
| `Guarantees.DuplicatesAreHarmless` | backend/apps/payments/webhooks.py:46-99 | inserting a duplicate of a processed event anywhere later leaves the final state of the run as it was |
| `Guarantees.DeliverySucceedsIff` | backend/apps/payments/webhooks.py:46-99 | exactly when a delivery is accepted rather than raised: it is recorded already, or of an unsupported kind, or refers to a known Stripe session and, for a success, to a payment that may complete |
| `OutOfOrder.DeliveryOrderDoesNotMatter` | backend/apps/payments/webhooks.py:88-99 | success and failure of the attempt in charge, in either order: no error, order and payment paid, one more email, all tables and per-product key counts equal up to the choice of this order's keys, other orders untouched |
| `OutOfOrder.SuccessThenFailure` | backend/apps/payments/webhooks.py:88-99 | after an accepted success and any run, a failure of the same payment only records itself, and order and payment are still paid |
| `OutOfOrder.FailureThenSuccess` | backend/apps/payments/webhooks.py:88-99 | after an accepted failure and any run, a success of the same payment is accepted iff the order was paid by it, or is unpaid with nobody in charge and enough stock; order and payment are paid then |
| `OutOfOrder.FreedStockSuffices` | backend/apps/orders/services.py:312-338 | the keys a failure frees are enough for a success that follows it |
| `Compensation.CreateThenCompensate` | backend/apps/orders/payment_services.py:80-97 | opening an attempt and compensating it leaves one failed payment and nothing else |
| `Compensation.PayThenCompensate` | backend/apps/orders/services.py:566-585 | for pay_order a new attempt leaves one failed payment and nothing else, and a resumed one is withdrawn |
| `Compensation.CompensationUndoesOpening` | backend/apps/orders/services.py:187-266 | with any steps in between, failing the attempt still in charge restores the order's row and items, frees exactly its keys and disturbs no other order |
| `Compensation.LegacyCreateThenCompensate` | backend/apps/orders/payment_services.py:60-97 | for an order that got its item only at opening, compensation removes that item again |
| `Compensation.ItemDeleteIsSafeIff` | backend/apps/orders/payment_services.py:80-87 | on any coherent tables, compensation with its unconditional item delete ends in coherent tables iff the order is unpaid and no other attempt is in charge |
| `Compensation.PendingWriteIsSafeIff` | backend/apps/orders/services.py:616-618 | on any coherent tables the unguarded pending write keeps them coherent, and keeps the invariant if it held, iff the payment is still active |
| `Counterexamples.CompensationMayStrandASoldKey` | backend/apps/orders/payment_services.py:80-87 | a run of two concurrent calls on a legacy order that ends with the order paid, its item gone and its key sold but assigned to nobody |
| `Counterexamples.PendingWriteMayReopenAPaidPayment` | backend/apps/orders/services.py:616-618 | on that order, once paid, the pending write makes the payment pending again |
| `Counterexamples.LateSuccessMayFindNoKey` | backend/apps/orders/services.py:312-324 | a run from the empty shop after which a confirmed payment cannot complete for lack of keys |
| `Confirmation.PaidOrderIsFulfilled` | backend/apps/orders/emails.py:7-41 | a paid order passes the fulfilment test, and the keys the email lists are exactly its sold keys, one per unit |
| `Confirmation.EligibilityIsExact` | backend/apps/orders/emails.py:7-41 | on any tables the email's test and the keys it lists: assigned keys, all sold and one per unit, or with none assigned a direct order's sold key |
| `Confirmation.EmailAgreesWithPayment` | backend/apps/orders/tasks.py:39-44 | in every reachable state paid and eligible are the same, and one email is queued iff eligible, none otherwise |
| `Confirmation.FulfilmentIsForever` | backend/apps/orders/services.py:409-427 | once eligible an order stays eligible, with the same row, the same keys and no second email |
| `Ledger.CartLedgerBalances` | backend/apps/carts/services.py:27-130 | over every run units added plus net changes equal units in the cart plus units removed plus units ordered |
| `Ledger.CheckoutBalances` | backend/apps/carts/services.py:107-130 | checkout moves exactly the cart's units into the new order, empties that cart and leaves others alone |
| `Ledger.SecondCheckoutFails` | backend/apps/carts/services.py:95-102 | an immediate second checkout always finds the cart empty |
| `Carts.AddIsExact` | backend/apps/carts/services.py:27-52 | adding succeeds iff the product is on sale and the new quantity lies in 1..99, and changes that quantity by the amount asked for and no other |
| `Carts.CheckoutIsExact` | backend/apps/carts/services.py:91-130 | checkout succeeds iff the cart has a row and all its products are on sale; the order has exactly the cart's products, quantities and the prices of that moment |
| `Carts.CheckoutOrders` | backend/apps/carts/services.py:107-130 | checkout adds one unpaid cart order worth its items, changes no other order or item, and empties exactly the user's cart |
| `Carts.SetIsExact` | backend/apps/carts/services.py:55-71 | setting succeeds iff the row is the user's and the quantity lies in 1..99, and changes that quantity only |
| `Carts.RemoveIsExact` | backend/apps/carts/services.py:74-81 | removal succeeds iff the row is the user's, and takes that product out of that cart only |
| `Carts.ClearIsExact` | backend/apps/carts/services.py:84-88 | clearing empties the user's cart and no other |
| `Carts.DirectOrderIsExact` | backend/apps/orders/services.py:31-54 | a direct order fails only for a product that does not exist, and is one unpaid order for one unit at the price of that moment |
| `Carts.SnapshotValue` | backend/apps/carts/services.py:107-128 | the charged total equals the value of the order's item snapshots |
| `Carts.SnapshotIsUnique` | backend/apps/carts/models.py:44-52 | one cart row per product gives one order item per product, of positive quantity |
| `Carts.CheckoutKeepsInv` | backend/apps/carts/services.py:91-130 | checkout keeps the invariant |
| `Carts.AddItemKeepsInv` | backend/apps/carts/services.py:27-52 | adding keeps each row within 1..99 and one row per product |
| `Carts.DirectOrderKeepsInv` | backend/apps/orders/services.py:31-54 | a direct order keeps the invariant |
| `References.ReferenceRoundTrip` | backend/apps/payments/webhooks.py:60-68 | the webhook accepts exactly the canonical decimal strings and reads back the printed id, whatever other Unicode digits exist |
| `References.LocalReferenceShape` | backend/apps/payments/providers.py:71-80 | the local transaction id is the whole prefixed key within 255 characters |
| `References.SafeKeyIsExact` | backend/apps/payments/providers.py:71-75 | character by character: capitals become small, small letters, digits and hyphens stay, anything else is dropped |
| `References.LocalReferenceFits` | backend/apps/payments/providers.py:79-82 | for every key the local transaction id fits 255 characters and is all of the prefixed key that fits |
| `References.LocalReferencesDiffer` | backend/apps/payments/providers.py:71-80 | distinct payments have distinct idempotency keys and local transaction ids |
| `References.RowIdsAreShort` | backend/apps/orders/services.py:557-557 | every 64-bit row id is short enough for the two results above |
| `Backfill.BackfillDirectOrders` | backend/apps/orders/migrations/0007_backfill_direct_order_items.py:7-74 | the migration gives each direct order its most reliable total and each order without items exactly one item, and touches nothing else, in whatever order rows are listed |
| `Backfill.ResolveTotal` | backend/apps/orders/migrations/0007_backfill_direct_order_items.py:38-54 | the chain of reassignments computes the resolved total |
| `Backfill.SumItems` | backend/apps/orders/migrations/0007_backfill_direct_order_items.py:43-47 | the loop sums the item lines |
| `Backfill.FirstPrecedes` | backend/apps/orders/migrations/0007_backfill_direct_order_items.py:19-21 | the first paid payment precedes every other by payment instant with nulls first, creation and id |
| `Backfill.TotalsAreExact` | backend/apps/orders/migrations/0007_backfill_direct_order_items.py:38-59 | the total of a direct order afterwards: its own, else its price paid, else its latest paid payment's amount, else its items' sum, else for an unpaid order the catalogue price, else none |
| `Backfill.ItemsAreExact` | backend/apps/orders/migrations/0007_backfill_direct_order_items.py:61-74 | the items of a direct order afterwards: those it had, or one unit of its product at its total if the title is not blank and the total is known, or none |
| `Backfill.DescendingIsReversed` | backend/apps/orders/migrations/0007_backfill_direct_order_items.py:19-21 | the ordering of paid payments is total and is the ascending one, nulls last, reversed |
| `Backfill.NothingIsOverwritten` | backend/apps/orders/migrations/0007_backfill_direct_order_items.py:56-59 | totals on record, cart orders, existing items and orders with items stay as they are |
| `Backfill.BackfillIsIdempotent` | backend/apps/orders/migrations/0007_backfill_direct_order_items.py:7-74 | a second run changes nothing |
| `Backfill.NormalisedOrderIsReady` | backend/apps/orders/services.py:65-94 | afterwards the payment services find a total and an item worth it, and create none themselves |
| `Backfill.BackfillAssignments` | backend/apps/orders/migrations/0009_licenseassignment.py:9-51 | one assignment per paid direct order with a key and exactly one item; the others are reported as malformed |
| `Backfill.AssignmentsAreExact` | backend/apps/orders/migrations/0009_licenseassignment.py:14-45 | a key is assigned to an item iff it is the key of a paid direct order whose only item that is |
| `Backfill.BackfilledIsFulfilledIff` | backend/apps/orders/emails.py:21-41 | afterwards the fulfilment test holds iff the key is sold and a sole item is of one unit |
| `Backfill.BackfillFulfils` | backend/apps/orders/migrations/0009_licenseassignment.py:27-45 | both migrations make every paid direct order without items, with a titled product, a resolvable total and a sold key completely fulfilled |
| `Services.Store.GetOrCreateOrderItems` | backend/apps/orders/services.py:65-94 | commits the specified item, or raises with no change, and returns the items in product order |
| `Services.Store.ReserveOrderLicenses` | backend/apps/orders/services.py:135-184 | refines the reservation that ReservationIsExact describes; a failure restores every row |
| `Services.Store.ReleaseOrderLicenseReservation` | backend/apps/orders/services.py:187-216 | refines the specified release |
| `Services.Store.AuthorizeOrderReservation` | backend/apps/orders/services.py:219-227 | refines the specified authorisation, with its two errors |
| `Services.Store.TerminatePayment` | backend/apps/orders/services.py:230-266 | refines the specified termination; if the release raises, the payment's status is restored |
| `Services.Store.FailPayment` | backend/apps/orders/services.py:269-274 | refines the specified failure |
| `Services.Store.FulfilOrder` | backend/apps/orders/services.py:277-338 | refines the specified fulfilment and returns the keys in order |
| `Services.Store.CompletePayment` | backend/apps/orders/services.py:341-431 | refines the specified completion, tells a repeated completion, and restores every row when it raises |
| `Services.Store.OpenCreatePayment` | backend/apps/orders/payment_services.py:27-69 | refines the first transaction of create_payment, whole or not at all |
| `Services.Store.OpenPayOrder` | backend/apps/orders/services.py:468-549 | refines the first transaction of pay_order, whole or not at all |
| `Services.Store.StoreProviderReference` | backend/apps/orders/services.py:561-565 | refines the storing transaction, rejecting a reference already in use |
| `Services.Store.CompensateOpening` | backend/apps/orders/payment_services.py:80-87 | refines the compensating transaction |
| `Services.Store.FinishPayOrder` | backend/apps/orders/services.py:610-624 | refines the finishing transaction for success, failure and any other provider answer |
| `Services.Store.ProcessStripeWebhook` | backend/apps/payments/webhooks.py:46-99 | refines the webhook; a delivery that raises leaves every table as it was, the event row inserted first included |
| `Services.Store.AddCartItem` | backend/apps/carts/services.py:27-52 | refines adding to the cart, with its errors |
| `Services.Store.SetCartItemQuantity` | backend/apps/carts/services.py:55-71 | refines setting a quantity, with its errors |
| `Services.Store.RemoveCartItem` | backend/apps/carts/services.py:74-81 | refines removal, with its error |
| `Services.Store.CheckoutCart` | backend/apps/carts/services.py:91-130 | refines checkout, with its errors; the loops compute the total and the snapshot |
| `Services.Store.CreateDirectOrder` | backend/apps/orders/services.py:31-54 | refines the direct order |

## Left out

- Legacy orders without items in runs: orders of a run are made by checkout or direct purchase. Legacy orders are treated run alone (`Compensation`) and by the migrations (`Backfill`).
- `Order.Status.CANCELLED` and payment outcomes CANCELLED and EXPIRED: the specification of termination covers the statuses, but no run writes them, as no caller does; expired sessions go through `fail_payment`.
- Providers that confirm with a pending outcome, in runs: none ships; the write is in the specification and in `Services.Store.FinishPayOrder`.
- Provider names outside the local provider and Stripe as configured defaults: they raise, as in the code; an injected third-party provider is modelled up to confirmation, where only the local provider confirms.
- Stripe SDK calls, signature checks and payload parsing: events arrive parsed; the provider's answer to a creation request is an arbitrary one of accepted with any reference, rejected, misconfigured, or lost.
- Provider-side rejection of empty or negative requests, and sub-cent amounts: included in the arbitrary rejection. Amounts are integer minor units; `Decimal` rendering and column widths are not modelled.
- The advisory lock of `pay_order`: without it the model allows more interleavings than the code.
- Waiting and deadlock: in `Interleaving` a transaction that would write a locked row simply does not take place before the lock is gone, and the completion's own row-by-row locking without SKIP LOCKED is one step.
- Time: `paid_at`, `sold_at`, `created_at` and `updated_at` are not stored, except in the migration's ordering; `order_by("created_at", "id")` is taken as order by id, which matters to no result because an order never has two active payments.
- Ids consumed by rolled-back transactions: sequences are rolled back too. Payment ids may be drawn in any order; items and orders take the next id.
- Key values, product titles in order items, order numbers, email text, checkout URLs and users' addresses: not needed by any property here.
- The row of `Cart`: a user's cart is the set of that user's rows, so `get_or_create_cart` has nothing to do.
- Celery and SMTP: an email counts as queued when its transaction commits; a broker failure is only logged by the code.
- HTTP views, serializers, permissions, the Telegram bot, accounts and settings: request plumbing around the services.
- Admin and CSV import: only adding keys and deleting keys that are neither sold nor referenced, and publishing products.
- Conservation.StockMatchesSupply: the admin form may also move an available unassigned key to another product (`backend/apps/games/admin.py:260-270`), which no step models.
- `str.lower` and `isalnum` on characters outside ASCII in `LocalPaymentProvider.create_payment`: idempotency keys are ASCII.
- References.LocalReferencesDiffer: stated for ids of at most 237 digits, because longer references are cut at 255 characters; all 64-bit ids qualify.
- References.LocalReferenceShape: the same bound, for the same reason.
- Python's limit on the length of digit strings that `int` accepts: not modelled.
- Logging in the second migration: the malformed order ids are returned instead.
