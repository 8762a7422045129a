/** The cart ledger: every unit that enters a cart leaves it through a removal or an order. */
module Ledger {
  import opened Foundations
  import opened Schema
  import opened Allocation
  import opened Payments
  import opened Invariants
  import opened Effects
  import opened Carts
  import opened Webhooks
  import opened Confirmation
  import opened Runs
  import opened Safety

  /** Units in a user's cart rows with ids below `n`. */
  function CartUnits(cart: map<RowId, CartRow>, user: UserId, n: nat): nat {
    if n == 0 then 0
    else CartUnits(cart, user, n - 1) + UnitsIn(cart, user, n - 1)
  }

  /** Units in a user's whole cart. */
  function InCart(db: Database, user: UserId): nat {
    CartUnits(db.cart, user, db.nextRow)
  }

  function UnitsIn(cart: map<RowId, CartRow>, user: UserId, r: RowId): nat {
    if r in cart && cart[r].user == user then cart[r].quantity else 0
  }

  /** Totals of what one user's successful operations did to the cart. */
  datatype Book = Book(added: int, adjusted: int, removed: int, ordered: int)

  /** What one step adds to the book, read off the request and the rows it names. */
  function Entry(w: World, step: Step, user: UserId): Book {
    var result := Transact(w, step);
    if result.Err? then Book(0, 0, 0, 0)
    else
      match step
      case AddToCart(u, _, quantity) => Book(if u == user then quantity else 0, 0, 0, 0)
      case ChangeQuantity(u, row, quantity) =>
        Book(0, if u == user then quantity - UnitsIn(w.db.cart, user, row) else 0, 0, 0)
      case RemoveFromCart(u, row) => Book(0, 0, if u == user then UnitsIn(w.db.cart, user, row) else 0, 0)
      case EmptyTheCart(u) => Book(0, 0, if u == user then InCart(w.db, user) else 0, 0)
      case CheckOut(u) =>
        Book(0, 0, 0, if u == user then OrderUnits(result.value.items, w.db.nextOrder, result.value.nextItem) else 0)
      case _ => Book(0, 0, 0, 0)
  }

  function Total(w: World, steps: seq<Step>, user: UserId): Book {
    if steps == [] then Book(0, 0, 0, 0)
    else
      var before := Total(w, steps[..|steps| - 1], user);
      var entry := Entry(Run(w, steps[..|steps| - 1]), steps[|steps| - 1], user);
      Book(before.added + entry.added, before.adjusted + entry.adjusted, before.removed + entry.removed, before.ordered + entry.ordered)
  }

  /** Units before plus what came in are units after plus what went out. */
  predicate Balanced(before: int, after: int, book: Book) {
    after + book.removed + book.ordered == before + book.added + book.adjusted
  }

  // ---------------------------------------------------------------- row arithmetic

  /** Changing one row changes the sum by that row's change. */
  lemma {:induction false} OneRowChanges(cart: map<RowId, CartRow>, after: map<RowId, CartRow>, user: UserId, r: RowId, n: nat)
    requires r < n && forall q | q != r :: (q in cart <==> q in after) && (q in cart ==> cart[q] == after[q])
    ensures CartUnits(after, user, n) - UnitsIn(after, user, r) == CartUnits(cart, user, n) - UnitsIn(cart, user, r)
  {
    if r < n - 1 {
      OneRowChanges(cart, after, user, r, n - 1);
    } else {
      RowsBelowAgree(cart, after, user, n - 1);
    }
  }

  lemma {:induction false} RowsBelowAgree(cart: map<RowId, CartRow>, after: map<RowId, CartRow>, user: UserId, n: nat)
    requires forall q: nat | q < n :: UnitsIn(cart, user, q) == UnitsIn(after, user, q)
    ensures CartUnits(cart, user, n) == CartUnits(after, user, n)
  {
    if n > 0 {
      RowsBelowAgree(cart, after, user, n - 1);
    }
  }

  lemma {:induction false} EmptyCartHasNoUnits(cart: map<RowId, CartRow>, user: UserId, n: nat)
    requires forall r <- cart :: cart[r].user != user
    ensures CartUnits(cart, user, n) == 0
  {
    if n > 0 {
      EmptyCartHasNoUnits(cart, user, n - 1);
    }
  }

  lemma AddBalances(db: Database, user: UserId, product: ProductId, quantity: int, other: UserId)
    requires (forall r <- db.cart :: r < db.nextRow) && AddItem(db, user, product, quantity).Ok?
    ensures InCart(AddItem(db, user, product, quantity).value, other)
         == InCart(db, other) + if user == other then quantity else 0
  {
    var after := AddItem(db, user, product, quantity).value;
    var existing := RowsFor(db.cart, user, product);
    var r := if existing == {} then db.nextRow else Least(existing);
    hide CartUnits;
    OneRowChanges(db.cart, after.cart, other, r, after.nextRow);
    if existing == {} {
      UnitsStep(db.cart, other, db.nextRow);
    }
  }

  lemma UnitsStep(cart: map<RowId, CartRow>, user: UserId, n: nat)
    requires n !in cart
    ensures CartUnits(cart, user, n + 1) == CartUnits(cart, user, n)
  {
  }

  lemma ChangeBalances(db: Database, user: UserId, row: RowId, quantity: int, other: UserId)
    requires (forall r <- db.cart :: r < db.nextRow) && SetQuantity(db, user, row, quantity).Ok?
    ensures InCart(SetQuantity(db, user, row, quantity).value, other)
         == InCart(db, other) + if user == other then quantity - UnitsIn(db.cart, user, row) else 0
  {
    OneRowChanges(db.cart, SetQuantity(db, user, row, quantity).value.cart, other, row, db.nextRow);
  }

  lemma RemoveBalances(db: Database, user: UserId, row: RowId, other: UserId)
    requires (forall r <- db.cart :: r < db.nextRow) && RemoveItem(db, user, row).Ok?
    ensures InCart(RemoveItem(db, user, row).value, other)
         == InCart(db, other) - if user == other then UnitsIn(db.cart, user, row) else 0
  {
    OneRowChanges(db.cart, RemoveItem(db, user, row).value.cart, other, row, db.nextRow);
  }

  lemma ClearBalances(cart: map<RowId, CartRow>, user: UserId, other: UserId, n: nat)
    ensures CartUnits(WithoutUser(cart, user), other, n) == if user == other then 0 else CartUnits(cart, other, n)
  {
    if user == other {
      EmptyCartHasNoUnits(WithoutUser(cart, user), user, n);
    } else {
      RowsBelowAgree(cart, WithoutUser(cart, user), other, n);
    }
  }

  lemma ClearCartBalances(db: Database, user: UserId, other: UserId)
    ensures InCart(ClearCart(db, user), other) == if user == other then 0 else InCart(db, other)
  {
    ClearBalances(db.cart, user, other, db.nextRow);
  }

  // ---------------------------------------------------------------- checkout moves the whole cart

  function RowUnits(cart: map<RowId, CartRow>, rows: seq<RowId>): nat
    requires forall r <- rows :: r in cart
  {
    if rows == [] then 0 else RowUnits(cart, rows[..|rows| - 1]) + cart[rows[|rows| - 1]].quantity
  }

  lemma RowsGrow(cart: map<RowId, CartRow>, user: UserId, r: RowId)
    ensures RowUnits(cart, RowsOf(cart, user, r + 1)) == RowUnits(cart, RowsOf(cart, user, r)) + UnitsIn(cart, user, r)
  {
    var rows := RowsOf(cart, user, r + 1);
    if r in cart && cart[r].user == user {
      assert rows == RowsOf(cart, user, r) + [r];
      assert rows[..|rows| - 1] == RowsOf(cart, user, r);
    }
    hide RowsOf;
  }

  lemma NoRows(cart: map<RowId, CartRow>, user: UserId)
    ensures RowsOf(cart, user, 0) == [] && RowUnits(cart, []) == 0
  {
  }

  lemma {:induction false} RowsHoldCart(cart: map<RowId, CartRow>, user: UserId, n: nat)
    ensures RowUnits(cart, RowsOf(cart, user, n)) == CartUnits(cart, user, n)
  {
    hide RowUnits, RowsOf, UnitsIn;
    if n > 0 {
      RowsHoldCart(cart, user, n - 1);
      RowsGrow(cart, user, n - 1);
    } else {
      NoRows(cart, user);
    }
  }

  lemma {:induction false} SnapshotUnits(
    items: map<ItemId, OrderItem>, cart: map<RowId, CartRow>, catalogue: map<ProductId, Product>,
    order: OrderId, low: ItemId, rows: seq<RowId>)
    requires Priced(cart, catalogue, rows)
    requires forall i <- items :: i < low && items[i].order != order
    ensures OrderUnits(items + Snapshot(cart, catalogue, order, low, rows), order, low + |rows|) == RowUnits(cart, rows)
  {
    hide OrderUnits, Snapshot;
    if rows == [] {
      EmptySnapshot(items, cart, catalogue, order, low, rows);
      NobodysUnits(items, order, low);
    } else {
      var n := |rows| - 1;
      SnapshotStep(items, cart, catalogue, order, low, rows);
      SnapshotUnits(items, cart, catalogue, order, low, rows[..n]);
      LastLineUnits(items + Snapshot(cart, catalogue, order, low, rows[..n]), order, low + n,
                    Line(cart, catalogue, order, rows[n]));
    }
  }

  lemma LastLineUnits(items: map<ItemId, OrderItem>, order: OrderId, n: ItemId, line: OrderItem)
    requires line.order == order
    ensures OrderUnits(items + map[n := line], order, n + 1) == OrderUnits(items, order, n) + line.quantity
  {
    ItemsBelowAgree(items, items + map[n := line], order, n);
  }

  lemma {:induction false} ItemsBelowAgree(items: map<ItemId, OrderItem>, after: map<ItemId, OrderItem>, order: OrderId, n: nat)
    requires forall i | i < n :: (i in items <==> i in after) && (i in items ==> items[i] == after[i])
    ensures OrderUnits(items, order, n) == OrderUnits(after, order, n)
  {
    if n > 0 {
      ItemsBelowAgree(items, after, order, n - 1);
    }
  }

  lemma {:induction false} NobodysUnits(items: map<ItemId, OrderItem>, order: OrderId, n: nat)
    requires forall i <- items :: items[i].order != order
    ensures OrderUnits(items, order, n) == 0
  {
    if n > 0 {
      NobodysUnits(items, order, n - 1);
    }
  }

  /** Checkout turns exactly the cart's units into the new order's units and leaves the cart empty. */
  lemma CheckoutBalances(db: Database, user: UserId, other: UserId)
    requires (forall i <- db.items :: i < db.nextItem && db.items[i].order != db.nextOrder) && Checkout(db, user).Ok?
    ensures var after := Checkout(db, user).value;
            && OrderUnits(after.items, db.nextOrder, after.nextItem) == InCart(db, user)
            && InCart(after, other) == if user == other then 0 else InCart(db, other)
  {
    var rows := RowsOf(db.cart, user, db.nextRow);
    hide OrderUnits, CartUnits, RowUnits, Snapshot, CartTotal, RowsOf;
    assert Priced(db.cart, db.catalogue, rows);
    SnapshotUnits(db.items, db.cart, db.catalogue, db.nextOrder, db.nextItem, rows);
    RowsHoldCart(db.cart, user, db.nextRow);
    ClearBalances(db.cart, user, other, db.nextRow);
  }

  /** A second checkout right after the first always finds the cart empty. */
  lemma SecondCheckoutFails(db: Database, user: UserId)
    requires Checkout(db, user).Ok?
    ensures Checkout(Checkout(db, user).value, user) == Err(EmptyCart)
  {
    NoRowsLeft(WithoutUser(db.cart, user), user, db.nextRow);
  }

  lemma {:induction false} NoRowsLeft(cart: map<RowId, CartRow>, user: UserId, n: nat)
    requires forall r <- cart :: cart[r].user != user
    ensures RowsOf(cart, user, n) == []
  {
    if n > 0 {
      NoRowsLeft(cart, user, n - 1);
    }
  }

  // ---------------------------------------------------------------- every other step leaves carts alone

  ghost predicate SameCart(before: Database, after: Database) {
    after.cart == before.cart && after.nextRow == before.nextRow
  }

  lemma OpeningKeepsCart(db: Database, order: OrderId, given: Option<ProviderName>, settings: Settings, schedule: Schedule)
    requires Inv(db)
    ensures var create := OpenCreate(db, order, given, settings, schedule);
            create.Ok? ==> SameCart(db, create.value.db)
    ensures var pay := OpenPay(db, order, given, settings, schedule);
            pay.Ok? ==> SameCart(db, pay.value.db)
  {
    hide KeyStates, Holdings, Outcomes, Valued, Agreement, NonEmptyOrders, DirectItems, Delivered, Notified, UniqueProducts, Authority,
         PositiveQuantities, UniqueTransactions, CartRows, Sequences, OpenCreate, OpenPay, CreateCase, PayCase, SameCart;
    OpenCreateEffect(db, order, given, settings, schedule);
    OpenPayEffect(db, order, given, settings, schedule);
    CasesKeepCart(db, order, given, settings, schedule);
  }

  lemma CasesKeepCart(db: Database, order: OrderId, given: Option<ProviderName>, settings: Settings, schedule: Schedule)
    requires Authority(db.orders, db.payments)
    ensures var create := CreateCase(db, order, given, settings, schedule);
            create.Ok? ==> SameCart(db, create.value.db)
    ensures var pay := PayCase(db, order, given, settings, schedule);
            pay.Ok? ==> SameCart(db, pay.value.db)
  {
    hide Claims, EnoughStock, Authority;
  }

  lemma OutcomesKeepCart(db: Database, payment: PaymentId)
    requires payment in db.payments && db.payments[payment].order in db.orders
    ensures Fail(db, payment).Ok? ==> SameCart(db, Fail(db, payment).value)
    ensures Complete(db, payment).Ok? ==> SameCart(db, Complete(db, payment).value.db)
  {
    hide EnoughStock, Claims, LockedReservation, KeyTaken, Fulfil;
  }

  predicate CartStep(step: Step) {
    step.AddToCart? || step.ChangeQuantity? || step.RemoveFromCart? || step.EmptyTheCart? || step.CheckOut?
  }

  lemma OtherStepsKeepCarts(w: World, step: Step)
    requires Sound(w) && !CartStep(step)
    ensures Transact(w, step).Ok? ==> SameCart(w.db, Transact(w, step).value)
  {
    var db := w.db;
    hide Inv, OpenCreate, OpenPay, Complete, Fail, Withdrawable;
    match step
    case StartCreate(_, order, given, settings, schedule) => OpeningKeepsCart(db, order, given, settings, schedule);
    case StartPay(_, order, given, settings, schedule) => OpeningKeepsCart(db, order, given, settings, schedule);
    case UndoOpening(id) =>
      if Transact(w, step).Ok? && id in w.phases && w.phases[id].Undoing? { OutcomesKeepCart(db, w.phases[id].payment); }
    case FinishPayment(id) =>
      if Transact(w, step).Ok? && id in w.phases && w.phases[id].Finishing? { OutcomesKeepCart(db, w.phases[id].payment); }
    case Deliver(event) =>
      if event.session.Some? && ReferredPayment(db, event.session.value).Ok? {
        OutcomesKeepCart(Record(db, event), ReferredPayment(db, event.session.value).value);
      }
    case _ =>
  }

  lemma AddStepBalances(w: World, step: Step, user: UserId)
    requires Sequences(w.db) && step.AddToCart? && Transact(w, step).Ok?
    ensures Balanced(InCart(w.db, user), InCart(Transact(w, step).value, user), Entry(w, step, user))
  {
    assert forall r <- w.db.cart :: r < w.db.nextRow;
    hide InCart, AddItem, Sequences;
    AddBalances(w.db, step.user, step.product, step.quantity, user);
  }

  lemma ChangeStepBalances(w: World, step: Step, user: UserId)
    requires Sequences(w.db) && step.ChangeQuantity? && Transact(w, step).Ok?
    ensures Balanced(InCart(w.db, user), InCart(Transact(w, step).value, user), Entry(w, step, user))
  {
    assert forall r <- w.db.cart :: r < w.db.nextRow;
    hide InCart, SetQuantity, Sequences;
    ChangeBalances(w.db, step.user, step.row, step.quantity, user);
  }

  lemma RemoveStepBalances(w: World, step: Step, user: UserId)
    requires Sequences(w.db) && step.RemoveFromCart? && Transact(w, step).Ok?
    ensures Balanced(InCart(w.db, user), InCart(Transact(w, step).value, user), Entry(w, step, user))
  {
    assert forall r <- w.db.cart :: r < w.db.nextRow;
    hide InCart, RemoveItem, Sequences;
    RemoveBalances(w.db, step.user, step.row, user);
  }

  lemma EmptyTransacts(w: World, step: Step, user: UserId)
    requires step.EmptyTheCart?
    ensures Transact(w, step) == Ok(ClearCart(w.db, step.user))
    ensures Entry(w, step, user) == Book(0, 0, if step.user == user then InCart(w.db, user) else 0, 0)
  {
    hide InCart, ClearCart;
  }

  lemma EmptyStepBalances(w: World, step: Step, user: UserId)
    requires step.EmptyTheCart? && Transact(w, step).Ok?
    ensures Balanced(InCart(w.db, user), InCart(Transact(w, step).value, user), Entry(w, step, user))
  {
    hide InCart, ClearCart, Transact, Entry;
    EmptyTransacts(w, step, user);
    ClearCartBalances(w.db, step.user, user);
  }

  lemma CheckOutStepBalances(w: World, step: Step, user: UserId)
    requires Sequences(w.db) && Holdings(w.db.assignments, w.db.items, w.db.orders)
    requires step.CheckOut? && Transact(w, step).Ok?
    ensures Balanced(InCart(w.db, user), InCart(Transact(w, step).value, user), Entry(w, step, user))
  {
    assert forall i <- w.db.items :: i < w.db.nextItem && w.db.items[i].order != w.db.nextOrder;
    hide InCart, Checkout, Sequences, Holdings;
    CheckoutBalances(w.db, step.user, user);
  }

  lemma StepBalances(w: World, step: Step, user: UserId)
    requires Sound(w)
    ensures Balanced(InCart(w.db, user), InCart(Next(w, step).db, user), Entry(w, step, user))
  {
    hide KeyStates, Holdings, Authority, Outcomes, Valued, Agreement, NonEmptyOrders, DirectItems, Delivered, Notified, UniqueProducts,
         PositiveQuantities, UniqueTransactions, CartRows, Sequences, Transact, Phases, Calls, CartUnits, Entry;
    if Transact(w, step).Ok? {
      match step
      case AddToCart(_, _, _) => AddStepBalances(w, step, user);
      case ChangeQuantity(_, _, _) => ChangeStepBalances(w, step, user);
      case RemoveFromCart(_, _) => RemoveStepBalances(w, step, user);
      case EmptyTheCart(_) => EmptyStepBalances(w, step, user);
      case CheckOut(_) => CheckOutStepBalances(w, step, user);
      case _ =>
        OtherStepsKeepCarts(w, step);
        NoEntry(w, step, user);
    } else {
      FailedEntry(w, step, user);
    }
  }

  lemma NoEntry(w: World, step: Step, user: UserId)
    requires !CartStep(step)
    ensures Entry(w, step, user) == Book(0, 0, 0, 0)
  {
    hide Transact;
  }

  lemma FailedEntry(w: World, step: Step, user: UserId)
    requires Transact(w, step).Err?
    ensures Entry(w, step, user) == Book(0, 0, 0, 0)
  {
    hide Transact;
  }

  /**
   * Over any run: units in the cart plus units removed plus units ordered equal units there at
   * the start plus units added plus net quantity changes.
   */
  lemma {:induction false} CartLedgerBalances(w: World, steps: seq<Step>, user: UserId)
    requires Sound(w)
    ensures var book := Total(w, steps, user);
            InCart(Run(w, steps).db, user) + book.removed + book.ordered == InCart(w.db, user) + book.added + book.adjusted
  {
    if steps != [] {
      CartLedgerBalances(w, steps[..|steps| - 1], user);
      RunIsSound(w, steps[..|steps| - 1]);
      hide Sound, InCart, Next, Entry;
      StepBalances(Run(w, steps[..|steps| - 1]), steps[|steps| - 1], user);
    }
  }
}
