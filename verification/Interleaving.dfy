/**
 * Allocation key by key. Any number of opening transactions, for different orders, look at key
 * rows one at a time in id order, lock the available ones nobody else has locked and pass over the
 * others, while every other transaction of the shop goes on between their steps. Commits of such
 * transactions are shown to be the atomic steps of `Runs`, with the passed keys as the locked ones.
 */
module Interleaving {
  import opened Foundations
  import opened Schema
  import opened Allocation
  import opened Payments
  import opened Invariants
  import opened Transitions
  import opened Effects
  import opened History
  import opened Runs
  import opened Safety
  import opened Conservation

  /**
   * An opening transaction that has not committed: it has inserted its payment row, which nobody
   * else sees yet, and locked the order row and the claimed keys. `cursors` says for each item how far its scan of the key table has come, `passed` which keys
   * it has skipped on the way.
   */
  datatype Flight = Flight(
    driver: Driver,
    order: OrderId,
    given: Option<ProviderName>,
    settings: Settings,
    payment: PaymentId,
    cursors: map<ItemId, KeyId>,
    claims: map<KeyId, ItemId>,
    passed: set<KeyId>)
  {
    function Cursor(item: ItemId): KeyId {
      if item in cursors then cursors[item] else 0
    }

    function Resolution(): Schedule {
      Schedule(passed, payment)
    }
  }

  datatype System = System(world: World, flights: map<CallId, Flight>)

  datatype MicroStep =
    | Begin(id: CallId, driver: Driver, order: OrderId, given: Option<ProviderName>, settings: Settings, drawn: PaymentId)
    | Visit(id: CallId, item: ItemId)
    | Commit(id: CallId)
    | Abort(id: CallId)
    | Elsewhere(step: Step)

  // ---------------------------------------------------------------- steps

  /** The checks an opening transaction makes before it inserts its payment and reserves. */
  predicate MayOpen(orders: map<OrderId, Order>, driver: Driver, order: OrderId, given: Option<ProviderName>, settings: Settings) {
    && order in orders && !orders[order].HoldsKeys() && orders[order].total.Some?
    && ChooseProvider(given, settings).Ok?
    && (driver.PayOrder? ==> !ChooseProvider(given, settings).value.Stripe?)
  }

  /** The order row lock: one opening transaction per order. */
  predicate OrderLocked(flights: map<CallId, Flight>, order: OrderId) {
    exists id <- flights :: flights[id].order == order
  }

  /** No committed or uncommitted payment has the id: what the id sequence guarantees. */
  predicate Unused(db: Database, flights: map<CallId, Flight>, payment: PaymentId) {
    payment !in db.payments && forall id <- flights :: flights[id].payment != payment
  }

  predicate LockedByOther(flights: map<CallId, Flight>, id: CallId, k: KeyId) {
    exists other <- flights :: other != id && k in flights[other].claims
  }

  predicate MayVisit(db: Database, f: Flight, item: ItemId) {
    && item in db.items && db.items[item].order == f.order
    && |HeldBy(f.claims, item)| < db.items[item].quantity
    && f.Cursor(item) < db.nextKey
  }

  /** Look at the next row of an item's scan: `SELECT ... FOR UPDATE SKIP LOCKED`, one row at a time. */
  function Look(db: Database, f: Flight, item: ItemId, locked: bool): Flight
    requires item in db.items
  {
    var k := f.Cursor(item);
    var moved := f.(cursors := f.cursors[item := k + 1]);
    if k !in db.keys || db.keys[k].product != db.items[item].product then moved
    else if db.keys[k].status.Available? && k !in db.assignments && !locked then moved.(claims := f.claims[k := item])
    else moved.(passed := f.passed + {k})
  }

  predicate MayCommit(db: Database, f: Flight) {
    && f.order in db.orders && db.orders[f.order].total.Some? && ChooseProvider(f.given, f.settings).Ok?
    && forall i <- ItemsOf(db.items, f.order) :: |HeldBy(f.claims, i)| == db.items[i].quantity
  }

  /** The rows an opening transaction commits: exactly the keys it locked. */
  function Committed(db: Database, f: Flight): Opening
    requires MayCommit(db, f)
  {
    var amount := db.orders[f.order].total.value;
    var provider := ChooseProvider(f.given, f.settings).value;
    var stored := if f.driver.CreatePayment? then Some(provider) else None;
    Opening(Opened(db, f.payment, f.order, stored, amount, f.claims), f.payment, amount, provider, None)
  }

  /** A transaction that would write a locked row, or insert an uncommitted payment's id, waits: it cannot take place in between. */
  ghost predicate RespectsLocks(flights: map<CallId, Flight>, before: Database, after: Database) {
    forall id <- flights :: Untouched(flights[id], before, after)
  }

  ghost predicate Untouched(f: Flight, before: Database, after: Database) {
    && f.payment !in after.payments
    && f.order in before.orders && f.order in after.orders && after.orders[f.order] == before.orders[f.order]
    && forall k <- f.claims :: k in before.keys && k in after.keys && after.keys[k] == before.keys[k]
  }

  ghost function MicroNext(s: System, step: MicroStep): System {
    match step
    case Begin(id, driver, order, given, settings, drawn) =>
      if id in s.flights || OrderLocked(s.flights, order) || !Unused(s.world.db, s.flights, drawn)
         || !MayOpen(s.world.db.orders, driver, order, given, settings) then s
      else s.(flights := s.flights[id := Flight(driver, order, given, settings, drawn, map[], map[], {})])
    case Visit(id, item) =>
      if id !in s.flights || !MayVisit(s.world.db, s.flights[id], item) then s
      else
        var k := s.flights[id].Cursor(item);
        s.(flights := s.flights[id := Look(s.world.db, s.flights[id], item, LockedByOther(s.flights, id, k))])
    case Commit(id) =>
      if id !in s.flights || !MayCommit(s.world.db, s.flights[id]) then s
      else System(CommittedWorld(s.world, id, s.flights[id]), s.flights - {id})
    case Abort(id) => s.(flights := s.flights - {id})
    case Elsewhere(step) =>
      if RespectsLocks(s.flights, s.world.db, Next(s.world, step).db) then s.(world := Next(s.world, step)) else s
  }

  function CommittedWorld(w: World, id: CallId, f: Flight): World
    requires MayCommit(w.db, f)
  {
    var opening := Committed(w.db, f);
    World(opening.db, w.phases[id := AfterOpening(f.driver, opening)], w.calls)
  }

  /** The atomic step that a commit amounts to. */
  function AtomicStep(id: CallId, f: Flight): Step {
    if f.driver.CreatePayment? then StartCreate(id, f.order, f.given, f.settings, f.Resolution())
    else StartPay(id, f.order, f.given, f.settings, f.Resolution())
  }

  // ---------------------------------------------------------------- invariant

  /** Claimed keys are available keys of the product of the item they are claimed for, behind its cursor. */
  ghost predicate ClaimsFit(keys: map<KeyId, LicenseKey>, items: map<ItemId, OrderItem>, f: Flight) {
    forall k <- f.claims ::
      && k in keys && keys[k].status.Available?
      && f.claims[k] in items && items[f.claims[k]].order == f.order && items[f.claims[k]].product == keys[k].product
      && k < f.Cursor(f.claims[k])
  }

  /** Behind the cursor of an item, every key of its product is claimed or was passed over. */
  ghost predicate Scanned(keys: map<KeyId, LicenseKey>, items: map<ItemId, OrderItem>, f: Flight) {
    forall k, i | k in keys && i in f.cursors && i in items && keys[k].product == items[i].product && k < f.cursors[i] ::
      k in f.claims || k in f.passed
  }

  ghost predicate PassedBehind(keys: map<KeyId, LicenseKey>, items: map<ItemId, OrderItem>, f: Flight) {
    forall k, i | k in f.passed && k in keys && i in items && items[i].order == f.order && items[i].product == keys[k].product ::
      k < f.Cursor(i)
  }

  ghost predicate Bounded(items: map<ItemId, OrderItem>, nextKey: KeyId, f: Flight) {
    && (forall k <- f.passed :: k < nextKey)
    && (forall i <- f.cursors :: i in items && items[i].order == f.order && f.cursors[i] <= nextKey)
  }

  ghost predicate FlightSound(db: Database, f: Flight) {
    && MayOpen(db.orders, f.driver, f.order, f.given, f.settings)
    && f.payment !in db.payments
    && ClaimsFit(db.keys, db.items, f)
    && Scanned(db.keys, db.items, f)
    && PassedBehind(db.keys, db.items, f)
    && f.passed !! f.claims.Keys
    && Bounded(db.items, db.nextKey, f)
  }

  /** No two transactions in flight have the same order, the same new payment or a common key. */
  ghost predicate Apart(flights: map<CallId, Flight>) {
    forall a, b | a in flights && b in flights && a != b ::
      && flights[a].order != flights[b].order && flights[a].payment != flights[b].payment
      && flights[a].claims.Keys !! flights[b].claims.Keys
  }

  ghost predicate SystemSound(s: System) {
    && Sound(s.world)
    && (forall id <- s.flights :: FlightSound(s.world.db, s.flights[id]))
    && Apart(s.flights)
  }

  // ---------------------------------------------------------------- looking at one row

  lemma LookKeepsFit(db: Database, f: Flight, item: ItemId, locked: bool)
    requires ClaimsFit(db.keys, db.items, f) && MayVisit(db, f, item)
    ensures ClaimsFit(db.keys, db.items, Look(db, f, item, locked))
  {
    hide HeldBy;
  }

  lemma LookKeepsScanned(db: Database, f: Flight, item: ItemId, locked: bool)
    requires Scanned(db.keys, db.items, f) && MayVisit(db, f, item)
    ensures Scanned(db.keys, db.items, Look(db, f, item, locked))
  {
    hide HeldBy;
  }

  lemma LookKeepsPassed(db: Database, f: Flight, item: ItemId, locked: bool)
    requires UniqueProducts(db.items) && MayVisit(db, f, item)
    requires ClaimsFit(db.keys, db.items, f) && PassedBehind(db.keys, db.items, f) && f.passed !! f.claims.Keys
    ensures PassedBehind(db.keys, db.items, Look(db, f, item, locked))
    ensures Look(db, f, item, locked).passed !! Look(db, f, item, locked).claims.Keys
  {
    hide HeldBy;
  }

  lemma LookKeepsBounds(db: Database, f: Flight, item: ItemId, locked: bool)
    requires MayVisit(db, f, item) && Bounded(db.items, db.nextKey, f)
    ensures Bounded(db.items, db.nextKey, Look(db, f, item, locked))
  {
    hide HeldBy;
  }

  lemma LookKeepsFlight(db: Database, f: Flight, item: ItemId, locked: bool)
    requires UniqueProducts(db.items) && FlightSound(db, f) && MayVisit(db, f, item)
    ensures FlightSound(db, Look(db, f, item, locked))
  {
    LookKeepsFit(db, f, item, locked);
    LookKeepsScanned(db, f, item, locked);
    LookKeepsPassed(db, f, item, locked);
    LookKeepsBounds(db, f, item, locked);
    hide HeldBy, MayOpen, ClaimsFit, Scanned, PassedBehind, Bounded;
  }

  /** A key that is locked by one transaction is claimed by no other. */
  lemma LookKeepsApart(db: Database, flights: map<CallId, Flight>, id: CallId, item: ItemId)
    requires Apart(flights) && id in flights && item in db.items
    ensures Apart(flights[id := Look(db, flights[id], item, LockedByOther(flights, id, flights[id].Cursor(item)))])
  {
  }

  // ---------------------------------------------------------------- steps of other transactions

  /** Keys keep their product, and new ones have new ids. */
  ghost predicate KeysPersist(before: Database, after: Database) {
    && before.nextKey <= after.nextKey
    && forall k <- after.keys ::
         if k in before.keys then after.keys[k].product == before.keys[k].product else before.nextKey <= k
  }

  lemma ElsewhereKeepsFlight(before: Database, after: Database, f: Flight)
    requires FlightSound(before, f) && Untouched(f, before, after)
    requires ItemsPersist(before.orders, before.items, after.items) && KeysPersist(before, after)
    ensures FlightSound(after, f)
  {
    hide ChooseProvider;
    forall i | i in after.items && after.items[i].order == f.order
      ensures i in before.items && before.items[i] == after.items[i]
    {
      assert i in ItemsOf(after.items, f.order);
    }
  }

  lemma NextKeysPersist(w: World, step: Step)
    requires Sound(w)
    ensures KeysPersist(w.db, Next(w, step).db)
  {
    hide Phases, Calls;
    if step.SupplyKey? {
      assert w.db.nextKey !in w.db.keys;
    } else if step.WithdrawKey? {
      hide Withdrawable, Inv;
    } else {
      hide Transact, Inv;
      TransactKeepsKeys(w, step);
    }
  }

  // ---------------------------------------------------------------- commits

  /** Two sets of keys of the same size, neither passing over a lower key of the pool, are the same. */
  lemma LowestAreUnique(pool: set<nat>, chosen: set<nat>, count: nat)
    requires chosen <= pool && |chosen| == count
    requires forall x, y | x in chosen && y in pool && y !in chosen :: x < y
    ensures SeqSet(FirstIds(pool, count)) == chosen
  {
    var ids := FirstIds(pool, count);
    DistinctCount(ids);
    SubsetCount(chosen, pool);
    var first := SeqSet(ids);
    if first <= chosen {
      SubsetEqual(first, chosen);
    } else {
      var x :| x in first && x !in chosen;
      assert forall y | y in chosen :: y < x;
      SubsetEqual(chosen, first);
    }
  }

  /** What an item claimed is exactly what the atomic selection takes when the passed keys are locked. */
  lemma ItemScan(db: Database, f: Flight, i: ItemId)
    requires KeyStates(db.keys, db.assignments, db.items, db.orders) && UniqueProducts(db.items) && FlightSound(db, f)
    requires i in ItemsOf(db.items, f.order) && |HeldBy(f.claims, i)| == db.items[i].quantity
    ensures var stock := Stock(db.keys, ReservationPool(db.keys, db.assignments, f.passed), db.items[i].product);
            && db.items[i].quantity <= |stock|
            && SeqSet(FirstIds(stock, db.items[i].quantity)) == HeldBy(f.claims, i)
  {
    hide MayOpen;
    var stock := Stock(db.keys, ReservationPool(db.keys, db.assignments, f.passed), db.items[i].product);
    var chosen := HeldBy(f.claims, i);
    assert chosen <= stock;
    SubsetCount(chosen, stock);
    forall x, y | x in chosen && y in stock && y !in chosen
      ensures x < y
    {
      assert i in f.cursors && x < f.cursors[i];
      assert y !in f.claims;
    }
    LowestAreUnique(stock, chosen, db.items[i].quantity);
  }

  lemma CommitClaims(db: Database, f: Flight)
    requires KeyStates(db.keys, db.assignments, db.items, db.orders) && UniqueProducts(db.items) && FlightSound(db, f)
    requires MayCommit(db, f)
    ensures var pool := ReservationPool(db.keys, db.assignments, f.passed);
            EnoughStock(db.keys, db.items, f.order, pool) && Claims(db.keys, db.items, f.order, pool) == f.claims
  {
    var pool := ReservationPool(db.keys, db.assignments, f.passed);
    forall i | i in ItemsOf(db.items, f.order)
      ensures db.items[i].quantity <= |Stock(db.keys, pool, db.items[i].product)|
      ensures HeldBy(Claims(db.keys, db.items, f.order, pool), i) == HeldBy(f.claims, i)
    {
      ItemScan(db, f, i);
      ItemClaim(db.keys, db.items, f.order, pool, i);
    }
    ClaimsMeetDemand(db.keys, db.items, f.order, pool);
    SameClaims(Claims(db.keys, db.items, f.order, pool), f.claims, ItemsOf(db.items, f.order));
  }

  lemma SameClaims(a: map<KeyId, ItemId>, b: map<KeyId, ItemId>, items: set<ItemId>)
    requires forall k <- a :: a[k] in items
    requires forall k <- b :: b[k] in items
    requires forall i <- items :: HeldBy(a, i) == HeldBy(b, i)
    ensures a == b
  {
    forall k | k in a
      ensures k in b && b[k] == a[k]
    {
      assert k in HeldBy(a, a[k]);
    }
    forall k | k in b
      ensures k in a
    {
      assert k in HeldBy(b, b[k]);
    }
  }

  /** The rows a commit writes are those the atomic transaction writes, for the keys passed over. */
  lemma CommittedIsOpening(db: Database, f: Flight)
    requires Inv(db) && FlightSound(db, f) && MayCommit(db, f)
    ensures (if f.driver.CreatePayment? then OpenCreate(db, f.order, f.given, f.settings, f.Resolution())
             else OpenPay(db, f.order, f.given, f.settings, f.Resolution())) == Ok(Committed(db, f))
  {
    hide KeyStates, Holdings, Authority, Outcomes, Valued, Agreement, NonEmptyOrders, DirectItems, Delivered, Notified, UniqueProducts,
         PositiveQuantities, UniqueTransactions, CartRows, Sequences, Claims, EnoughStock, OpenCreate, OpenPay, Opened,
         ClaimsFit, Scanned, PassedBehind, ReservationPool, ChooseProvider, HeldBy, ItemsOf, MayCommit;
    CommitClaims(db, f);
    OpenCreateEffect(db, f.order, f.given, f.settings, f.Resolution());
    OpenPayEffect(db, f.order, f.given, f.settings, f.Resolution());
  }

  lemma CommittedInserts(db: Database, f: Flight)
    requires MayCommit(db, f)
    ensures Committed(db, f).payment in Committed(db, f).db.payments
  {
    hide MayCommit;
  }

  /** A commit of the key-by-key allocation is the atomic opening step, for the keys it passed over. */
  lemma CommitIsAtomic(w: World, id: CallId, f: Flight)
    requires Inv(w.db) && FlightSound(w.db, f) && MayCommit(w.db, f)
    ensures CommittedWorld(w, id, f) == Next(w, AtomicStep(id, f))
  {
    hide Inv, FlightSound, MayCommit, OpenCreate, OpenPay, ChooseProvider, Grant;
    CommittedIsOpening(w.db, f);
    CommittedInserts(w.db, f);
    if f.driver.CreatePayment? {
      assert Transact(w, AtomicStep(id, f)) == Ok(Committed(w.db, f).db);
    } else {
      assert Transact(w, AtomicStep(id, f)) == Ok(Committed(w.db, f).db);
    }
  }

  // ---------------------------------------------------------------- allocations that run out of keys

  /** An item whose scan has seen every key row and still misses some. */
  predicate RanOut(db: Database, f: Flight, i: ItemId) {
    i in db.items && db.items[i].order == f.order && f.Cursor(i) >= db.nextKey && |HeldBy(f.claims, i)| < db.items[i].quantity
  }

  /** Whatever such a scan did not claim it passed over, so the keys not passed over do not suffice. */
  lemma ShortScan(db: Database, f: Flight, i: ItemId)
    requires UniqueProducts(db.items) && FlightSound(db, f) && RanOut(db, f, i) && forall k <- db.keys :: k < db.nextKey
    ensures !EnoughStock(db.keys, db.items, f.order, ReservationPool(db.keys, db.assignments, f.passed))
  {
    hide MayOpen;
    var stock := Stock(db.keys, ReservationPool(db.keys, db.assignments, f.passed), db.items[i].product);
    forall k | k in stock
      ensures k in HeldBy(f.claims, i)
    {
      assert k < f.Cursor(i) && i in f.cursors;
      assert k in f.claims;
    }
    SubsetCount(stock, HeldBy(f.claims, i));
    assert i in ItemsOf(db.items, f.order);
  }

  /** An allocation that runs out of keys fails as the atomic opening does for the keys it passed over. */
  lemma RunningOutIsAtomic(w: World, id: CallId, f: Flight, i: ItemId)
    requires Inv(w.db) && FlightSound(w.db, f) && RanOut(w.db, f, i)
    ensures Transact(w, AtomicStep(id, f)) == Err(NoKeysAvailable)
    ensures Next(w, AtomicStep(id, f)) == w
  {
    hide Inv, FlightSound, RanOut, OpenCreate, OpenPay;
    RunningOutErrors(w.db, f, i);
  }

  lemma RunningOutErrors(db: Database, f: Flight, i: ItemId)
    requires Inv(db) && FlightSound(db, f) && RanOut(db, f, i)
    ensures (if f.driver.CreatePayment? then OpenCreate(db, f.order, f.given, f.settings, f.Resolution())
             else OpenPay(db, f.order, f.given, f.settings, f.Resolution())) == Err(NoKeysAvailable)
  {
    hide KeyStates, Holdings, Authority, Outcomes, Valued, Agreement, NonEmptyOrders, DirectItems, Delivered, Notified, UniqueProducts,
         PositiveQuantities, UniqueTransactions, CartRows, Claims, EnoughStock, OpenCreate, OpenPay, Opened,
         ClaimsFit, Scanned, PassedBehind, ReservationPool, ChooseProvider, HeldBy, ItemsOf, RanOut;
    ShortScan(db, f, i);
    OpenCreateEffect(db, f.order, f.given, f.settings, f.Resolution());
    OpenPayEffect(db, f.order, f.given, f.settings, f.Resolution());
  }

  // ---------------------------------------------------------------- the invariant over interleaved runs

  /** Committing touches no key and no order row that another transaction has locked. */
  lemma CommitRespectsLocks(db: Database, flights: map<CallId, Flight>, id: CallId)
    requires Apart(flights) && id in flights && MayCommit(db, flights[id])
    requires forall other <- flights :: FlightSound(db, flights[other])
    ensures RespectsLocks(flights - {id}, db, Committed(db, flights[id]).db)
  {
    hide MayCommit, Scanned, PassedBehind, ChooseProvider;
  }

  lemma FlightsGoOn(flights: map<CallId, Flight>, w: World, after: World, step: Step)
    requires Sound(w) && after == Next(w, step) && RespectsLocks(flights, w.db, after.db)
    requires forall id <- flights :: FlightSound(w.db, flights[id])
    ensures forall id <- flights :: FlightSound(after.db, flights[id])
  {
    hide Sound, Next, FlightSound, Untouched, KeysPersist;
    NextIsSound(w, step);
    NextKeysPersist(w, step);
    forall id | id in flights
      ensures FlightSound(after.db, flights[id])
    {
      ElsewhereKeepsFlight(w.db, after.db, flights[id]);
    }
  }

  lemma BeginIsSound(
    s: System, id: CallId, driver: Driver, order: OrderId, given: Option<ProviderName>, settings: Settings, drawn: PaymentId)
    requires SystemSound(s)
    ensures SystemSound(MicroNext(s, Begin(id, driver, order, given, settings, drawn)))
  {
    hide Sound, MayOpen, FlightSound, Apart;
    if id !in s.flights && !OrderLocked(s.flights, order) && Unused(s.world.db, s.flights, drawn)
       && MayOpen(s.world.db.orders, driver, order, given, settings) {
      var f := Flight(driver, order, given, settings, drawn, map[], map[], {});
      FreshFlight(s.world.db, f);
      ApartFromFresh(s.flights, id, f);
    }
  }

  lemma FreshFlight(db: Database, f: Flight)
    requires MayOpen(db.orders, f.driver, f.order, f.given, f.settings)
    requires f.payment !in db.payments && f.cursors == map[] && f.claims == map[] && f.passed == {}
    ensures FlightSound(db, f)
  {
    hide MayOpen;
  }

  lemma ApartFromFresh(flights: map<CallId, Flight>, id: CallId, f: Flight)
    requires Apart(flights) && !OrderLocked(flights, f.order) && f.claims == map[]
    requires forall other <- flights :: flights[other].payment != f.payment
    ensures Apart(flights[id := f])
  {
  }

  lemma VisitIsSound(s: System, id: CallId, item: ItemId)
    requires SystemSound(s)
    ensures SystemSound(MicroNext(s, Visit(id, item)))
  {
    hide FlightSound, Apart, Look, MayVisit, Inv;
    if id in s.flights && MayVisit(s.world.db, s.flights[id], item) {
      VisitedExists(s.world.db, s.flights[id], item);
      UniqueProductsOfInv(s.world.db);
      LookKeepsFlight(s.world.db, s.flights[id], item, LockedByOther(s.flights, id, s.flights[id].Cursor(item)));
      LookKeepsApart(s.world.db, s.flights, id, item);
    }
  }

  lemma VisitedExists(db: Database, f: Flight, item: ItemId)
    requires MayVisit(db, f, item)
    ensures item in db.items
  {
  }

  lemma UniqueProductsOfInv(db: Database)
    requires Inv(db)
    ensures UniqueProducts(db.items)
  {
  }

  lemma CommitIsSound(s: System, id: CallId)
    requires SystemSound(s)
    ensures SystemSound(MicroNext(s, Commit(id)))
    ensures id in s.flights && MayCommit(s.world.db, s.flights[id]) ==>
              MicroNext(s, Commit(id)).world == Next(s.world, AtomicStep(id, s.flights[id]))
  {
    hide FlightSound, MayCommit, Next, CommittedWorld, Sound, RespectsLocks;
    if id in s.flights && MayCommit(s.world.db, s.flights[id]) {
      var f := s.flights[id];
      SoundMeansInv(s.world);
      CommitIsAtomic(s.world, id, f);
      CommittedDatabase(s.world, id, f);
      CommitRespectsLocks(s.world.db, s.flights, id);
      NextIsSound(s.world, AtomicStep(id, f));
      FlightsGoOn(s.flights - {id}, s.world, Next(s.world, AtomicStep(id, f)), AtomicStep(id, f));
    }
  }

  lemma CommittedDatabase(w: World, id: CallId, f: Flight)
    requires MayCommit(w.db, f)
    ensures CommittedWorld(w, id, f).db == Committed(w.db, f).db
  {
    hide MayCommit;
  }

  /**
   * In every interleaving the transactions in flight hold pairwise disjoint keys of different
   * orders, all still available, and the committed tables satisfy the invariant.
   */
  lemma MicroNextIsSound(s: System, step: MicroStep)
    requires SystemSound(s)
    ensures SystemSound(MicroNext(s, step))
  {
    hide Sound, FlightSound, MayCommit, Next;
    match step
    case Begin(id, driver, order, given, settings, drawn) => BeginIsSound(s, id, driver, order, given, settings, drawn);
    case Visit(id, item) => VisitIsSound(s, id, item);
    case Commit(id) => CommitIsSound(s, id);
    case Abort(id) =>
    case Elsewhere(step) =>
      NextIsSound(s.world, step);
      if RespectsLocks(s.flights, s.world.db, Next(s.world, step).db) {
        FlightsGoOn(s.flights, s.world, Next(s.world, step), step);
      }
  }

  ghost function MicroRun(s: System, steps: seq<MicroStep>): System {
    if steps == [] then s else MicroNext(MicroRun(s, steps[..|steps| - 1]), steps[|steps| - 1])
  }

  /** The atomic steps an interleaved run amounts to: its commits and the steps taken elsewhere. */
  ghost function Effective(s: System, step: MicroStep): seq<Step> {
    match step
    case Commit(id) => if id in s.flights && MayCommit(s.world.db, s.flights[id]) then [AtomicStep(id, s.flights[id])] else []
    case Elsewhere(step) => if RespectsLocks(s.flights, s.world.db, Next(s.world, step).db) then [step] else []
    case _ => []
  }

  ghost function Atomically(s: System, steps: seq<MicroStep>): seq<Step> {
    if steps == [] then []
    else Atomically(s, steps[..|steps| - 1]) + Effective(MicroRun(s, steps[..|steps| - 1]), steps[|steps| - 1])
  }

  lemma MicroNextIsAtomic(s: System, step: MicroStep)
    requires SystemSound(s)
    ensures MicroNext(s, step).world == Run(s.world, Effective(s, step))
  {
    hide Sound, FlightSound, Next, MayCommit, RespectsLocks;
    match step
    case Commit(id) =>
      CommitIsSound(s, id);
      if id in s.flights && MayCommit(s.world.db, s.flights[id]) {
        RunOne(s.world, AtomicStep(id, s.flights[id]));
      }
    case Elsewhere(step) => RunOne(s.world, step);
    case _ =>
  }

  lemma RunOne(w: World, step: Step)
    ensures Run(w, [step]) == Next(w, step)
  {
    assert [step][..0] == [];
    hide Next;
    assert Run(w, []) == w;
  }

  /** Every interleaved run of the shop ends in the tables, phases and provider calls of an atomic one. */
  lemma {:induction false} InterleavingIsAtomic(s: System, steps: seq<MicroStep>)
    requires SystemSound(s)
    ensures SystemSound(MicroRun(s, steps))
    ensures MicroRun(s, steps).world == Run(s.world, Atomically(s, steps))
  {
    hide SystemSound, MicroNext, Effective, Next;
    if steps != [] {
      var before := steps[..|steps| - 1];
      InterleavingIsAtomic(s, before);
      MicroNextIsSound(MicroRun(s, before), steps[|steps| - 1]);
      MicroNextIsAtomic(MicroRun(s, before), steps[|steps| - 1]);
      RunsCompose(s.world, Atomically(s, before), Effective(MicroRun(s, before), steps[|steps| - 1]));
    }
  }

  /** What the database cannot show: keys in flight are disjoint, available and assigned to nobody. */
  lemma InFlightKeysAreSafe(steps: seq<MicroStep>, a: CallId, b: CallId)
    requires var flights := MicroRun(System(START, map[]), steps).flights; a in flights && b in flights && a != b
    ensures var s := MicroRun(System(START, map[]), steps);
            && s.flights[a].claims.Keys !! s.flights[b].claims.Keys
            && s.flights[a].claims.Keys !! s.world.db.assignments.Keys
            && s.flights[a].claims.Keys <= SalePool(s.world.db.keys)
  {
    hide Sound, MayOpen, Scanned, PassedBehind, Bounded, MicroRun, KeyStates;
    ReachableStatesAreSound([]);
    InterleavingIsAtomic(System(START, map[]), steps);
    var s := MicroRun(System(START, map[]), steps);
    SoundMeansInv(s.world);
    KeyStatesOfInv(s.world.db);
    AvailableIsUnassigned(s.world.db);
  }

  lemma KeyStatesOfInv(db: Database)
    requires Inv(db)
    ensures KeyStates(db.keys, db.assignments, db.items, db.orders)
  {
  }

  lemma AvailableIsUnassigned(db: Database)
    requires KeyStates(db.keys, db.assignments, db.items, db.orders)
    ensures SalePool(db.keys) !! db.assignments.Keys
  {
  }

  /** Conservation holds of every interleaved run, whichever keys its transactions passed over. */
  lemma InterleavedRunsConserveKeys(steps: seq<MicroStep>, product: ProductId)
    ensures var db := MicroRun(System(START, map[]), steps).world.db;
            && |KeysOf(db.keys, product, Sold)| == Units(db.items, db.orders, product, true, db.nextItem)
            && |KeysOf(db.keys, product, Reserved)| == Units(db.items, db.orders, product, false, db.nextItem)
  {
    hide Sound, MicroRun, Run, Units, KeysOf;
    ReachableStatesAreSound([]);
    assert Run(START, []) == START by { StartOfRun(); }
    InterleavingIsAtomic(System(START, map[]), steps);
    KeysAreConserved(Atomically(System(START, map[]), steps), product);
  }

  lemma StartOfRun()
    ensures Run(START, []) == START
  {
  }
}
