/** The two data migrations that give orders from before order items a total, an item and an assignment. */
module Backfill {
  import opened Foundations
  import opened Schema
  import opened Allocation
  import opened Invariants
  import opened Confirmation
  import opened RowLoops

  datatype Instants = Instants(paidAt: Option<int>, createdAt: int)

  /** Columns only the migrations read: payment instants, product titles, and what counts as white space. */
  datatype Legacy = Legacy(times: PaymentId -> Instants, titles: ProductId -> string, space: char -> bool)

  // ---------------------------------------------------------------- the fallback chain

  /** `p` precedes `q` under `ORDER BY paid_at DESC, created_at DESC, id DESC`, where nulls come first. */
  predicate Precedes(times: PaymentId -> Instants, p: PaymentId, q: PaymentId) {
    var a, b := times(p), times(q);
    if a.paidAt != b.paidAt then a.paidAt == None || (b.paidAt.Some? && a.paidAt.value > b.paidAt.value)
    else if a.createdAt != b.createdAt then a.createdAt > b.createdAt
    else p > q
  }

  function FirstOf(times: PaymentId -> Instants, ids: seq<PaymentId>): Option<PaymentId> {
    if ids == [] then None
    else
      var last := ids[|ids| - 1];
      var first := FirstOf(times, ids[..|ids| - 1]);
      if first == None || Precedes(times, last, first.value) then Some(last) else first
  }

  /** The first row of an ordered query is a row of the query that precedes every other. */
  lemma {:induction false} FirstPrecedes(times: PaymentId -> Instants, ids: seq<PaymentId>)
    ensures FirstOf(times, ids) == None <==> ids == []
    ensures ids != [] ==> FirstOf(times, ids).value in ids
    ensures ids != [] ==> forall q <- ids :: q == FirstOf(times, ids).value || Precedes(times, FirstOf(times, ids).value, q)
  {
    if ids != [] {
      var n := |ids| - 1;
      FirstPrecedes(times, ids[..n]);
      assert ids == ids[..n] + [ids[n]];
    }
  }

  function FirstPaid(payments: map<PaymentId, Payment>, legacy: Legacy, order: OrderId): Option<PaymentId> {
    FirstOf(legacy.times, AllIds(PaidPayments(payments, order)))
  }

  lemma FirstPaidExists(payments: map<PaymentId, Payment>, legacy: Legacy, order: OrderId)
    ensures FirstPaid(payments, legacy, order).Some? ==> FirstPaid(payments, legacy, order).value in PaidPayments(payments, order)
    ensures FirstPaid(payments, legacy, order).Some? <==> PaidPayments(payments, order) != {}
  {
    var ids := AllIds(PaidPayments(payments, order));
    FirstPrecedes(legacy.times, ids);
    if PaidPayments(payments, order) != {} {
      var p :| p in PaidPayments(payments, order);
      assert p in ids;
    }
  }

  /** `q` precedes `p` under `ORDER BY paid_at, created_at, id`, where nulls come last. */
  predicate Ascends(times: PaymentId -> Instants, q: PaymentId, p: PaymentId) {
    var a, b := times(q), times(p);
    || (a.paidAt.Some? && b.paidAt == None)
    || (a.paidAt.Some? && b.paidAt.Some? && a.paidAt.value < b.paidAt.value)
    || (a.paidAt == b.paidAt && (a.createdAt < b.createdAt || (a.createdAt == b.createdAt && q < p)))
  }

  /** The descending order is the ascending one reversed, and it is total. */
  lemma DescendingIsReversed(times: PaymentId -> Instants, p: PaymentId, q: PaymentId)
    ensures Precedes(times, p, q) <==> Ascends(times, q, p)
    ensures p == q || Precedes(times, p, q) || Precedes(times, q, p)
    ensures !(Precedes(times, p, q) && Precedes(times, q, p))
  {
  }

  /** The rows the migrations start from: no dangling product, order or id. */
  ghost predicate LegacyRows(db: Database) {
    && (forall o <- db.orders :: db.orders[o].product.Some? ==> db.orders[o].product.value in db.catalogue)
    && (forall i <- db.items :: i < db.nextItem && db.items[i].order in db.orders)
  }

  /** The total an order is given: the most reliable amount on record, or none. */
  function Resolved(db: Database, legacy: Legacy, order: OrderId): Option<Money>
    requires order in db.orders
    requires db.orders[order].product.Some? ==> db.orders[order].product.value in db.catalogue
  {
    var row := db.orders[order];
    var paid := FirstPaid(db.payments, legacy, order);
    if row.total.Some? then row.total
    else if row.pricePaid.Some? then row.pricePaid
    else if paid.Some? then
      FirstPaidExists(db.payments, legacy, order);
      Some(db.payments[paid.value].amount)
    else if ItemsOf(db.items, order) != {} then Some(OrderValue(db.items, order, db.nextItem))
    else if !row.status.Paid? && row.product.Some? then Some(db.catalogue[row.product.value].price)
    else None
  }

  /** `title.strip()` is not empty. */
  predicate NonBlank(title: string, space: char -> bool) {
    exists c <- title :: !space(c)
  }

  predicate NeedsItem(db: Database, legacy: Legacy, order: OrderId)
    requires order in db.orders
    requires db.orders[order].product.Some? ==> db.orders[order].product.value in db.catalogue
  {
    && ItemsOf(db.items, order) == {} && db.orders[order].product.Some?
    && NonBlank(legacy.titles(db.orders[order].product.value), legacy.space)
    && Resolved(db, legacy, order).Some?
  }

  function NewItem(db: Database, legacy: Legacy, order: OrderId): OrderItem
    requires order in db.orders
    requires db.orders[order].product.Some? ==> db.orders[order].product.value in db.catalogue
    requires NeedsItem(db, legacy, order)
  {
    OrderItem(order, db.orders[order].product.value, 1, Resolved(db, legacy, order).value)
  }

  /** The effect of one round of the loop. */
  function BackfillOne(db: Database, legacy: Legacy, order: OrderId): Database
    requires order in db.orders
    requires db.orders[order].product.Some? ==> db.orders[order].product.value in db.catalogue
  {
    var priced := db.(orders := db.orders[order := db.orders[order].(total := Resolved(db, legacy, order))]);
    if NeedsItem(db, legacy, order)
    then priced.(items := db.items[db.nextItem := NewItem(db, legacy, order)], nextItem := db.nextItem + 1)
    else priced
  }

  // ---------------------------------------------------------------- totals and items

  function DirectOrders(orders: map<OrderId, Order>): set<OrderId> {
    set o | o in orders && orders[o].source.Direct?
  }

  ghost predicate TotalsNormalised(before: Database, orders: map<OrderId, Order>, legacy: Legacy, done: set<OrderId>)
    requires LegacyRows(before)
  {
    && orders.Keys == before.orders.Keys
    && forall o <- before.orders :: orders[o] == before.orders[o].(
         total := if o in done then Resolved(before, legacy, o) else before.orders[o].total)
  }

  /** Old items stay, and the new ones take the next ids without gap. */
  ghost predicate OldItemsKept(before: Database, items: map<ItemId, OrderItem>, nextItem: ItemId) {
    && before.nextItem <= nextItem
    && (forall i <- before.items :: i in items && items[i] == before.items[i])
    && (forall i | before.nextItem <= i < nextItem :: i in items)
    && (forall i <- items | i !in before.items :: before.nextItem <= i < nextItem)
  }

  /** Each visited order that needs an item has got exactly one, and no other order has. */
  ghost predicate ItemsNormalised(
    before: Database, items: map<ItemId, OrderItem>, nextItem: ItemId, legacy: Legacy, done: set<OrderId>)
    requires LegacyRows(before)
  {
    && OldItemsKept(before, items, nextItem)
    && (forall i <- items | i !in before.items ::
          && items[i].order in done && items[i].order in before.orders
          && NeedsItem(before, legacy, items[i].order)
          && items[i] == NewItem(before, legacy, items[i].order))
    && (forall i, j | i in items && j in items && i !in before.items && j !in before.items
          && items[i].order == items[j].order :: i == j)
    && (forall o <- done | o in before.orders && NeedsItem(before, legacy, o) :: ItemsOf(items, o) != {})
  }

  /** The rows after the orders in `done` have been visited, in terms of the rows before the migration. */
  ghost predicate Normalised(before: Database, after: Database, legacy: Legacy, done: set<OrderId>)
    requires LegacyRows(before)
  {
    && after == before.(orders := after.orders, items := after.items, nextItem := after.nextItem)
    && TotalsNormalised(before, after.orders, legacy, done)
    && ItemsNormalised(before, after.items, after.nextItem, legacy, done)
  }

  lemma {:induction false} ValueExtends(items: map<ItemId, OrderItem>, after: map<ItemId, OrderItem>, order: OrderId, low: nat, n: nat)
    requires low <= n
    requires forall i <- items :: i in after && after[i] == items[i]
    requires forall i <- after | i !in items :: after[i].order != order
    requires forall i <- items :: i < low
    ensures OrderValue(after, order, n) == OrderValue(items, order, low)
  {
    if n > low {
      ValueExtends(items, after, order, low, n - 1);
    } else {
      ValueAgrees(items, after, order, low);
    }
  }

  lemma {:induction false} ValueAgrees(items: map<ItemId, OrderItem>, after: map<ItemId, OrderItem>, order: OrderId, n: nat)
    requires forall i <- items :: i in after && after[i] == items[i]
    requires forall i <- after | i !in items :: after[i].order != order
    ensures OrderValue(after, order, n) == OrderValue(items, order, n)
  {
    if n > 0 {
      ValueAgrees(items, after, order, n - 1);
    }
  }

  /** An order not visited yet resolves to what it resolved to before the migration. */
  lemma UnvisitedIsSame(before: Database, after: Database, legacy: Legacy, done: set<OrderId>, order: OrderId)
    requires LegacyRows(before) && Normalised(before, after, legacy, done) && order in before.orders && order !in done
    ensures ItemsOf(after.items, order) == ItemsOf(before.items, order)
    ensures after.orders[order] == before.orders[order]
    ensures Resolved(after, legacy, order) == Resolved(before, legacy, order)
  {
    hide FirstPaid, NeedsItem, NewItem, OrderValue;
    ValueExtends(before.items, after.items, order, before.nextItem, after.nextItem);
  }

  lemma OneMoreItem(
    before: Database, items: map<ItemId, OrderItem>, nextItem: ItemId, legacy: Legacy, done: set<OrderId>,
    order: OrderId, item: OrderItem)
    requires LegacyRows(before) && ItemsNormalised(before, items, nextItem, legacy, done)
    requires order in before.orders && order !in done && NeedsItem(before, legacy, order)
    requires item == NewItem(before, legacy, order) && item.order == order && nextItem !in items
    ensures ItemsNormalised(before, items[nextItem := item], nextItem + 1, legacy, done + {order})
  {
    hide NeedsItem, NewItem, OldItemsKept;
    var after := items[nextItem := item];
    OneMoreKept(before, items, nextItem, item);
    assert nextItem in ItemsOf(after, order);
    forall o | o in done && o in before.orders && NeedsItem(before, legacy, o)
      ensures ItemsOf(after, o) != {}
    {
      var i :| i in ItemsOf(items, o);
      assert i in ItemsOf(after, o);
    }
  }

  lemma OneMoreKept(before: Database, items: map<ItemId, OrderItem>, nextItem: ItemId, item: OrderItem)
    requires LegacyRows(before) && OldItemsKept(before, items, nextItem) && nextItem !in items
    ensures OldItemsKept(before, items[nextItem := item], nextItem + 1)
  {
  }

  lemma NextItemIsFree(before: Database, items: map<ItemId, OrderItem>, nextItem: ItemId, legacy: Legacy, done: set<OrderId>)
    requires LegacyRows(before) && ItemsNormalised(before, items, nextItem, legacy, done)
    ensures nextItem !in items
  {
    hide NeedsItem, NewItem;
  }

  lemma NoMoreItem(
    before: Database, items: map<ItemId, OrderItem>, nextItem: ItemId, legacy: Legacy, done: set<OrderId>, order: OrderId)
    requires LegacyRows(before) && ItemsNormalised(before, items, nextItem, legacy, done)
    requires order in before.orders && !NeedsItem(before, legacy, order)
    ensures ItemsNormalised(before, items, nextItem, legacy, done + {order})
  {
    hide NeedsItem;
  }

  lemma OneMoreTotal(before: Database, orders: map<OrderId, Order>, legacy: Legacy, done: set<OrderId>, order: OrderId)
    requires LegacyRows(before) && TotalsNormalised(before, orders, legacy, done) && order in before.orders && order !in done
    ensures TotalsNormalised(before, orders[order := orders[order].(total := Resolved(before, legacy, order))], legacy, done + {order})
  {
    hide Resolved;
  }

  /** The round of an unvisited order, in terms of the rows before the migration. */
  lemma RoundOf(before: Database, cur: Database, legacy: Legacy, done: set<OrderId>, order: OrderId)
    requires LegacyRows(before) && Normalised(before, cur, legacy, done) && order in before.orders && order !in done
    ensures order in cur.orders && cur.orders[order] == before.orders[order] && cur.catalogue == before.catalogue
    ensures var priced := cur.(orders := cur.orders[order := cur.orders[order].(total := Resolved(before, legacy, order))]);
            BackfillOne(cur, legacy, order) ==
            if NeedsItem(before, legacy, order)
            then priced.(items := cur.items[cur.nextItem := NewItem(before, legacy, order)], nextItem := cur.nextItem + 1)
            else priced
    ensures NeedsItem(before, legacy, order) ==> NewItem(before, legacy, order).order == order
  {
    UnvisitedIsSame(before, cur, legacy, done, order);
    hide Resolved, NonBlank, TotalsNormalised, ItemsNormalised, ItemsOf;
  }

  lemma OneMore(before: Database, cur: Database, legacy: Legacy, done: set<OrderId>, order: OrderId)
    requires LegacyRows(before) && Normalised(before, cur, legacy, done) && order in before.orders && order !in done
    requires order in cur.orders && LegacyRows(cur)
    ensures Normalised(before, BackfillOne(cur, legacy, order), legacy, done + {order})
  {
    hide Resolved, NonBlank, TotalsNormalised, ItemsNormalised, ItemsOf, NeedsItem, NewItem, BackfillOne;
    RoundOf(before, cur, legacy, done, order);
    OneMoreTotal(before, cur.orders, legacy, done, order);
    if NeedsItem(before, legacy, order) {
      NextItemIsFree(before, cur.items, cur.nextItem, legacy, done);
      OneMoreItem(before, cur.items, cur.nextItem, legacy, done, order, NewItem(before, legacy, order));
    } else {
      NoMoreItem(before, cur.items, cur.nextItem, legacy, done, order);
    }
  }

  /** The sum of an order's item lines. */
  method SumItems(items: map<ItemId, OrderItem>, order: OrderId, next: ItemId) returns (total: Money)
    requires forall i <- items :: i < next
    ensures total == OrderValue(items, order, next)
  {
    hide OrderValue, LineTotal;
    var ids := AllIds(ItemsOf(items, order));
    total := 0;
    FirstBound(items, order, next, ids);
    for m := 0 to |ids|
      invariant total == OrderValue(items, order, Bound(ids, m, next))
    {
      NextBound(items, order, next, ids, m);
      total := total + LineTotal(items[ids[m]].unitPrice, items[ids[m]].quantity);
    }
  }

  function Bound(ids: seq<ItemId>, m: nat, next: ItemId): ItemId {
    if m < |ids| then ids[m] else next
  }

  ghost predicate ListsItems(items: map<ItemId, OrderItem>, order: OrderId, next: ItemId, ids: seq<ItemId>) {
    && Ascending(ids) && (forall i <- items :: i < next)
    && forall i :: i in ids <==> i in items && items[i].order == order
  }

  lemma FirstBound(items: map<ItemId, OrderItem>, order: OrderId, next: ItemId, ids: seq<ItemId>)
    requires ListsItems(items, order, next, ids)
    ensures OrderValue(items, order, Bound(ids, 0, next)) == 0
  {
    hide OrderValue;
    EmptyValue(items, order);
    NoValueBetween(items, order, 0, Bound(ids, 0, next));
  }

  lemma NextBound(items: map<ItemId, OrderItem>, order: OrderId, next: ItemId, ids: seq<ItemId>, m: nat)
    requires ListsItems(items, order, next, ids) && m < |ids|
    ensures ids[m] in items
    ensures OrderValue(items, order, Bound(ids, m + 1, next))
         == OrderValue(items, order, Bound(ids, m, next)) + LineTotal(items[ids[m]].unitPrice, items[ids[m]].quantity)
  {
    hide OrderValue, LineTotal;
    assert forall j | 0 <= j < |ids| :: ids[j] in ids && (j <= m || ids[j] >= Bound(ids, m + 1, next));
    OneLine(items, order, ids[m]);
    NoValueBetween(items, order, ids[m] + 1, Bound(ids, m + 1, next));
  }

  lemma EmptyValue(items: map<ItemId, OrderItem>, order: OrderId)
    ensures OrderValue(items, order, 0) == 0
  {
  }

  lemma OneLine(items: map<ItemId, OrderItem>, order: OrderId, i: ItemId)
    requires i in items && items[i].order == order
    ensures OrderValue(items, order, i + 1) == OrderValue(items, order, i) + LineTotal(items[i].unitPrice, items[i].quantity)
  {
  }

  lemma {:induction false} NoValueBetween(items: map<ItemId, OrderItem>, order: OrderId, low: nat, high: nat)
    requires low <= high && forall i <- items | low <= i < high :: items[i].order != order
    ensures OrderValue(items, order, high) == OrderValue(items, order, low)
  {
    if low < high {
      NoValueBetween(items, order, low, high - 1);
    }
  }

  /** The fallback chain, one rule after the other. */
  method ResolveTotal(db: Database, legacy: Legacy, order: OrderId) returns (total: Option<Money>)
    requires LegacyRows(db) && order in db.orders
    ensures total == Resolved(db, legacy, order)
  {
    hide OrderValue;
    var row := db.orders[order];
    var paid := FirstPaid(db.payments, legacy, order);
    FirstPaidExists(db.payments, legacy, order);
    total := row.total;
    if total == None {
      total := row.pricePaid;
    }
    if total == None {
      total := if paid.Some? then Some(db.payments[paid.value].amount) else None;
    }
    if total == None && ItemsOf(db.items, order) != {} {
      var sum := SumItems(db.items, order, db.nextItem);
      total := Some(sum);
    }
    if total == None && !row.status.Paid? && paid == None && row.product.Some? {
      total := Some(db.catalogue[row.product.value].price);
    }
  }

  /** One round of the loop of `backfill_direct_orders`. */
  method VisitOrder(db: Database, legacy: Legacy, order: OrderId) returns (after: Database)
    requires LegacyRows(db) && order in db.orders
    ensures after == BackfillOne(db, legacy, order)
  {
    var total := ResolveTotal(db, legacy, order);
    TotalIsKept(db, legacy, order);
    hide Resolved;
    var row := db.orders[order];
    after := db;
    if row.total == None && total.Some? {
      after := after.(orders := after.orders[order := row.(total := total)]);
    }
    assert after.orders == db.orders[order := row.(total := total)];
    if ItemsOf(db.items, order) == {} && row.product.Some? && NonBlank(legacy.titles(row.product.value), legacy.space) && total.Some? {
      after := after.(items := after.items[after.nextItem := OrderItem(order, row.product.value, 1, total.value)],
                      nextItem := after.nextItem + 1);
    }
  }

  /** A total on record is retained. */
  lemma TotalIsKept(db: Database, legacy: Legacy, order: OrderId)
    requires LegacyRows(db) && order in db.orders
    ensures db.orders[order].total.Some? ==> Resolved(db, legacy, order) == db.orders[order].total
  {
  }

  /** `backfill_direct_orders`, for any order in which the query lists the direct orders. */
  method BackfillDirectOrders(db: Database, legacy: Legacy, listed: seq<OrderId>) returns (after: Database)
    requires LegacyRows(db) && SeqSet(listed) == DirectOrders(db.orders)
    requires forall a, b | 0 <= a < b < |listed| :: listed[a] != listed[b]
    ensures Normalised(db, after, legacy, DirectOrders(db.orders))
  {
    hide Normalised, BackfillOne;
    after := db;
    assert listed[..0] == [];
    NothingNormalised(db, legacy);
    for n := 0 to |listed|
      invariant Normalised(db, after, legacy, SeqSet(listed[..n]))
    {
      assert listed[n] in SeqSet(listed) && listed[n] !in SeqSet(listed[..n]);
      assert listed[..n + 1] == listed[..n] + [listed[n]];
      assert SeqSet(listed[..n + 1]) == SeqSet(listed[..n]) + {listed[n]};
      NormalisedRows(db, after, legacy, SeqSet(listed[..n]));
      OneMore(db, after, legacy, SeqSet(listed[..n]), listed[n]);
      after := VisitOrder(after, legacy, listed[n]);
    }
    assert listed[..|listed|] == listed;
  }

  lemma NothingNormalised(db: Database, legacy: Legacy)
    requires LegacyRows(db)
    ensures Normalised(db, db, legacy, SeqSet([]))
  {
  }

  lemma NormalisedRows(before: Database, after: Database, legacy: Legacy, done: set<OrderId>)
    requires LegacyRows(before) && Normalised(before, after, legacy, done)
    ensures LegacyRows(after) && after.orders.Keys == before.orders.Keys
  {
  }

  // ---------------------------------------------------------------- what the total backfill achieves

  /** No total on record, no item and no other table is overwritten. */
  lemma NothingIsOverwritten(before: Database, after: Database, legacy: Legacy, order: OrderId)
    requires LegacyRows(before) && Normalised(before, after, legacy, DirectOrders(before.orders)) && order in before.orders
    ensures before.orders[order].total.Some? ==> after.orders[order] == before.orders[order]
    ensures before.orders[order].source.Cart? ==> after.orders[order] == before.orders[order]
    ensures forall i <- before.items :: i in after.items && after.items[i] == before.items[i]
    ensures ItemsOf(before.items, order) != {} || before.orders[order].source.Cart? ==>
              ItemsOf(after.items, order) == ItemsOf(before.items, order)
  {
    hide FirstPaid, NonBlank, OrderValue;
  }

  lemma NewItemsOf(before: Database, after: Database, legacy: Legacy, order: OrderId)
    requires LegacyRows(before) && Normalised(before, after, legacy, DirectOrders(before.orders))
    requires order in DirectOrders(before.orders) && ItemsOf(before.items, order) == {}
    ensures NeedsItem(before, legacy, order) ==>
              exists i :: ItemsOf(after.items, order) == {i} && after.items[i] == NewItem(before, legacy, order)
    ensures !NeedsItem(before, legacy, order) ==> ItemsOf(after.items, order) == {}
  {
    hide Resolved, NonBlank, TotalsNormalised, NewItem;
    if NeedsItem(before, legacy, order) {
      var i :| i in ItemsOf(after.items, order);
      forall j | j in ItemsOf(after.items, order)
        ensures j == i
      {
        assert j in before.items ==> j in ItemsOf(before.items, order);
        assert i in before.items ==> i in ItemsOf(before.items, order);
      }
      assert ItemsOf(after.items, order) == {i};
    }
  }

  /** After the migration an order resolves to the total it has. */
  lemma ResolvesToItself(before: Database, after: Database, legacy: Legacy, order: OrderId)
    requires LegacyRows(before) && Normalised(before, after, legacy, DirectOrders(before.orders))
    requires order in DirectOrders(before.orders)
    ensures order in after.orders && after.orders[order].product == before.orders[order].product
    ensures Resolved(after, legacy, order) == after.orders[order].total == Resolved(before, legacy, order)
    ensures !NeedsItem(after, legacy, order)
  {
    if Resolved(before, legacy, order) == None {
      assert ItemsOf(before.items, order) == {};
      NewItemsOf(before, after, legacy, order);
    } else if ItemsOf(before.items, order) == {} {
      NewItemsOf(before, after, legacy, order);
    } else {
      NothingIsOverwritten(before, after, legacy, order);
    }
    hide FirstPaid, NonBlank, OrderValue, ItemsNormalised, ItemsOf;
  }

  /** Orders that need nothing get nothing. */
  lemma NothingToDo(db: Database, again: Database, legacy: Legacy, done: set<OrderId>)
    requires LegacyRows(db) && Normalised(db, again, legacy, done)
    requires forall o <- done | o in db.orders :: Resolved(db, legacy, o) == db.orders[o].total && !NeedsItem(db, legacy, o)
    ensures again == db
  {
    hide Resolved, NeedsItem, NewItem;
    assert again.items == db.items;
    assert db.nextItem < again.nextItem ==> db.nextItem in again.items;
    assert again.orders == db.orders;
  }

  /**
   * The total of a direct order after the migration, by descending reliability of what is on record:
   * its own total, its price paid, its latest paid payment, its items, and for an unpaid order
   * without any of these the catalogue price; otherwise none is invented.
   */
  lemma TotalsAreExact(before: Database, after: Database, legacy: Legacy, order: OrderId)
    requires LegacyRows(before) && Normalised(before, after, legacy, DirectOrders(before.orders))
    requires order in before.orders && before.orders[order].source.Direct?
    ensures var row := before.orders[order];
            var paid := PaidPayments(before.payments, order);
            var total := after.orders[order].total;
            if row.total.Some? then total == row.total
            else if row.pricePaid.Some? then total == row.pricePaid
            else if paid != {} then
              exists p <- paid :: total == Some(before.payments[p].amount) && forall q <- paid | q != p :: Ascends(legacy.times, q, p)
            else if ItemsOf(before.items, order) != {} then total == Some(OrderValue(before.items, order, before.nextItem))
            else if !row.status.Paid? && row.product.Some? then total == Some(before.catalogue[row.product.value].price)
            else total == None
  {
    hide ItemsNormalised, OrderValue;
    var ids := AllIds(PaidPayments(before.payments, order));
    FirstPrecedes(legacy.times, ids);
    FirstPaidExists(before.payments, legacy, order);
    if PaidPayments(before.payments, order) != {} {
      var p := FirstPaid(before.payments, legacy, order).value;
      forall q | q in PaidPayments(before.payments, order) && q != p
        ensures Ascends(legacy.times, q, p)
      {
        assert q in ids;
        DescendingIsReversed(legacy.times, p, q);
      }
    }
  }

  /**
   * The items of a direct order after the migration: those it had, or, if it had none and has a product
   * with a title that is not blank and a total, one unit of that product at that total, or none.
   */
  lemma ItemsAreExact(before: Database, after: Database, legacy: Legacy, order: OrderId)
    requires LegacyRows(before) && Normalised(before, after, legacy, DirectOrders(before.orders))
    requires order in before.orders && before.orders[order].source.Direct?
    ensures var product, total := before.orders[order].product, after.orders[order].total;
            if ItemsOf(before.items, order) != {} then ItemsOf(after.items, order) == ItemsOf(before.items, order)
            else if product.Some? && total.Some? && (exists c <- legacy.titles(product.value) :: !legacy.space(c)) then
              exists i <- after.items :: ItemsOf(after.items, order) == {i} && after.items[i] == OrderItem(order, product.value, 1, total.value)
            else ItemsOf(after.items, order) == {}
  {
    if ItemsOf(before.items, order) != {} {
      NothingIsOverwritten(before, after, legacy, order);
    } else {
      NewItemsOf(before, after, legacy, order);
      hide Resolved, ItemsNormalised;
      if NeedsItem(before, legacy, order) {
        var i :| ItemsOf(after.items, order) == {i} && after.items[i] == NewItem(before, legacy, order);
        assert i in ItemsOf(after.items, order);
      }
    }
  }

  /** A second run of the migration changes nothing. */
  lemma BackfillIsIdempotent(before: Database, after: Database, again: Database, legacy: Legacy)
    requires LegacyRows(before) && Normalised(before, after, legacy, DirectOrders(before.orders))
    requires LegacyRows(after) && Normalised(after, again, legacy, DirectOrders(after.orders))
    ensures again == after
  {
    hide Resolved, NeedsItem, ItemsNormalised, Normalised;
    SameDirectOrders(before, after, legacy);
    forall o | o in DirectOrders(after.orders) && o in after.orders
      ensures Resolved(after, legacy, o) == after.orders[o].total && !NeedsItem(after, legacy, o)
    {
      ResolvesToItself(before, after, legacy, o);
    }
    NothingToDo(after, again, legacy, DirectOrders(after.orders));
  }

  lemma SameDirectOrders(before: Database, after: Database, legacy: Legacy)
    requires LegacyRows(before) && Normalised(before, after, legacy, DirectOrders(before.orders))
    ensures DirectOrders(after.orders) == DirectOrders(before.orders)
  {
    hide Resolved, ItemsNormalised;
  }

  /** A normalised order needs no item from the payment services any more. */
  lemma NormalisedOrderIsReady(before: Database, after: Database, legacy: Legacy, order: OrderId)
    requires LegacyRows(before) && Normalised(before, after, legacy, DirectOrders(before.orders))
    requires order in DirectOrders(before.orders) && Resolved(before, legacy, order).Some?
    requires ItemsOf(before.items, order) != {} || NeedsItem(before, legacy, order)
    ensures order in after.orders && PayableTotal(after, order) == Ok(Resolved(before, legacy, order).value)
    ensures EnsureItems(after, order, Resolved(before, legacy, order).value) == Ok(after)
    ensures ItemsOf(before.items, order) == {} ==>
              OrderValue(after.items, order, after.nextItem) == Resolved(before, legacy, order).value
  {
    hide Resolved, NonBlank;
    if ItemsOf(before.items, order) == {} {
      NewItemsOf(before, after, legacy, order);
      var i :| ItemsOf(after.items, order) == {i} && after.items[i] == NewItem(before, legacy, order);
      assert i in ItemsOf(after.items, order);
      SingleValue(after.items, order, i, after.nextItem);
    } else {
      NothingIsOverwritten(before, after, legacy, order);
    }
  }

  lemma SingleValue(items: map<ItemId, OrderItem>, order: OrderId, i: ItemId, next: ItemId)
    requires ItemsOf(items, order) == {i} && i < next
    ensures OrderValue(items, order, next) == LineTotal(items[i].unitPrice, items[i].quantity)
  {
    assert i in ItemsOf(items, order);
    forall j | j in items && items[j].order == order
      ensures j == i
    {
      assert j in ItemsOf(items, order);
    }
    NoValueBetween(items, order, 0, i);
    NoValueBetween(items, order, i + 1, next);
  }

  lemma {:induction false} NoUnitsBetween(items: map<ItemId, OrderItem>, order: OrderId, low: nat, high: nat)
    requires low <= high && forall i <- items | low <= i < high :: items[i].order != order
    ensures OrderUnits(items, order, high) == OrderUnits(items, order, low)
  {
    if low < high {
      NoUnitsBetween(items, order, low, high - 1);
    }
  }

  lemma SingleUnits(items: map<ItemId, OrderItem>, order: OrderId, i: ItemId, next: ItemId)
    requires ItemsOf(items, order) == {i} && i < next
    ensures OrderUnits(items, order, next) == items[i].quantity
  {
    assert i in ItemsOf(items, order);
    forall j | j in items && items[j].order == order
      ensures j == i
    {
      assert j in ItemsOf(items, order);
    }
    NoUnitsBetween(items, order, 0, i);
    NoUnitsBetween(items, order, i + 1, next);
  }

  // ---------------------------------------------------------------- assignments

  /** The paid direct orders with a key, which the second migration visits. */
  function PaidWithKey(orders: map<OrderId, Order>): set<OrderId> {
    set o | o in orders && orders[o].source.Direct? && orders[o].status.Paid? && orders[o].licenseKey.Some?
  }

  /** The assignments the second migration owes to the orders it has visited. */
  ghost predicate Listed(db: Database, visited: seq<OrderId>, list: seq<Assignment>) {
    forall a: Assignment :: a in list <==>
      exists o <- visited :: o in PaidWithKey(db.orders) && db.orders[o].licenseKey == Some(a.key) && ItemsOf(db.items, o) == {a.item}
  }

  ghost predicate Owed(db: Database, k: KeyId, i: ItemId) {
    exists o <- PaidWithKey(db.orders) :: db.orders[o].licenseKey == Some(k) && ItemsOf(db.items, o) == {i}
  }

  /** The outcome of the second migration: one assignment per order with exactly one item. */
  ghost predicate AssignmentsBackfilled(before: Database, after: Database) {
    && after == before.(assignments := after.assignments)
    && (forall k <- after.assignments :: Owed(before, k, after.assignments[k]))
    && (forall k: KeyId, i: ItemId | Owed(before, k, i) :: k in after.assignments && after.assignments[k] == i)
  }

  /** `backfill_direct_order_license_assignments`, which creates the assignment table. */
  method BackfillAssignments(db: Database) returns (after: Database, malformed: seq<OrderId>)
    requires db.assignments == map[] && OneOrderPerKey(db.orders)
    ensures AssignmentsBackfilled(db, after)
    ensures forall o :: o in malformed <==> o in PaidWithKey(db.orders) && |ItemsOf(db.items, o)| != 1
  {
    hide ItemsOf;
    var visited := AllIds(PaidWithKey(db.orders));
    var list: seq<Assignment> := [];
    malformed := [];
    assert visited[..0] == [];
    for n := 0 to |visited|
      invariant Listed(db, visited[..n], list)
      invariant forall o :: o in malformed <==> o in visited[..n] && |ItemsOf(db.items, o)| != 1
    {
      var order := visited[n];
      assert order in visited && visited[..n + 1] == visited[..n] + [order];
      var found := FirstIds(ItemsOf(db.items, order), 2);
      if |found| != 1 {
        MalformedIsListed(db, visited[..n], list, order);
        malformed := malformed + [order];
        continue;
      }
      SingleFound(ItemsOf(db.items, order), found);
      OneMoreListed(db, visited[..n], list, order, Assignment(db.orders[order].licenseKey.value, found[0]));
      list := list + [Assignment(db.orders[order].licenseKey.value, found[0])];
    }
    assert visited[..|visited|] == visited;
    ListedRows(db, visited, list);
    after := db.(assignments := AsRows(list));
  }

  lemma SingleFound(items: set<ItemId>, found: seq<ItemId>)
    requires found == FirstIds(items, 2) && |found| == 1
    ensures items == {found[0]} && |items| == 1
  {
    assert found[0] in found;
    assert SeqSet(found) == {found[0]};
    SubsetEqual({found[0]}, items);
  }

  lemma MalformedIsListed(db: Database, visited: seq<OrderId>, list: seq<Assignment>, order: OrderId)
    requires Listed(db, visited, list) && |ItemsOf(db.items, order)| != 1
    ensures Listed(db, visited + [order], list)
  {
    hide ItemsOf;
  }

  lemma OneMoreListed(db: Database, visited: seq<OrderId>, list: seq<Assignment>, order: OrderId, a: Assignment)
    requires Listed(db, visited, list) && order in PaidWithKey(db.orders)
    requires db.orders[order].licenseKey == Some(a.key) && ItemsOf(db.items, order) == {a.item}
    ensures Listed(db, visited + [order], list + [a])
  {
    hide ItemsOf;
  }

  lemma ListedRows(db: Database, visited: seq<OrderId>, list: seq<Assignment>)
    requires OneOrderPerKey(db.orders) && Listed(db, visited, list)
    requires forall o :: o in visited <==> o in PaidWithKey(db.orders)
    ensures AssignmentsBackfilled(db, db.(assignments := AsRows(list)))
  {
    hide ItemsOf;
    forall a, b | a in list && b in list && a.key == b.key
      ensures a.item == b.item
    {
      var o :| o in visited && o in PaidWithKey(db.orders) && db.orders[o].licenseKey == Some(a.key) && ItemsOf(db.items, o) == {a.item};
      var q :| q in visited && q in PaidWithKey(db.orders) && db.orders[q].licenseKey == Some(b.key) && ItemsOf(db.items, q) == {b.item};
      assert o == q;
      assert a.item in {b.item};
    }
    RowsOfList(list);
    forall k | k in AsRows(list)
      ensures Owed(db, k, AsRows(list)[k])
    {
      assert Assignment(k, AsRows(list)[k]) in list;
    }
    forall k: KeyId, i: ItemId | Owed(db, k, i)
      ensures k in AsRows(list) && AsRows(list)[k] == i
    {
      assert Assignment(k, i) in list;
    }
  }

  /** A key is assigned to an item exactly when it is the key of a paid direct order with that item alone; no other table changes. */
  lemma AssignmentsAreExact(before: Database, after: Database, k: KeyId, i: ItemId)
    requires AssignmentsBackfilled(before, after)
    ensures after == before.(assignments := after.assignments)
    ensures (k in after.assignments && after.assignments[k] == i) <==>
              exists o <- before.orders ::
                && before.orders[o].source.Direct? && before.orders[o].status.Paid? && before.orders[o].licenseKey == Some(k)
                && i in before.items && before.items[i].order == o
                && forall j <- before.items | before.items[j].order == o :: j == i
  {
    if k in after.assignments && after.assignments[k] == i {
      assert Owed(before, k, i);
      var o :| o in PaidWithKey(before.orders) && before.orders[o].licenseKey == Some(k) && ItemsOf(before.items, o) == {i};
      assert i in ItemsOf(before.items, o);
      assert forall j <- before.items | before.items[j].order == o :: j in ItemsOf(before.items, o);
    }
    if o :| o in before.orders && before.orders[o].source.Direct? && before.orders[o].status.Paid? && before.orders[o].licenseKey == Some(k)
            && i in before.items && before.items[i].order == o && forall j <- before.items | before.items[j].order == o :: j == i {
      assert ItemsOf(before.items, o) == {i};
      assert o in PaidWithKey(before.orders);
      assert Owed(before, k, i);
    }
  }

  // ---------------------------------------------------------------- what both migrations achieve

  lemma BackfilledHoldings(before: Database, after: Database, order: OrderId)
    requires OneOrderPerKey(before.orders) && AssignmentsBackfilled(before, after) && order in PaidWithKey(before.orders)
    ensures (exists i :: ItemsOf(before.items, order) == {i}) ==>
              HeldFor(after.assignments, after.items, order) == {before.orders[order].licenseKey.value}
    ensures !(exists i :: ItemsOf(before.items, order) == {i}) ==> HeldFor(after.assignments, after.items, order) == {}
  {
    var k := before.orders[order].licenseKey.value;
    forall h | h in HeldFor(after.assignments, after.items, order)
      ensures h == k && ItemsOf(before.items, order) == {after.assignments[h]}
    {
      var i := after.assignments[h];
      assert Owed(before, h, i);
      var o :| o in PaidWithKey(before.orders) && before.orders[o].licenseKey == Some(h) && ItemsOf(before.items, o) == {i};
      assert i in ItemsOf(before.items, o);
    }
    if i :| ItemsOf(before.items, order) == {i} {
      assert Owed(before, k, i);
      assert i in ItemsOf(before.items, order);
      assert k in HeldFor(after.assignments, after.items, order);
    }
  }

  /**
   * After the second migration the email's completeness test of a paid direct order with a key
   * holds exactly when the key is sold and, if the order has a single item, that item is one unit.
   */
  lemma BackfilledIsFulfilledIff(before: Database, after: Database, order: OrderId)
    requires OneOrderPerKey(before.orders) && AssignmentsBackfilled(before, after) && LegacyRows(before)
    requires order in PaidWithKey(before.orders) && before.orders[order].licenseKey.value in before.keys
    ensures CompletelyFulfilled(after, order) <==>
              && before.keys[before.orders[order].licenseKey.value].status.Sold?
              && (forall i :: ItemsOf(before.items, order) == {i} ==> i in before.items && before.items[i].quantity == 1)
  {
    BackfilledHoldings(before, after, order);
    if i :| ItemsOf(before.items, order) == {i} {
      assert i in ItemsOf(before.items, order);
      SingleUnits(before.items, order, i, before.nextItem);
      forall j | ItemsOf(before.items, order) == {j}
        ensures j == i
      {
        assert j in {i};
      }
    }
  }

  /**
   * Both migrations together: every paid direct order without items whose product has a title,
   * whose total can be resolved and whose key is sold, is completely fulfilled afterwards.
   */
  lemma BackfillFulfils(before: Database, middle: Database, after: Database, legacy: Legacy, order: OrderId)
    requires LegacyRows(before) && OneOrderPerKey(before.orders)
    requires Normalised(before, middle, legacy, DirectOrders(before.orders)) && AssignmentsBackfilled(middle, after)
    requires order in PaidWithKey(before.orders) && ItemsOf(before.items, order) == {} && NeedsItem(before, legacy, order)
    requires before.orders[order].licenseKey.value in before.keys
    requires before.keys[before.orders[order].licenseKey.value].status.Sold?
    ensures CompletelyFulfilled(after, order)
    ensures MailedKeys(after, order) == {before.orders[order].licenseKey.value}
  {
    hide Resolved, NonBlank, ItemsNormalised, OrderUnits, NeedsItem;
    NewItemsOf(before, middle, legacy, order);
    var i :| ItemsOf(middle.items, order) == {i} && middle.items[i] == NewItem(before, legacy, order);
    assert i in ItemsOf(middle.items, order);
    KeysStayUnique(before, middle, legacy);
    BackfilledHoldings(middle, after, order);
    SingleUnits(middle.items, order, i, middle.nextItem);
  }

  lemma KeysStayUnique(before: Database, middle: Database, legacy: Legacy)
    requires LegacyRows(before) && Normalised(before, middle, legacy, DirectOrders(before.orders)) && OneOrderPerKey(before.orders)
    ensures OneOrderPerKey(middle.orders) && PaidWithKey(middle.orders) == PaidWithKey(before.orders) && LegacyRows(middle)
  {
    hide Resolved, NonBlank;
  }
}
