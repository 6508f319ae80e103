/** The staff dashboard (src/app/admin/dashboard/page.tsx): today's revenue
    and order count, customer and menu counts, and the top-five sellers
    tallied from all order items. The start of the current day is given as
    a timestamp. */
module Dashboard {
  import opened Common
  import opened Catalog
  import opened Orders

  datatype Stats = Stats(revenue: int, orders: int, customers: int, menuItems: int)

  /** Orders placed on or after `startOfToday` (`orders.filter(...)`). */
  function OrdersSince(orders: seq<OrderWithId>, startOfToday: int): (r: seq<OrderWithId>)
    ensures |r| <= |orders|
    ensures forall o :: o in r <==> o in orders && o.data.orderDate >= startOfToday
    ensures forall o :: multiset(r)[o] == if o.data.orderDate >= startOfToday then multiset(orders)[o] else 0
  {
    if orders == [] then []
    else
      var rest := OrdersSince(orders[1..], startOfToday);
      assert orders == [orders[0]] + orders[1..];
      if orders[0].data.orderDate >= startOfToday then [orders[0]] + rest else rest
  }

  /** Orders placed before `startOfToday`: the complement of `OrdersSince`. */
  function OrdersBefore(orders: seq<OrderWithId>, startOfToday: int): (r: seq<OrderWithId>)
    ensures forall o :: multiset(r)[o] == if o.data.orderDate < startOfToday then multiset(orders)[o] else 0
  {
    if orders == [] then []
    else
      var rest := OrdersBefore(orders[1..], startOfToday);
      assert orders == [orders[0]] + orders[1..];
      if orders[0].data.orderDate < startOfToday then [orders[0]] + rest else rest
  }

  /** Σ totalAmount: nothing for no orders, the one total for one order
      (`RevenueConcat` shows it adds up over any split of the list). */
  function Revenue(orders: seq<OrderWithId>): (r: int)
    ensures orders == [] ==> r == 0
    ensures |orders| == 1 ==> r == orders[0].data.totalAmount
  {
    if orders == [] then 0 else orders[0].data.totalAmount + Revenue(orders[1..])
  }

  /** Revenue is additive over concatenation. */
  lemma {:induction false} RevenueConcat(a: seq<OrderWithId>, b: seq<OrderWithId>)
    ensures Revenue(a + b) == Revenue(a) + Revenue(b)
  {
    if a == [] {
      assert a + b == b;
    } else {
      assert (a + b)[1..] == a[1..] + b;
      RevenueConcat(a[1..], b);
    }
  }

  /** Today's revenue and today's orders, together with the earlier ones,
      account for every order exactly once. */
  lemma {:induction false} TodaySplitsOrders(orders: seq<OrderWithId>, startOfToday: int)
    ensures Revenue(OrdersSince(orders, startOfToday)) + Revenue(OrdersBefore(orders, startOfToday)) == Revenue(orders)
    ensures |OrdersSince(orders, startOfToday)| + |OrdersBefore(orders, startOfToday)| == |orders|
  {
    if orders != [] {
      TodaySplitsOrders(orders[1..], startOfToday);
    }
  }

  /** A later day boundary never counts more orders or more revenue, when
      every total is non-negative. */
  lemma {:induction false} LaterBoundaryCountsLess(orders: seq<OrderWithId>, t1: int, t2: int)
    requires t1 <= t2
    requires forall o :: o in orders ==> o.data.totalAmount >= 0
    ensures |OrdersSince(orders, t2)| <= |OrdersSince(orders, t1)|
    ensures Revenue(OrdersSince(orders, t2)) <= Revenue(OrdersSince(orders, t1))
  {
    if orders != [] {
      assert forall o :: o in orders[1..] ==> o in orders;
      LaterBoundaryCountsLess(orders[1..], t1, t2);
      assert orders[0] in orders;
      if orders[0].data.orderDate >= t1 && orders[0].data.orderDate < t2 {
        RevenueNonNegative(OrdersSince(orders[1..], t2));
      }
    }
  }

  lemma {:induction false} RevenueNonNegative(orders: seq<OrderWithId>)
    requires forall o :: o in orders ==> o.data.totalAmount >= 0
    ensures Revenue(orders) >= 0
  {
    if orders != [] {
      assert forall o :: o in orders[1..] ==> o in orders;
      RevenueNonNegative(orders[1..]);
      assert orders[0] in orders;
    }
  }

  /** `dashboardStats`. The live lists are `None` until loaded; the menu list
      comes from the menu context, which always supplies an array. */
  function DashboardStats(orders: Option<seq<OrderWithId>>, users: Option<seq<string>>,
                          menuItems: seq<MenuItem>, startOfToday: int): (s: Stats)
    ensures orders.None? || users.None? ==> s == Stats(0, 0, 0, 0)
    ensures orders.Some? && users.Some? ==>
              && s.revenue == Revenue(OrdersSince(orders.value, startOfToday))
              && s.orders == |OrdersSince(orders.value, startOfToday)|
              && s.customers == |users.value|
              && s.menuItems == |menuItems|
    ensures orders.Some? && users.Some? ==> 0 <= s.orders <= |orders.value|
  {
    if orders.None? || users.None? then Stats(0, 0, 0, 0)
    else
      var today := OrdersSince(orders.value, startOfToday);
      Stats(Revenue(today), |today|, |users.value|, |menuItems|)
  }

  // ---------------------------------------------------------------------
  // Top sellers

  /** An `itemSales` entry, with the menu item id it is keyed by. */
  datatype SalesEntry = SalesEntry(menuItemId: string, name: string, count: int)

  /** Σ quantity over the order items for one menu item. */
  function QuantityOf(orderItems: seq<OrderItemData>, id: string): int {
    if orderItems == [] then 0
    else
      var last := orderItems[|orderItems| - 1];
      QuantityOf(orderItems[..|orderItems| - 1], id) + (if last.menuItemId == id then last.quantity else 0)
  }

  /** The menu item ids the order items refer to. */
  function ReferencedIds(orderItems: seq<OrderItemData>): set<string> {
    set j | 0 <= j < |orderItems| :: orderItems[j].menuItemId
  }

  /** The referenced ids that the menu knows: the ones the tally counts. */
  function SoldIds(orderItems: seq<OrderItemData>, menu: seq<MenuItem>): set<string> {
    set id | id in ReferencedIds(orderItems) && Find(menu, ItemId, id).Some?
  }

  /** No two entries are for the same menu item. */
  predicate DistinctIds(s: seq<SalesEntry>) {
    forall i, j :: 0 <= i < j < |s| ==> s[i].menuItemId != s[j].menuItemId
  }

  /** The entry the tally keeps for one id. */
  ghost predicate TalliedEntry(e: SalesEntry, id: string, orderItems: seq<OrderItemData>, menu: seq<MenuItem>) {
    && e.menuItemId == id
    && Find(menu, ItemId, id).Some?
    && e.name == Find(menu, ItemId, id).value.name
    && e.count == QuantityOf(orderItems, id)
  }

  lemma QuantityOfStep(s: seq<OrderItemData>, i: nat)
    requires i < |s|
    ensures forall id :: QuantityOf(s[..i + 1], id) == QuantityOf(s[..i], id) + (if s[i].menuItemId == id then s[i].quantity else 0)
    ensures ReferencedIds(s[..i + 1]) == ReferencedIds(s[..i]) + {s[i].menuItemId}
  {
    assert s[..i + 1][..i] == s[..i];
    var a, b := ReferencedIds(s[..i + 1]), ReferencedIds(s[..i]) + {s[i].menuItemId};
    forall k | k in a ensures k in b {
      var j :| 0 <= j < i + 1 && s[..i + 1][j].menuItemId == k;
      if j < i { assert s[..i][j].menuItemId == k; }
    }
    forall k | k in b ensures k in a {
      if k == s[i].menuItemId { assert s[..i + 1][i].menuItemId == k; }
      else {
        var j :| 0 <= j < i && s[..i][j].menuItemId == k;
        assert s[..i + 1][j].menuItemId == k;
      }
    }
  }

  /** An id no order item refers to has sold nothing. */
  lemma {:induction false} QuantityOfUnreferenced(s: seq<OrderItemData>, id: string)
    requires id !in ReferencedIds(s)
    ensures QuantityOf(s, id) == 0
  {
    if s != [] {
      var n := |s| - 1;
      assert s[..n + 1] == s;
      QuantityOfStep(s, n);
      QuantityOfUnreferenced(s[..n], id);
    }
  }

  /** The `for` loop filling `itemSales`: one entry per referenced id found in
      the menu, counting the quantities; `keys` lists the ids in the order
      they were added. */
  method FillItemSales(orderItems: seq<OrderItemData>, menu: seq<MenuItem>)
      returns (itemSales: map<string, SalesEntry>, keys: seq<string>)
    ensures forall a, b :: 0 <= a < b < |keys| ==> keys[a] != keys[b]
    ensures |keys| == |SoldIds(orderItems, menu)|
    ensures forall k :: k in keys <==> k in itemSales
    ensures forall k :: k in itemSales ==> TalliedEntry(itemSales[k], k, orderItems, menu)
    ensures forall k :: k in itemSales ==> k in ReferencedIds(orderItems)
    ensures forall k :: k in ReferencedIds(orderItems) && Find(menu, ItemId, k).Some? ==> k in itemSales
  {
    itemSales, keys := map[], [];
    var i := 0;
    while i < |orderItems|
      invariant 0 <= i <= |orderItems|
      invariant forall a, b :: 0 <= a < b < |keys| ==> keys[a] != keys[b]
      invariant forall k :: k in keys <==> k in itemSales
      invariant forall k :: k in itemSales ==> TalliedEntry(itemSales[k], k, orderItems[..i], menu)
      invariant forall k :: k in itemSales ==> k in ReferencedIds(orderItems[..i])
      invariant forall k :: k in ReferencedIds(orderItems[..i]) && Find(menu, ItemId, k).Some? ==> k in itemSales
    {
      var item := orderItems[i];
      QuantityOfStep(orderItems, i);
      if item.menuItemId !in itemSales {
        var menuItem := Find(menu, ItemId, item.menuItemId);
        if menuItem.Some? {
          QuantityOfUnreferenced(orderItems[..i], item.menuItemId);
          itemSales := itemSales[item.menuItemId := SalesEntry(item.menuItemId, menuItem.value.name, 0)];
          keys := keys + [item.menuItemId];
        }
      }
      if item.menuItemId in itemSales {
        var e := itemSales[item.menuItemId];
        itemSales := itemSales[item.menuItemId := e.(count := e.count + item.quantity)];
      }
      i := i + 1;
    }
    assert orderItems[..i] == orderItems;
    assert itemSales.Keys == SoldIds(orderItems, menu);
    DistinctKeysCount(keys, itemSales.Keys);
  }

  /** A list of distinct keys is as long as the set it enumerates. */
  lemma {:induction false} DistinctKeysCount(keys: seq<string>, ids: set<string>)
    requires forall a, b :: 0 <= a < b < |keys| ==> keys[a] != keys[b]
    requires forall k :: k in keys <==> k in ids
    ensures |keys| == |ids|
  {
    if keys == [] {
      assert ids == {};
    } else {
      var rest := ids - {keys[0]};
      forall k ensures k in keys[1..] <==> k in rest {
        if k in keys[1..] {
          var j :| 0 <= j < |keys[1..]| && keys[1..][j] == k;
          assert keys[j + 1] == k;
        }
      }
      DistinctKeysCount(keys[1..], rest);
    }
  }

  /** `Object.values(itemSales)`: one entry per referenced id found in the
      menu, none twice. */
  method TallySales(orderItems: seq<OrderItemData>, menu: seq<MenuItem>) returns (entries: seq<SalesEntry>)
    ensures DistinctIds(entries)
    ensures |entries| == |SoldIds(orderItems, menu)|
    ensures forall e :: e in entries ==> TalliedEntry(e, e.menuItemId, orderItems, menu)
    ensures forall e :: e in entries ==> e.menuItemId in ReferencedIds(orderItems)
    ensures forall id :: id in ReferencedIds(orderItems) && Find(menu, ItemId, id).Some? ==>
              exists e :: e in entries && e.menuItemId == id
  {
    var itemSales, keys := FillItemSales(orderItems, menu);
    entries := EntriesOf(keys, itemSales);
    assert forall j :: 0 <= j < |entries| ==> entries[j].menuItemId == keys[j];
    forall e | e in entries
      ensures TalliedEntry(e, e.menuItemId, orderItems, menu) && e.menuItemId in ReferencedIds(orderItems)
    {
      var j :| 0 <= j < |entries| && entries[j] == e;
      assert e == itemSales[keys[j]];
    }
    forall id | id in ReferencedIds(orderItems) && Find(menu, ItemId, id).Some?
      ensures exists e :: e in entries && e.menuItemId == id
    {
      var j :| 0 <= j < |keys| && keys[j] == id;
      assert entries[j] in entries;
    }
  }

  /** `Object.values(itemSales)`, in key insertion order. */
  function EntriesOf(keys: seq<string>, m: map<string, SalesEntry>): (r: seq<SalesEntry>)
    requires forall k :: k in keys ==> k in m
    ensures |r| == |keys|
    ensures forall i :: 0 <= i < |keys| ==> r[i] == m[keys[i]]
  {
    if keys == [] then [] else [m[keys[0]]] + EntriesOf(keys[1..], m)
  }

  predicate SortedByCountDesc(s: seq<SalesEntry>) {
    forall i, j :: 0 <= i < j < |s| ==> s[i].count >= s[j].count
  }

  /** Places `e` before the first entry whose count is not larger. */
  function Insert(e: SalesEntry, sorted: seq<SalesEntry>): (r: seq<SalesEntry>)
    ensures multiset(r) == multiset(sorted) + multiset{e}
  {
    if sorted == [] then [e]
    else if e.count >= sorted[0].count then [e] + sorted
    else
      assert sorted == [sorted[0]] + sorted[1..];
      [sorted[0]] + Insert(e, sorted[1..])
  }

  lemma {:induction false} InsertSorted(e: SalesEntry, sorted: seq<SalesEntry>)
    requires SortedByCountDesc(sorted)
    ensures SortedByCountDesc(Insert(e, sorted))
  {
    if sorted != [] && e.count < sorted[0].count {
      var rest := Insert(e, sorted[1..]);
      InsertSorted(e, sorted[1..]);
      forall i | 0 <= i < |rest| ensures rest[i].count <= sorted[0].count {
        assert rest[i] in multiset(rest);
        if rest[i] != e {
          assert rest[i] in multiset(sorted[1..]);
          var j :| 0 <= j < |sorted[1..]| && sorted[1..][j] == rest[i];
          assert sorted[j + 1] == rest[i];
        }
      }
      assert Insert(e, sorted) == [sorted[0]] + rest;
    }
  }

  /** `.sort((a, b) => b.count - a.count)`: the result holds exactly the
      input entries (`SortedSales` shows their counts never increase). */
  function SortByCountDesc(s: seq<SalesEntry>): (r: seq<SalesEntry>)
    ensures multiset(r) == multiset(s)
  {
    if s == [] then []
    else
      assert s == [s[0]] + s[1..];
      Insert(s[0], SortByCountDesc(s[1..]))
  }

  lemma {:induction false} SortedSales(s: seq<SalesEntry>)
    ensures SortedByCountDesc(SortByCountDesc(s))
  {
    if s != [] {
      SortedSales(s[1..]);
      InsertSorted(s[0], SortByCountDesc(s[1..]));
    }
  }

  /** Inserting an entry for a new menu item keeps the ids distinct. */
  lemma {:induction false} InsertDistinct(e: SalesEntry, sorted: seq<SalesEntry>)
    requires DistinctIds(sorted)
    requires forall x :: x in sorted ==> x.menuItemId != e.menuItemId
    ensures DistinctIds(Insert(e, sorted))
  {
    if sorted != [] && e.count < sorted[0].count {
      var rest := Insert(e, sorted[1..]);
      forall x | x in sorted[1..] ensures x.menuItemId != e.menuItemId {
        assert x in sorted;
      }
      InsertDistinct(e, sorted[1..]);
      forall i | 0 <= i < |rest| ensures rest[i].menuItemId != sorted[0].menuItemId {
        assert rest[i] in multiset(rest);
        if rest[i] != e {
          assert rest[i] in multiset(sorted[1..]);
          var j :| 0 <= j < |sorted[1..]| && sorted[1..][j] == rest[i];
          assert sorted[j + 1] == rest[i];
        }
      }
      assert Insert(e, sorted) == [sorted[0]] + rest;
    }
  }

  /** Sorting keeps the entries' ids distinct and their number unchanged. */
  lemma {:induction false} SortDistinct(s: seq<SalesEntry>)
    requires DistinctIds(s)
    ensures DistinctIds(SortByCountDesc(s))
    ensures |SortByCountDesc(s)| == |s|
  {
    var r := SortByCountDesc(s);
    assert |multiset(r)| == |multiset(s)|;
    if s != [] {
      var tail := SortByCountDesc(s[1..]);
      SortDistinct(s[1..]);
      forall x | x in tail ensures x.menuItemId != s[0].menuItemId {
        assert x in multiset(s[1..]);
        var j :| 0 <= j < |s[1..]| && s[1..][j] == x;
        assert s[j + 1] == x;
      }
      InsertDistinct(s[0], tail);
    }
  }

  /** `.slice(0, 5)`. */
  function Take5(s: seq<SalesEntry>): (r: seq<SalesEntry>)
    ensures |r| == if |s| <= 5 then |s| else 5
    ensures r == s[..|r|]
  {
    if |s| <= 5 then s else s[..5]
  }

  /** The first five after sorting: taken from the entries, counts never
      increasing, and no entry left out outsells one that is kept. */
  lemma {:induction false} TopFiveKeepsBest(entries: seq<SalesEntry>)
    ensures var top := Take5(SortByCountDesc(entries));
      && SortedByCountDesc(top)
      && (forall y :: y in top ==> y in entries)
      && forall x, y :: x in entries && x !in top && y in top ==> x.count <= y.count
  {
    var sorted := SortByCountDesc(entries);
    var top := Take5(sorted);
    SortedSales(entries);
    forall y | y in top ensures y in entries {
      assert y in multiset(sorted);
    }
    forall x, y | x in entries && x !in top && y in top ensures x.count <= y.count {
      assert x in multiset(sorted);
      var k :| 0 <= k < |sorted| && sorted[k] == x;
      var l :| 0 <= l < |top| && top[l] == y;
    }
  }

  function Min(a: int, b: int): int { if a <= b then a else b }

  /** `topSellingItems`: empty until the order items are loaded (the menu list
      is always present); otherwise the first five tallied entries (all of them
      when fewer have sold), one per menu item, counts never increasing, and
      no referenced menu item left out outsells one that is kept. */
  method TopSellingItems(orderItems: Option<seq<OrderItemData>>, menu: seq<MenuItem>) returns (top: seq<SalesEntry>)
    ensures orderItems.None? ==> top == []
    ensures orderItems.Some? ==> |top| == Min(5, |SoldIds(orderItems.value, menu)|)
    ensures SortedByCountDesc(top)
    ensures DistinctIds(top)
    ensures orderItems.Some? ==> forall e :: e in top ==> TalliedEntry(e, e.menuItemId, orderItems.value, menu)
    ensures orderItems.Some? ==>
              forall id :: (id in ReferencedIds(orderItems.value) && Find(menu, ItemId, id).Some?
                            && (forall e :: e in top ==> e.menuItemId != id)) ==>
                forall e :: e in top ==> QuantityOf(orderItems.value, id) <= e.count
  {
    if orderItems.None? {
      return [];
    }
    var entries := TallySales(orderItems.value, menu);
    TopFiveKeepsBest(entries);
    SortDistinct(entries);
    top := Take5(SortByCountDesc(entries));
    forall id | id in ReferencedIds(orderItems.value) && Find(menu, ItemId, id).Some?
                && (forall e :: e in top ==> e.menuItemId != id)
      ensures forall e :: e in top ==> QuantityOf(orderItems.value, id) <= e.count
    {
      var x :| x in entries && x.menuItemId == id;
    }
  }
}
