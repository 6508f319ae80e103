/** Orders as the store holds them and the staff orders page
    (src/app/admin/orders/page.tsx): the status enumeration, the badge each
    status shows, the id -> order lookup built from the live order list, the
    scan-and-serve decision and the status write. */
module Orders {
  import opened Common

  datatype Status = Pending | Preparing | Ready | Completed

  /** An `orders` document (`OrderData`); `orderDate` is a timestamp. */
  datatype OrderData = OrderData(
    userId: string,
    orderDate: int,
    totalAmount: int,
    status: Status,
    convenienceFee: int)

  /** `OrderWithId`: a document of the live `orders` collection-group query. */
  datatype OrderWithId = OrderWithId(id: string, data: OrderData)

  /** An `order_items` document. */
  datatype OrderItemData = OrderItemData(orderId: string, menuItemId: string, quantity: int, price: int)

  /** The document path `users/{userId}/orders/{orderId}`. */
  datatype OrderPath = OrderPath(userId: string, orderId: string)

  function OrderId(o: OrderWithId): string { o.id }

  // ---------------------------------------------------------------------
  // The status write

  /** `updateDoc(orderRef, { status })`: only the status of the addressed
      order changes; a missing document is not created. */
  function WithStatus(orders: map<OrderPath, OrderData>, path: OrderPath, status: Status): (r: map<OrderPath, OrderData>)
    ensures r.Keys == orders.Keys
    ensures path in orders ==> r[path] == orders[path].(status := status)
    ensures forall p :: p in orders && p != path ==> r[p] == orders[p]
  {
    if path in orders then orders[path := orders[path].(status := status)] else orders
  }

  /** Writing the same status twice is the same as writing it once. */
  lemma WithStatusIdempotent(orders: map<OrderPath, OrderData>, path: OrderPath, status: Status)
    ensures WithStatus(WithStatus(orders, path, status), path, status) == WithStatus(orders, path, status)
  {
  }

  /** Position of a status in the intended progression
      Pending < Preparing < Ready < Completed. */
  function Rank(s: Status): nat {
    match s
    case Pending => 0
    case Preparing => 1
    case Ready => 2
    case Completed => 3
  }

  /** NOT ENFORCED BY THE CODE: the forward-only rule a hardened store would
      apply. It is stated only so that the lemma below can show that the
      status write does not follow it. */
  predicate ForwardOnly(from: Status, to: Status) {
    Rank(from) < Rank(to)
  }

  /** The status write performs no transition check: every one of the four
      statuses, backwards ones included, is written as given. */
  lemma StatusWriteIsUnchecked(orders: map<OrderPath, OrderData>, path: OrderPath, status: Status)
    requires path in orders
    ensures WithStatus(orders, path, status)[path].status == status
    ensures orders[path].status == Completed && status == Pending ==>
              !ForwardOnly(orders[path].status, status) && WithStatus(orders, path, status)[path].status == Pending
  {
  }

  /** The `orders` and `order_items` collections of the persistent store. */
  class OrderStore {
    var orders: map<OrderPath, OrderData>
    var orderItems: map<OrderPath, seq<OrderItemData>>

    constructor ()
      ensures orders == map[] && orderItems == map[]
    {
      orders, orderItems := map[], map[];
    }

    /** `addDoc` on `users/{userId}/orders`: the store picks a fresh id. */
    method AddOrder(path: OrderPath, data: OrderData)
      requires path !in orders
      modifies this
      ensures orders == old(orders)[path := data]
      ensures orderItems == old(orderItems)
    {
      orders := orders[path := data];
    }

    /** `addDoc` on `users/{userId}/orders/{orderId}/order_items`. */
    method AddOrderItem(path: OrderPath, item: OrderItemData)
      modifies this
      ensures orders == old(orders)
      ensures orderItems == old(orderItems)[path := ItemsAt(old(orderItems), path) + [item]]
    {
      orderItems := orderItems[path := ItemsAt(orderItems, path) + [item]];
    }

    /** `updateDoc(orderRef, { status })`. */
    method UpdateStatus(path: OrderPath, status: Status)
      modifies this
      ensures orders == WithStatus(old(orders), path, status)
      ensures orderItems == old(orderItems)
    {
      orders := WithStatus(orders, path, status);
    }
  }

  /** The items stored under one order (none yet if the subcollection is empty). */
  function ItemsAt(items: map<OrderPath, seq<OrderItemData>>, path: OrderPath): seq<OrderItemData> {
    if path in items then items[path] else []
  }

  /** `handleUpdateStatus`: without a store nothing happens; otherwise only
      the `status` field of `users/{userId}/orders/{orderId}` is rewritten,
      with any of the four statuses. */
  method HandleUpdateStatus(store: OrderStore?, orderId: string, userId: string, status: Status)
    modifies store
    ensures store != null ==> store.orders == WithStatus(old(store.orders), OrderPath(userId, orderId), status)
    ensures store != null ==> store.orderItems == old(store.orderItems)
  {
    if store == null { return; }
    store.UpdateStatus(OrderPath(userId, orderId), status);
  }

  // ---------------------------------------------------------------------
  // Badge

  datatype BadgeVariant = Default | Secondary | Destructive | Outline

  /** `getBadgeVariant`: an order waiting to be started is flagged as
      destructive, a completed one gets the plain badge. */
  function BadgeFor(s: Status): (b: BadgeVariant)
    ensures b == Destructive <==> s == Pending
    ensures b == Secondary <==> s == Preparing
    ensures b == Outline <==> s == Ready
    ensures b == Default <==> s == Completed
  {
    match s
    case Pending => Destructive
    case Preparing => Secondary
    case Ready => Outline
    case Completed => Default
  }

  // ---------------------------------------------------------------------
  // Scan and serve

  /** `ordersMap`: empty until the orders are loaded; otherwise keyed by order
      id, a later order with the same id replacing an earlier one. */
  function OrdersMap(snapshot: Option<seq<OrderWithId>>): (m: map<string, OrderWithId>)
    ensures snapshot.None? ==> m == map[]
    ensures snapshot.Some? ==> forall i :: 0 <= i < |snapshot.value| ==> snapshot.value[i].id in m
    ensures forall id :: id in m ==> m[id].id == id && snapshot.Some? && m[id] in snapshot.value
  {
    if snapshot.None? then map[] else IndexBy(snapshot.value, OrderId)
  }

  datatype ScanOutcome = NotFound | AlreadyServed | OpenDetails(order: OrderWithId)

  /** The decision `handleScanResult` makes for a decoded QR string. */
  function ScanDecision(ordersMap: map<string, OrderWithId>, result: string): (d: ScanOutcome)
    ensures d == NotFound <==> result !in ordersMap
    ensures d == AlreadyServed <==> result in ordersMap && ordersMap[result].data.status == Completed
    ensures d.OpenDetails? <==> result in ordersMap && ordersMap[result].data.status != Completed
    ensures d.OpenDetails? ==> d.order == ordersMap[result]
  {
    if result !in ordersMap then NotFound
    else if ordersMap[result].data.status == Completed then AlreadyServed
    else OpenDetails(ordersMap[result])
  }

  /** Scanning against the live order list (document ids are distinct): an id
      no loaded order carries is not found, a completed order is reported as
      served, and any other order opens with exactly that order selected. */
  lemma ScanAgainstOrderList(snapshot: Option<seq<OrderWithId>>, result: string)
    requires snapshot.Some? ==> DistinctKeys(snapshot.value, OrderId)
    ensures snapshot.None? ==> ScanDecision(OrdersMap(snapshot), result) == NotFound
    ensures snapshot.Some? && (forall i :: 0 <= i < |snapshot.value| ==> snapshot.value[i].id != result) ==>
              ScanDecision(OrdersMap(snapshot), result) == NotFound
    ensures snapshot.Some? ==> forall k :: 0 <= k < |snapshot.value| && snapshot.value[k].id == result ==>
              ScanDecision(OrdersMap(snapshot), result) ==
                if snapshot.value[k].data.status == Completed then AlreadyServed else OpenDetails(snapshot.value[k])
  {
    if snapshot.Some? {
      var orders := snapshot.value;
      if forall i :: 0 <= i < |orders| ==> OrderId(orders[i]) != result {
        IndexByAbsent(orders, OrderId, result);
      }
      forall k | 0 <= k < |orders| && orders[k].id == result
        ensures OrdersMap(snapshot)[result] == orders[k]
      {
        IndexByKeepsLast(orders, OrderId, k);
      }
    }
  }

  /** One entry of the live order list after a status write to
      `users/{userId}/orders/{orderId}`: only that order's status changes. */
  function Restatus(o: OrderWithId, orderId: string, userId: string, status: Status): (r: OrderWithId)
    ensures r.id == o.id && r.data.userId == o.data.userId
    ensures o.id == orderId && o.data.userId == userId ==> r.data == o.data.(status := status)
    ensures !(o.id == orderId && o.data.userId == userId) ==> r == o
  {
    if o.id == orderId && o.data.userId == userId then o.(data := o.data.(status := status)) else o
  }

  /** The live order list after a status write to `users/{userId}/orders/{orderId}`. */
  function SnapshotWithStatus(orders: seq<OrderWithId>, orderId: string, userId: string, status: Status): (r: seq<OrderWithId>)
    ensures |r| == |orders|
    ensures forall i :: 0 <= i < |orders| ==> r[i] == Restatus(orders[i], orderId, userId, status)
  {
    if orders == [] then []
    else [Restatus(orders[0], orderId, userId, status)] + SnapshotWithStatus(orders[1..], orderId, userId, status)
  }

  /** The document path a listed order was read from. */
  function PathOf(o: OrderWithId): OrderPath { OrderPath(o.data.userId, o.id) }

  /** A live list shows the store: each listed order is the document at its path. */
  ghost predicate Reflects(docs: map<OrderPath, OrderData>, listed: seq<OrderWithId>) {
    forall i :: 0 <= i < |listed| ==> PathOf(listed[i]) in docs && docs[PathOf(listed[i])] == listed[i].data
  }

  /** `SnapshotWithStatus` is the list the store shows after the status write:
      a list that showed the store before the write shows it after. */
  lemma SnapshotReflectsWrite(docs: map<OrderPath, OrderData>, listed: seq<OrderWithId>,
                              orderId: string, userId: string, status: Status)
    requires Reflects(docs, listed)
    ensures Reflects(WithStatus(docs, OrderPath(userId, orderId), status),
                     SnapshotWithStatus(listed, orderId, userId, status))
  {
    var after := SnapshotWithStatus(listed, orderId, userId, status);
    var written := WithStatus(docs, OrderPath(userId, orderId), status);
    forall i | 0 <= i < |after|
      ensures PathOf(after[i]) in written && written[PathOf(after[i])] == after[i].data
    {
      assert after[i] == Restatus(listed[i], orderId, userId, status);
      assert PathOf(after[i]) == PathOf(listed[i]);
    }
  }

  /** Serving is idempotent: once the order's status write of `Completed` is
      visible in the live list, scanning the same code again reports
      "already served" and opens nothing. */
  lemma ScanAfterCompletionIsAlreadyServed(orders: seq<OrderWithId>, k: nat)
    requires DistinctKeys(orders, OrderId)
    requires k < |orders|
    ensures var o := orders[k];
      ScanDecision(OrdersMap(Some(SnapshotWithStatus(orders, o.id, o.data.userId, Completed))), o.id) == AlreadyServed
  {
    var o := orders[k];
    var after := SnapshotWithStatus(orders, o.id, o.data.userId, Completed);
    assert after[k] == Restatus(o, o.id, o.data.userId, Completed);
    forall j | k < j < |after|
      ensures OrderId(after[j]) != OrderId(after[k])
    {
      assert after[j] == Restatus(orders[j], o.id, o.data.userId, Completed);
      assert OrderId(orders[j]) != OrderId(orders[k]);
    }
    IndexByKeepsLast(after, OrderId, k);
  }

  /** What a toast says: its title. */
  datatype Toast = OrderNotFound(scanned: string) | OrderAlreadyServed(scanned: string)

  /** The dialog state of the admin orders page. */
  class AdminOrdersPage {
    var selectedOrder: Option<OrderWithId>
    var isDetailsDialogOpen: bool
    var isScannerOpen: bool
    var toasts: seq<Toast>

    constructor ()
      ensures selectedOrder == None && !isDetailsDialogOpen && !isScannerOpen && toasts == []
    {
      selectedOrder, isDetailsDialogOpen, isScannerOpen, toasts := None, false, false, [];
    }

    /** `handleViewDetails`: a row's "View Details" action. */
    method HandleViewDetails(order: OrderWithId)
      modifies this
      ensures selectedOrder == Some(order) && isDetailsDialogOpen
      ensures isScannerOpen == old(isScannerOpen) && toasts == old(toasts)
    {
      selectedOrder := Some(order);
      isDetailsDialogOpen := true;
    }

    /** `handleScanResult`: the scanner is always closed; an unknown id or a
        completed order only raises a toast; any other order is selected and
        its details dialog opened. No order is written. */
    method HandleScanResult(ordersMap: map<string, OrderWithId>, result: string)
      modifies this
      ensures !isScannerOpen
      ensures ScanDecision(ordersMap, result) == NotFound ==>
                toasts == old(toasts) + [OrderNotFound(result)]
                && selectedOrder == old(selectedOrder) && isDetailsDialogOpen == old(isDetailsDialogOpen)
      ensures ScanDecision(ordersMap, result) == AlreadyServed ==>
                toasts == old(toasts) + [OrderAlreadyServed(result)]
                && selectedOrder == old(selectedOrder) && isDetailsDialogOpen == old(isDetailsDialogOpen)
      ensures ScanDecision(ordersMap, result).OpenDetails? ==>
                toasts == old(toasts) && selectedOrder == Some(ordersMap[result])
                && selectedOrder.value.data.status != Completed && isDetailsDialogOpen
    {
      isScannerOpen := false;
      match ScanDecision(ordersMap, result)
      case NotFound =>
        toasts := toasts + [OrderNotFound(result)];
      case AlreadyServed =>
        toasts := toasts + [OrderAlreadyServed(result)];
      case OpenDetails(order) =>
        selectedOrder := Some(order);
        isDetailsDialogOpen := true;
    }

    /** The row actions "Mark as Preparing / Ready / Completed". */
    method MarkRow(store: OrderStore?, order: OrderWithId, status: Status)
      requires status != Pending
      modifies store
      ensures store != null ==>
                store.orders == WithStatus(old(store.orders), OrderPath(order.data.userId, order.id), status)
      ensures store != null ==> store.orderItems == old(store.orderItems)
    {
      HandleUpdateStatus(store, order.id, order.data.userId, status);
    }

    /** The `onMarkCompleted` callback handed to the details dialog, which
        exists only while an order is selected. */
    method MarkSelectedCompleted(store: OrderStore?)
      requires selectedOrder.Some?
      modifies store
      ensures store != null ==>
                store.orders == WithStatus(old(store.orders),
                                           OrderPath(selectedOrder.value.data.userId, selectedOrder.value.id), Completed)
      ensures store != null ==> store.orderItems == old(store.orderItems)
    {
      HandleUpdateStatus(store, selectedOrder.value.id, selectedOrder.value.data.userId, Completed);
    }
  }
}
