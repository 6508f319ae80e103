/** The food-court "Scan & Serve" page (src/app/superadmin/orders/page.tsx):
    the same scan decision as the staff orders page, reached from a single
    scan button, and the mark-completed action of its details dialog. */
module SuperAdminOrders {
  import opened Common
  import opened Orders

  class ScanAndServePage {
    var selectedOrder: Option<OrderWithId>
    var isDetailsDialogOpen: bool
    var isScannerOpen: bool
    var toasts: seq<Toast>

    constructor ()
      ensures selectedOrder == None && !isDetailsDialogOpen && !isScannerOpen && toasts == []
    {
      selectedOrder, isDetailsDialogOpen, isScannerOpen, toasts := None, false, false, [];
    }

    /** The "Scan Order QR" button. */
    method OpenScanner()
      modifies this
      ensures isScannerOpen
      ensures selectedOrder == old(selectedOrder) && isDetailsDialogOpen == old(isDetailsDialogOpen)
      ensures toasts == old(toasts)
    {
      isScannerOpen := true;
    }

    /** `handleScanResult`: one of three outcomes. The scanner is closed
        first; a completed order never opens the details dialog. */
    method HandleScanResult(ordersMap: map<string, OrderWithId>, result: string) returns (outcome: ScanOutcome)
      modifies this
      ensures outcome == ScanDecision(ordersMap, result)
      ensures !isScannerOpen
      ensures outcome == NotFound ==> toasts == old(toasts) + [OrderNotFound(result)]
      ensures outcome == AlreadyServed ==> toasts == old(toasts) + [OrderAlreadyServed(result)]
      ensures !outcome.OpenDetails? ==>
                selectedOrder == old(selectedOrder) && isDetailsDialogOpen == old(isDetailsDialogOpen)
      ensures outcome.OpenDetails? ==>
                toasts == old(toasts) && selectedOrder == Some(outcome.order) && isDetailsDialogOpen
                && outcome.order.data.status != Completed
    {
      isScannerOpen := false;
      outcome := ScanDecision(ordersMap, result);
      match outcome
      case NotFound =>
        toasts := toasts + [OrderNotFound(result)];
      case AlreadyServed =>
        toasts := toasts + [OrderAlreadyServed(result)];
      case OpenDetails(order) =>
        selectedOrder := Some(order);
        isDetailsDialogOpen := true;
    }

    /** The document path of the selected order. */
    function SelectedPath(): OrderPath
      reads this
      requires selectedOrder.Some?
    {
      OrderPath(selectedOrder.value.data.userId, selectedOrder.value.id)
    }

    /** The dialog's `onMarkCompleted`: writes `Completed` into the selected
        order and touches no other field and no other order. */
    method MarkCompleted(store: OrderStore?)
      requires selectedOrder.Some?
      modifies store
      ensures store != null ==> store.orders.Keys == old(store.orders.Keys)
      ensures store != null && SelectedPath() in old(store.orders) ==>
                store.orders[SelectedPath()] == old(store.orders[SelectedPath()]).(status := Completed)
      ensures store != null ==> forall p :: p in old(store.orders) && p != SelectedPath() ==>
                store.orders[p] == old(store.orders[p])
      ensures store != null ==> store.orders == WithStatus(old(store.orders), SelectedPath(), Completed)
      ensures store != null ==> store.orderItems == old(store.orderItems)
    {
      HandleUpdateStatus(store, selectedOrder.value.id, selectedOrder.value.data.userId, Completed);
    }
  }

  /** The scan-and-serve flow end to end: scanning an open order of a live
      list that shows the store selects it; marking it completed writes the
      store, whose next live list is `after`; scanning the same code against
      `after` is refused as already served. */
  method ServeTwice(page: ScanAndServePage, store: OrderStore, orders: seq<OrderWithId>, k: nat)
      returns (first: ScanOutcome, after: seq<OrderWithId>, second: ScanOutcome)
    requires DistinctKeys(orders, OrderId)
    requires Reflects(store.orders, orders)
    requires k < |orders| && orders[k].data.status != Completed
    modifies page, store
    ensures first == OpenDetails(orders[k])
    ensures Reflects(store.orders, after) && |after| == |orders|
    ensures after[k].data == orders[k].data.(status := Completed)
    ensures second == AlreadyServed
  {
    ScanAgainstOrderList(Some(orders), orders[k].id);
    first := page.HandleScanResult(OrdersMap(Some(orders)), orders[k].id);
    page.MarkCompleted(store);
    after := SnapshotWithStatus(orders, orders[k].id, orders[k].data.userId, Completed);
    SnapshotReflectsWrite(old(store.orders), orders, orders[k].id, orders[k].data.userId, Completed);
    ScanAfterCompletionIsAlreadyServed(orders, k);
    second := page.HandleScanResult(OrdersMap(Some(after)), orders[k].id);
  }
}
