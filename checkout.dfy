/** The cart page (src/app/cart/page.tsx): turning the cart into one order
    document and one order-item document per cart line, and the choice of
    payment method offered to the payment sheet. */
module Checkout {
  import opened Common
  import opened Catalog
  import opened Cart
  import opened Orders

  /** The order document written at checkout: status `Pending`, total and
      fee copied from the cart's totals. */
  function NewOrder(userId: string, orderDate: int, items: seq<CartItem>): (o: OrderData)
    ensures o.userId == userId && o.orderDate == orderDate && o.status == Pending
    ensures o.totalAmount == CartTotals(items).total
    ensures o.convenienceFee == CartTotals(items).convenienceFee
  {
    var t := CartTotals(items);
    OrderData(userId, orderDate, t.total, Pending, t.convenienceFee)
  }

  /** The order-item document written for one cart line: the price is the
      item's price at checkout time, copied into the document. */
  function OrderItemFor(orderId: string, c: CartItem): OrderItemData {
    OrderItemData(orderId, c.item.id, c.quantity, c.item.price)
  }

  /** The order-item documents for all cart lines, in cart order. */
  function OrderItemsFor(orderId: string, items: seq<CartItem>): (r: seq<OrderItemData>)
    ensures |r| == |items|
    ensures forall i :: 0 <= i < |items| ==> r[i] == OrderItemFor(orderId, items[i])
  {
    if items == [] then [] else [OrderItemFor(orderId, items[0])] + OrderItemsFor(orderId, items[1..])
  }

  /** Σ price × quantity over stored order items. */
  function ItemsSubtotal(items: seq<OrderItemData>): int {
    if items == [] then 0 else items[0].price * items[0].quantity + ItemsSubtotal(items[1..])
  }

  /** The stored order is consistent with its stored items: its total is the
      sum over the written items plus its convenience fee, and the fee is
      charged exactly when that sum is positive. */
  lemma {:induction false} OrderTotalMatchesItems(orderId: string, userId: string, orderDate: int, items: seq<CartItem>)
    ensures var o := NewOrder(userId, orderDate, items);
      var written := OrderItemsFor(orderId, items);
      && o.totalAmount == ItemsSubtotal(written) + o.convenienceFee
      && (o.convenienceFee == ConvenienceFee <==> ItemsSubtotal(written) > 0)
      && (o.convenienceFee == 0 <==> ItemsSubtotal(written) <= 0)
  {
    SubtotalsAgree(orderId, items);
  }

  lemma {:induction false} SubtotalsAgree(orderId: string, items: seq<CartItem>)
    ensures ItemsSubtotal(OrderItemsFor(orderId, items)) == Subtotal(items)
  {
    if items != [] {
      SubtotalsAgree(orderId, items[1..]);
      assert OrderItemsFor(orderId, items)[1..] == OrderItemsFor(orderId, items[1..]);
    }
  }

  /** The loop of `addDoc` calls that writes one order item per cart line
      under the order just created, one document after another. */
  method WriteOrderItems(store: OrderStore, path: OrderPath, cartItems: seq<CartItem>)
    requires path !in store.orderItems
    modifies store
    ensures store.orders == old(store.orders)
    ensures cartItems != [] ==> store.orderItems == old(store.orderItems)[path := OrderItemsFor(path.orderId, cartItems)]
    ensures cartItems == [] ==> store.orderItems == old(store.orderItems)
  {
    var i := 0;
    while i < |cartItems|
      invariant 0 <= i <= |cartItems|
      invariant store.orders == old(store.orders)
      invariant i > 0 ==> store.orderItems == old(store.orderItems)[path := OrderItemsFor(path.orderId, cartItems[..i])]
      invariant i == 0 ==> store.orderItems == old(store.orderItems)
    {
      assert OrderItemsFor(path.orderId, cartItems[..i + 1])
          == OrderItemsFor(path.orderId, cartItems[..i]) + [OrderItemFor(path.orderId, cartItems[i])];
      store.AddOrderItem(path, OrderItemFor(path.orderId, cartItems[i]));
      i := i + 1;
    }
    assert cartItems[..i] == cartItems;
  }

  datatype CheckoutOutcome =
    | Skipped        // no user, no store or an empty cart: nothing happens
    | OrderFailed    // the order reference came back missing: the error is caught
    | Placed(orderId: string)

  /** The cart page's own state. */
  class CartPage {
    var isProcessing: bool
    var navigatedTo: Option<string>

    constructor ()
      ensures !isProcessing && navigatedTo == None
    {
      isProcessing, navigatedTo := false, None;
    }

    /** `handleProceedToPayment`. `newOrderId` is the id the store assigns to
        the new order document, `None` when it returns no reference;
        `orderDate` stands for the current time. The cart and the menu are
        only read. */
    method HandleProceedToPayment(user: Option<string>, store: OrderStore?, cart: ShoppingCart,
                                  byId: map<string, MenuItem>, orderDate: int, newOrderId: Option<string>)
        returns (outcome: CheckoutOutcome)
      requires store != null && user.Some? && newOrderId.Some? ==>
                 OrderPath(user.value, newOrderId.value) !in store.orders
                 && OrderPath(user.value, newOrderId.value) !in store.orderItems
      modifies this, store
      ensures unchanged(cart)
      ensures outcome == Skipped <==> user.None? || store == null || CartItems(cart.lines, byId) == []
      ensures outcome == Skipped ==> isProcessing == old(isProcessing) && navigatedTo == old(navigatedTo)
      ensures outcome == OrderFailed <==> outcome != Skipped && newOrderId.None?
      ensures outcome == OrderFailed ==> !isProcessing && navigatedTo == old(navigatedTo)
      ensures !outcome.Placed? && store != null ==>
                store.orders == old(store.orders) && store.orderItems == old(store.orderItems)
      ensures outcome.Placed? ==>
                && newOrderId == Some(outcome.orderId) && user.Some? && store != null
                && var path := OrderPath(user.value, outcome.orderId);
                && store.orders == old(store.orders)[path := NewOrder(user.value, orderDate, CartItems(cart.lines, byId))]
                && store.orderItems == old(store.orderItems)[path := OrderItemsFor(outcome.orderId, CartItems(cart.lines, byId))]
                && isProcessing && navigatedTo == Some(outcome.orderId)
    {
      var cartItems := CartItems(cart.lines, byId);
      if user.None? || store == null || cartItems == [] {
        return Skipped;
      }
      isProcessing := true;
      if newOrderId.None? {
        // the thrown error is caught: the flag is reset, nothing else happens
        isProcessing := false;
        return OrderFailed;
      }
      var uid, oid := user.value, newOrderId.value;
      var path := OrderPath(uid, oid);
      store.AddOrder(path, NewOrder(uid, orderDate, cartItems));
      WriteOrderItems(store, path, cartItems);
      navigatedTo := Some(oid);
      outcome := Placed(oid);
    }
  }

  datatype PaymentMethod = Upi | Card

  /** `paymentRequest`: UPI on a mobile device, card payment otherwise. */
  function PaymentMethodFor(isMobile: bool): (m: PaymentMethod)
    ensures m == Upi <==> isMobile
    ensures m == Card <==> !isMobile
  {
    if isMobile then Upi else Card
  }
}
