/** The figures of the order details dialog
    (src/components/admin/order-details-dialog.tsx). The dialog is declared
    over the older order shape, whose lines hold a whole fixture item; the
    model follows that declared input. */
module OrderDetails {
  import opened Fixture

  datatype OrderLine = OrderLine(menuItem: FixtureItem, quantity: int)

  datatype LegacyOrder = LegacyOrder(id: string, customerName: string, items: seq<OrderLine>, total: int)

  /** One row's total: price × quantity. */
  function RowTotal(line: OrderLine): int {
    line.menuItem.price * line.quantity
  }

  /** `order.items.reduce(...)`: Σ price × quantity, 0 for no items. */
  function Subtotal(items: seq<OrderLine>): (s: int)
    ensures items == [] ==> s == 0
    ensures (forall i :: 0 <= i < |items| ==> RowTotal(items[i]) >= 0) ==> s >= 0
  {
    if items == [] then 0
    else
      var rest := Subtotal(items[..|items| - 1]);
      rest + RowTotal(items[|items| - 1])
  }

  /** The subtotal adds up over any split of the rows. */
  lemma {:induction false} SubtotalConcat(a: seq<OrderLine>, b: seq<OrderLine>)
    ensures Subtotal(a + b) == Subtotal(a) + Subtotal(b)
  {
    if b == [] {
      assert a + b == a;
    } else {
      var init := b[..|b| - 1];
      assert (a + b)[..|a + b| - 1] == a + init;
      assert (a + b)[|a + b| - 1] == b[|b| - 1];
      SubtotalConcat(a, init);
    }
  }

  /** The total column, one entry per row, in row order. */
  function RowTotals(items: seq<OrderLine>): (r: seq<int>)
    ensures |r| == |items|
    ensures forall i :: 0 <= i < |items| ==> r[i] == RowTotal(items[i])
  {
    if items == [] then [] else RowTotals(items[..|items| - 1]) + [RowTotal(items[|items| - 1])]
  }

  function Sum(xs: seq<int>): int {
    if xs == [] then 0 else Sum(xs[..|xs| - 1]) + xs[|xs| - 1]
  }

  /** The row totals shown add up to the subtotal shown. */
  lemma {:induction false} RowTotalsSumToSubtotal(items: seq<OrderLine>)
    ensures Sum(RowTotals(items)) == Subtotal(items)
  {
    if items != [] {
      var init := items[..|items| - 1];
      RowTotalsSumToSubtotal(init);
      var r := RowTotals(items);
      assert r[..|r| - 1] == RowTotals(init);
    }
  }

  /** The three figures at the foot of the dialog. */
  datatype Figures = Figures(subtotal: int, convenienceFee: int, grandTotal: int)

  /** The fee is whatever the stored total does not explain: subtotal and
      fee always add up to the grand total shown, and with no items the fee
      is the whole total. */
  function DialogFigures(order: LegacyOrder): (f: Figures)
    ensures f.subtotal == Subtotal(order.items)
    ensures f.grandTotal == order.total
    ensures f.subtotal + f.convenienceFee == f.grandTotal
    ensures order.items == [] ==> f.convenienceFee == order.total
  {
    var subtotal := Subtotal(order.items);
    Figures(subtotal, order.total - subtotal, order.total)
  }
}
