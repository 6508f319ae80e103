/** The shopping cart of one customer session (src/context/CartContext.tsx):
    a list of (menu item id, quantity) lines checked against the live
    catalog, the derived view that merges each line with its menu item, and
    the subtotal / convenience fee / total arithmetic. */
module Cart {
  import opened Common
  import opened Catalog

  /** `CartItemBase`: what the cart itself stores. */
  datatype CartLine = CartLine(id: string, quantity: int)

  /** `CartItem`: a line merged with the live menu item it refers to. */
  datatype CartItem = CartItem(item: MenuItem, quantity: int)

  /** What a mutation reports: `StockLimitReached` is the destructive toast;
      the other refusals return silently. */
  datatype CartOutcome = Changed | NotInCatalog | NotInCart | StockLimitReached

  /** A mutation's new lines together with its outcome. */
  datatype Step = Step(lines: seq<CartLine>, outcome: CartOutcome)

  /** The convenience fee, 1.00 in minor units. */
  const ConvenienceFee: int := 100

  function LineId(l: CartLine): string { l.id }

  // ---------------------------------------------------------------------
  // The cart invariant

  predicate UniqueIds(lines: seq<CartLine>) {
    forall i, j :: 0 <= i < j < |lines| ==> lines[i].id != lines[j].id
  }

  predicate PositiveQuantities(lines: seq<CartLine>) {
    forall i :: 0 <= i < |lines| ==> lines[i].quantity >= 1
  }

  /** No line asks for more than the stock of its (still existing) item. */
  predicate WithinStock(lines: seq<CartLine>, byId: map<string, MenuItem>) {
    forall i :: 0 <= i < |lines| && lines[i].id in byId ==> lines[i].quantity <= byId[lines[i].id].stock
  }

  predicate Valid(lines: seq<CartLine>, byId: map<string, MenuItem>) {
    UniqueIds(lines) && PositiveQuantities(lines) && WithinStock(lines, byId)
  }

  /** The quantity a line with this id holds: `existingItem?.quantity || 0`. */
  function CurrentQuantity(lines: seq<CartLine>, id: string): (q: int)
    ensures Find(lines, LineId, id).None? ==> q == 0
    ensures Find(lines, LineId, id).Some? ==> q == Find(lines, LineId, id).value.quantity
  {
    match Find(lines, LineId, id)
    case None => 0
    case Some(l) => l.quantity
  }

  /** The lines with `id` get quantity `q`; the others are kept (`prevItems.map(...)`). */
  function SetQuantity(lines: seq<CartLine>, id: string, q: int): (r: seq<CartLine>)
    ensures |r| == |lines|
    ensures forall i :: 0 <= i < |lines| ==>
              r[i] == if lines[i].id == id then CartLine(id, q) else lines[i]
  {
    if lines == [] then []
    else [if lines[0].id == id then CartLine(id, q) else lines[0]] + SetQuantity(lines[1..], id, q)
  }

  /** Every line with `id` gains one unit; the others are kept
      (`addToCart`'s `prevItems.map(...)`). */
  function IncrementLines(lines: seq<CartLine>, id: string): (r: seq<CartLine>)
    ensures |r| == |lines|
    ensures forall i :: 0 <= i < |lines| ==>
              r[i] == if lines[i].id == id then CartLine(id, lines[i].quantity + 1) else lines[i]
  {
    if lines == [] then []
    else [if lines[0].id == id then CartLine(id, lines[0].quantity + 1) else lines[0]] + IncrementLines(lines[1..], id)
  }

  /** With distinct ids, raising each matching line by one is setting the
      one matching line to its current quantity plus one. */
  lemma IncrementIsSetQuantity(lines: seq<CartLine>, id: string)
    requires UniqueIds(lines)
    ensures IncrementLines(lines, id) == SetQuantity(lines, id, CurrentQuantity(lines, id) + 1)
  {
    var a, b := IncrementLines(lines, id), SetQuantity(lines, id, CurrentQuantity(lines, id) + 1);
    forall i | 0 <= i < |lines| && lines[i].id == id
      ensures a[i] == b[i]
    {
      var k := FindIndex(lines, LineId, id).value;
      assert k == i;
    }
  }

  /** The lines with `id` are dropped, the others kept in order (`prevItems.filter(...)`). */
  function RemoveLines(lines: seq<CartLine>, id: string): (r: seq<CartLine>)
    ensures |r| <= |lines|
    ensures forall l :: l in r <==> l in lines && l.id != id
  {
    if lines == [] then []
    else if lines[0].id == id then RemoveLines(lines[1..], id)
    else [lines[0]] + RemoveLines(lines[1..], id)
  }

  /** Removing keeps the order of the remaining lines. */
  lemma {:induction false} RemoveLinesConcat(a: seq<CartLine>, b: seq<CartLine>, id: string)
    ensures RemoveLines(a + b, id) == RemoveLines(a, id) + RemoveLines(b, id)
  {
    if a == [] {
      assert a + b == b;
    } else {
      assert (a + b)[0] == a[0];
      assert (a + b)[1..] == a[1..] + b;
      RemoveLinesConcat(a[1..], b, id);
    }
  }

  /** Removing preserves distinct ids, since it only drops lines. */
  lemma {:induction false} RemoveLinesUnique(lines: seq<CartLine>, id: string)
    requires UniqueIds(lines)
    ensures UniqueIds(RemoveLines(lines, id))
  {
    if lines != [] {
      var tail := lines[1..];
      RemoveLinesUnique(tail, id);
      forall l | l in tail
        ensures l.id != lines[0].id
      {
        var k :| 0 <= k < |tail| && tail[k] == l;
        assert lines[k + 1] == l;
      }
    }
  }

  // ---------------------------------------------------------------------
  // The four mutations

  /** `addToCart`. */
  function AddToCart(lines: seq<CartLine>, byId: map<string, MenuItem>, id: string): (s: Step)
    ensures id !in byId ==> s == Step(lines, NotInCatalog)
    ensures id in byId && CurrentQuantity(lines, id) >= byId[id].stock ==> s == Step(lines, StockLimitReached)
    ensures id in byId && CurrentQuantity(lines, id) < byId[id].stock ==> s.outcome == Changed
    ensures s.outcome == Changed && Find(lines, LineId, id).Some? ==> s.lines == IncrementLines(lines, id)
    ensures s.outcome == Changed && Find(lines, LineId, id).None? ==>
              s.lines == lines + [CartLine(id, 1)]
  {
    if id !in byId then Step(lines, NotInCatalog)
    else
      var current := CurrentQuantity(lines, id);
      if current >= byId[id].stock then Step(lines, StockLimitReached)
      else if Find(lines, LineId, id).Some? then Step(IncrementLines(lines, id), Changed)
      else Step(lines + [CartLine(id, 1)], Changed)
  }

  /** `removeFromCart`. */
  function RemoveFromCart(lines: seq<CartLine>, id: string): (r: seq<CartLine>)
    ensures forall l :: l in r <==> l in lines && l.id != id
  {
    RemoveLines(lines, id)
  }

  /** `updateQuantity`: `change` is added to the line's quantity. */
  function UpdateQuantity(lines: seq<CartLine>, byId: map<string, MenuItem>, id: string, change: int): (s: Step)
    ensures id !in byId ==> s == Step(lines, NotInCatalog)
    ensures id in byId && Find(lines, LineId, id).None? ==> s == Step(lines, NotInCart)
    ensures s.outcome == StockLimitReached <==>
              id in byId && Find(lines, LineId, id).Some? && change > 0
              && CurrentQuantity(lines, id) + change > byId[id].stock
    ensures (id in byId && Find(lines, LineId, id).Some?
             && !(change > 0 && CurrentQuantity(lines, id) + change > byId[id].stock)) ==> s.outcome == Changed
    ensures s.outcome != Changed ==> s.lines == lines
    ensures s.outcome == Changed && CurrentQuantity(lines, id) + change > 0 ==>
              s.lines == SetQuantity(lines, id, CurrentQuantity(lines, id) + change)
    ensures s.outcome == Changed && CurrentQuantity(lines, id) + change <= 0 ==>
              s.lines == RemoveFromCart(lines, id)
  {
    if id !in byId then Step(lines, NotInCatalog)
    else
      match Find(lines, LineId, id)
      case None => Step(lines, NotInCart)
      case Some(existing) =>
        var newQuantity := existing.quantity + change;
        if change > 0 && newQuantity > byId[id].stock then Step(lines, StockLimitReached)
        else if newQuantity > 0 then Step(SetQuantity(lines, id, newQuantity), Changed)
        else Step(RemoveFromCart(lines, id), Changed)
  }

  // ---------------------------------------------------------------------
  // The invariant is preserved

  lemma SetQuantityKeepsIds(lines: seq<CartLine>, id: string, q: int)
    requires UniqueIds(lines)
    ensures UniqueIds(SetQuantity(lines, id, q))
  {
    var r := SetQuantity(lines, id, q);
    assert forall i :: 0 <= i < |lines| ==> r[i].id == lines[i].id;
  }

  /** Giving the lines of one item a quantity between 1 and its stock keeps
      the cart invariant. */
  lemma SetQuantityKeepsValid(lines: seq<CartLine>, byId: map<string, MenuItem>, id: string, q: int)
    requires Valid(lines, byId)
    requires 1 <= q && (id in byId ==> q <= byId[id].stock)
    ensures Valid(SetQuantity(lines, id, q), byId)
  {
    SetQuantityKeepsIds(lines, id, q);
  }

  /** Appending a line of 1 for an item not yet in the cart and in stock
      keeps the cart invariant. */
  lemma AppendKeepsValid(lines: seq<CartLine>, byId: map<string, MenuItem>, id: string)
    requires Valid(lines, byId)
    requires forall i :: 0 <= i < |lines| ==> lines[i].id != id
    requires id in byId ==> 1 <= byId[id].stock
    ensures Valid(lines + [CartLine(id, 1)], byId)
  {
    var r := lines + [CartLine(id, 1)];
    forall i, j | 0 <= i < j < |r|
      ensures r[i].id != r[j].id
    {
      if j == |lines| {
        assert r[i] == lines[i];
      }
    }
  }

  /** `addToCart` keeps the cart invariant as long as the catalog does not change. */
  lemma AddToCartKeepsValid(lines: seq<CartLine>, byId: map<string, MenuItem>, id: string)
    requires Valid(lines, byId)
    ensures Valid(AddToCart(lines, byId, id).lines, byId)
  {
    if id in byId && CurrentQuantity(lines, id) < byId[id].stock {
      if Find(lines, LineId, id).Some? {
        IncrementKeepsValid(lines, byId, id);
      } else {
        AppendKeepsValid(lines, byId, id);
      }
    }
  }

  /** Raising the line of a listed item that is still below its stock keeps
      the cart invariant. */
  lemma IncrementKeepsValid(lines: seq<CartLine>, byId: map<string, MenuItem>, id: string)
    requires Valid(lines, byId)
    requires id in byId && Find(lines, LineId, id).Some? && CurrentQuantity(lines, id) < byId[id].stock
    ensures Valid(IncrementLines(lines, id), byId)
  {
    CurrentLineWithinStock(lines, byId, id);
    IncrementIsSetQuantity(lines, id);
    SetQuantityKeepsValid(lines, byId, id, CurrentQuantity(lines, id) + 1);
  }

  /** `updateQuantity` keeps the cart invariant as long as the catalog does not
      change: increases past stock are refused, decreases need no check. */
  lemma UpdateQuantityKeepsValid(lines: seq<CartLine>, byId: map<string, MenuItem>, id: string, change: int)
    requires Valid(lines, byId)
    ensures Valid(UpdateQuantity(lines, byId, id, change).lines, byId)
  {
    if id in byId && Find(lines, LineId, id).Some?
       && !(change > 0 && CurrentQuantity(lines, id) + change > byId[id].stock) {
      if CurrentQuantity(lines, id) + change > 0 {
        ReducedOrRaisedLineKeepsValid(lines, byId, id, change);
      } else {
        RemovedLineKeepsValid(lines, byId, id, change);
      }
    }
  }

  /** An accepted change that leaves a positive quantity: it is within stock. */
  lemma ReducedOrRaisedLineKeepsValid(lines: seq<CartLine>, byId: map<string, MenuItem>, id: string, change: int)
    requires Valid(lines, byId)
    requires id in byId && Find(lines, LineId, id).Some?
    requires !(change > 0 && CurrentQuantity(lines, id) + change > byId[id].stock)
    requires CurrentQuantity(lines, id) + change > 0
    ensures Valid(UpdateQuantity(lines, byId, id, change).lines, byId)
  {
    CurrentLineWithinStock(lines, byId, id);
    SetQuantityKeepsValid(lines, byId, id, CurrentQuantity(lines, id) + change);
  }

  /** An accepted change down to 0 or below: the line goes. */
  lemma RemovedLineKeepsValid(lines: seq<CartLine>, byId: map<string, MenuItem>, id: string, change: int)
    requires Valid(lines, byId)
    requires id in byId && Find(lines, LineId, id).Some?
    requires CurrentQuantity(lines, id) + change <= 0
    ensures Valid(UpdateQuantity(lines, byId, id, change).lines, byId)
  {
    CurrentLineWithinStock(lines, byId, id);
    RemoveFromCartKeepsValid(lines, byId, id);
  }

  /** In a valid cart, the line found for a listed item holds between 1 and
      the item's stock. */
  lemma CurrentLineWithinStock(lines: seq<CartLine>, byId: map<string, MenuItem>, id: string)
    requires Valid(lines, byId)
    requires id in byId && Find(lines, LineId, id).Some?
    ensures 1 <= CurrentQuantity(lines, id) <= byId[id].stock
  {
    var k := FindIndex(lines, LineId, id).value;
    assert Find(lines, LineId, id).value == lines[k];
  }

  /** `removeFromCart` keeps the cart invariant. */
  lemma RemoveFromCartKeepsValid(lines: seq<CartLine>, byId: map<string, MenuItem>, id: string)
    requires Valid(lines, byId)
    ensures Valid(RemoveFromCart(lines, id), byId)
  {
    RemoveLinesUnique(lines, id);
    var r := RemoveLines(lines, id);
    forall i | 0 <= i < |r|
      ensures r[i].quantity >= 1 && (r[i].id in byId ==> r[i].quantity <= byId[r[i].id].stock)
    {
      assert r[i] in lines;
    }
  }

  /** Under the invariant, an `addToCart` that goes through adds exactly one
      unit to exactly one line (an existing one, or a new last line). */
  lemma AddToCartAddsOneUnit(lines: seq<CartLine>, byId: map<string, MenuItem>, id: string)
    requires Valid(lines, byId)
    requires AddToCart(lines, byId, id).outcome == Changed
    ensures var r := AddToCart(lines, byId, id).lines;
      || (|r| == |lines| && exists k :: (0 <= k < |lines| && lines[k].id == id
            && r[k] == CartLine(id, lines[k].quantity + 1)
            && forall i :: 0 <= i < |lines| && i != k ==> r[i] == lines[i]))
      || (r == lines + [CartLine(id, 1)] && forall i :: 0 <= i < |lines| ==> lines[i].id != id)
  {
    var found := FindIndex(lines, LineId, id);
    if found.Some? {
      var k := found.value;
      forall i | 0 <= i < |lines| && i != k
        ensures lines[i].id != id
      {
        assert lines[i].id != lines[k].id;
      }
    }
  }

  /** An item whose stock is zero (or less) can never enter the cart. */
  lemma NoStockNeverAdded(lines: seq<CartLine>, byId: map<string, MenuItem>, id: string)
    requires PositiveQuantities(lines)
    requires id in byId && byId[id].stock <= 0
    ensures AddToCart(lines, byId, id) == Step(lines, StockLimitReached)
    ensures forall l :: l in AddToCart(lines, byId, id).lines ==> l in lines
  {
    var found := FindIndex(lines, LineId, id);
    if found.Some? {
      assert lines[found.value].quantity >= 1;
    }
  }

  // ---------------------------------------------------------------------
  // Any sequence of customer actions

  datatype CartAction = Add(id: string) | Update(id: string, change: int) | Remove(id: string) | Clear

  function Apply(lines: seq<CartLine>, byId: map<string, MenuItem>, a: CartAction): seq<CartLine> {
    match a
    case Add(id) => AddToCart(lines, byId, id).lines
    case Update(id, change) => UpdateQuantity(lines, byId, id, change).lines
    case Remove(id) => RemoveFromCart(lines, id)
    case Clear => []
  }

  function ApplyAll(lines: seq<CartLine>, byId: map<string, MenuItem>, actions: seq<CartAction>): seq<CartLine>
    decreases |actions|
  {
    if actions == [] then lines else ApplyAll(Apply(lines, byId, actions[0]), byId, actions[1..])
  }

  /** Stock invariant: against a fixed catalog, no sequence of cart actions
      ever lets a line exceed its item's stock, fall below 1, or repeat an id. */
  lemma {:induction false} ActionsKeepValid(lines: seq<CartLine>, byId: map<string, MenuItem>, actions: seq<CartAction>)
    requires Valid(lines, byId)
    ensures Valid(ApplyAll(lines, byId, actions), byId)
    decreases |actions|
  {
    if actions != [] {
      var next := Apply(lines, byId, actions[0]);
      match actions[0] {
        case Add(id) => AddToCartKeepsValid(lines, byId, id);
        case Update(id, change) => UpdateQuantityKeepsValid(lines, byId, id, change);
        case Remove(id) => RemoveFromCartKeepsValid(lines, byId, id);
        case Clear => assert next == [];
      }
      ActionsKeepValid(next, byId, actions[1..]);
    }
  }

  // ---------------------------------------------------------------------
  // The derived view and the totals

  /** `cartItems`: each line merged with its live menu item; lines whose item
      was deleted are dropped; order and quantities are kept. */
  function CartItems(lines: seq<CartLine>, byId: map<string, MenuItem>): (r: seq<CartItem>)
    ensures |r| <= |lines|
    ensures byId == map[] ==> r == []
    ensures forall l :: l in lines && l.id in byId ==> CartItem(byId[l.id], l.quantity) in r
    ensures forall c :: c in r ==> exists l :: l in lines && l.id in byId && c == CartItem(byId[l.id], l.quantity)
    ensures (forall i :: 0 <= i < |lines| ==> lines[i].id in byId) ==>
              |r| == |lines| && forall i :: 0 <= i < |lines| ==> r[i] == CartItem(byId[lines[i].id], lines[i].quantity)
  {
    if lines == [] then []
    else
      var rest := CartItems(lines[1..], byId);
      CartItemsStep(lines, byId, rest);
      if lines[0].id in byId then [CartItem(byId[lines[0].id], lines[0].quantity)] + rest
      else rest
  }

  /** One step of `CartItems`: merging the first line in front of the
      merged rest keeps "every resolvable line appears, nothing else does". */
  lemma CartItemsStep(lines: seq<CartLine>, byId: map<string, MenuItem>, rest: seq<CartItem>)
    requires lines != []
    requires forall l :: l in lines[1..] && l.id in byId ==> CartItem(byId[l.id], l.quantity) in rest
    requires forall c :: c in rest ==> exists l :: l in lines[1..] && l.id in byId && c == CartItem(byId[l.id], l.quantity)
    ensures var r := if lines[0].id in byId then [CartItem(byId[lines[0].id], lines[0].quantity)] + rest else rest;
      && (forall l :: l in lines && l.id in byId ==> CartItem(byId[l.id], l.quantity) in r)
      && (forall c :: c in r ==> exists l :: l in lines && l.id in byId && c == CartItem(byId[l.id], l.quantity))
  {
    assert forall l :: l in lines[1..] ==> l in lines;
    assert forall l :: l in lines ==> l == lines[0] || l in lines[1..];
  }

  /** The derived view keeps the order of the lines. */
  lemma {:induction false} CartItemsConcat(a: seq<CartLine>, b: seq<CartLine>, byId: map<string, MenuItem>)
    ensures CartItems(a + b, byId) == CartItems(a, byId) + CartItems(b, byId)
  {
    if a == [] {
      assert a + b == b;
    } else {
      assert (a + b)[0] == a[0];
      assert (a + b)[1..] == a[1..] + b;
      CartItemsConcat(a[1..], b, byId);
    }
  }

  /** Σ price × quantity (`cartItems.reduce(...)`): nothing for an empty
      cart, price × quantity for one line (`SubtotalConcat` shows it adds up
      over concatenation). */
  function Subtotal(items: seq<CartItem>): (r: int)
    ensures items == [] ==> r == 0
    ensures |items| == 1 ==> r == items[0].item.price * items[0].quantity
  {
    if items == [] then 0 else items[0].item.price * items[0].quantity + Subtotal(items[1..])
  }

  /** `subtotal > 0 ? 1.0 : 0`. */
  function Fee(subtotal: int): (f: int)
    ensures f == ConvenienceFee <==> subtotal > 0
    ensures f == 0 <==> subtotal <= 0
  {
    if subtotal > 0 then ConvenienceFee else 0
  }

  datatype Totals = Totals(subtotal: int, convenienceFee: int, total: int)

  /** The memoised `{ subtotal, convenienceFee, total }` of the cart context. */
  function CartTotals(items: seq<CartItem>): (t: Totals)
    ensures t.subtotal == Subtotal(items)
    ensures t.convenienceFee == (if Subtotal(items) > 0 then ConvenienceFee else 0)
    ensures t.total == t.subtotal + t.convenienceFee
  {
    var s := Subtotal(items);
    Totals(s, Fee(s), s + Fee(s))
  }

  /** Subtotals add up over concatenation, so the reduce order is irrelevant. */
  lemma {:induction false} SubtotalConcat(a: seq<CartItem>, b: seq<CartItem>)
    ensures Subtotal(a + b) == Subtotal(a) + Subtotal(b)
  {
    if a == [] {
      assert a + b == b;
    } else {
      assert (a + b)[1..] == a[1..] + b;
      SubtotalConcat(a[1..], b);
    }
  }

  /** With non-negative prices and positive quantities the subtotal is never
      negative, and it is zero only when every line has price 0. */
  lemma {:induction false} SubtotalNonNegative(items: seq<CartItem>)
    requires forall c :: c in items ==> c.item.price >= 0 && c.quantity >= 1
    ensures Subtotal(items) >= 0
    ensures Subtotal(items) == 0 <==> forall c :: c in items ==> c.item.price == 0
  {
    if items != [] {
      assert forall c :: c in items[1..] ==> c in items;
      SubtotalNonNegative(items[1..]);
      assert items[0] in items;
    }
  }

  /** While the menu (or the user) is loading the catalog map is empty: the
      cart shows nothing, totals are zero and no item can be added. */
  lemma LoadingCartIsEmpty(lines: seq<CartLine>, items: seq<MenuItem>, id: string)
    ensures CartItems(lines, MenuById(items, true)) == []
    ensures CartTotals(CartItems(lines, MenuById(items, true))) == Totals(0, 0, 0)
    ensures AddToCart(lines, MenuById(items, true), id) == Step(lines, NotInCatalog)
  {
    assert MenuById(items, true) == map[];
  }

  /** The worked example: A (stock 2, price 150.00), B (stock 5, price 25.00). */
  lemma ExampleScenario(a: MenuItem, b: MenuItem)
    requires a.id == "A" && a.stock == 2 && a.price == 15000
    requires b.id == "B" && b.stock == 5 && b.price == 2500
    ensures var byId := map["A" := a, "B" := b];
      var s1 := AddToCart([], byId, "A");
      var s2 := AddToCart(s1.lines, byId, "A");
      var s3 := AddToCart(s2.lines, byId, "A");
      var s4 := AddToCart(s3.lines, byId, "B");
      && s1.outcome == Changed && s2.outcome == Changed
      && s3 == Step(s2.lines, StockLimitReached)
      && s4.lines == [CartLine("A", 2), CartLine("B", 1)]
      && CartTotals(CartItems(s4.lines, byId)) == Totals(32500, 100, 32600)
  {
    var byId := map["A" := a, "B" := b];
    var s1 := AddToCart([], byId, "A");
    assert CurrentQuantity([], "A") == 0;
    assert s1 == Step([CartLine("A", 1)], Changed);
    assert CurrentQuantity(s1.lines, "A") == 1;
    var s2 := AddToCart(s1.lines, byId, "A");
    assert SetQuantity(s1.lines, "A", 2) == [CartLine("A", 2)];
    assert s2 == Step([CartLine("A", 2)], Changed);
    assert CurrentQuantity(s2.lines, "A") == 2;
    var s3 := AddToCart(s2.lines, byId, "A");
    assert s3 == Step(s2.lines, StockLimitReached);
    assert "A" != "B";
    assert Find(s3.lines, LineId, "B") == None;
    var s4 := AddToCart(s3.lines, byId, "B");
    assert s4.lines == [CartLine("A", 2), CartLine("B", 1)];
    var items := CartItems(s4.lines, byId);
    assert items == [CartItem(a, 2), CartItem(b, 1)];
    assert Subtotal(items[1..]) == 2500;
    assert Subtotal(items) == 32500;
  }

  // ---------------------------------------------------------------------
  // The cart as session state

  /** The `cartItemBases` state of the cart provider. */
  class ShoppingCart {
    var lines: seq<CartLine>

    constructor ()
      ensures lines == []
    {
      lines := [];
    }

    method Add(byId: map<string, MenuItem>, itemId: string) returns (outcome: CartOutcome)
      modifies this
      ensures Step(lines, outcome) == AddToCart(old(lines), byId, itemId)
      ensures Valid(old(lines), byId) ==> Valid(lines, byId)
    {
      var s := AddToCart(lines, byId, itemId);
      if Valid(lines, byId) { AddToCartKeepsValid(lines, byId, itemId); }
      lines, outcome := s.lines, s.outcome;
    }

    method Update(byId: map<string, MenuItem>, itemId: string, change: int) returns (outcome: CartOutcome)
      modifies this
      ensures Step(lines, outcome) == UpdateQuantity(old(lines), byId, itemId, change)
      ensures Valid(old(lines), byId) ==> Valid(lines, byId)
    {
      var s := UpdateQuantity(lines, byId, itemId, change);
      if Valid(lines, byId) { UpdateQuantityKeepsValid(lines, byId, itemId, change); }
      lines, outcome := s.lines, s.outcome;
    }

    method Remove(byId: map<string, MenuItem>, itemId: string)
      modifies this
      ensures lines == RemoveFromCart(old(lines), itemId)
      ensures Valid(old(lines), byId) ==> Valid(lines, byId)
    {
      if Valid(lines, byId) { RemoveFromCartKeepsValid(lines, byId, itemId); }
      lines := RemoveFromCart(lines, itemId);
    }

    method Clear()
      modifies this
      ensures lines == []
    {
      lines := [];
    }
  }
}
