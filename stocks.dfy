/** The stock management page (src/app/admin/stocks/page.tsx): an editable
    buffer of stock levels, seeded from the menu, edited one field at a time,
    and saved by sending a stock-only update for every level that differs
    from the menu. */
module Stocks {
  import opened Common
  import opened Catalog

  /** The value of `Number(input)` for a stock field: not a number, or an
      integer. */
  datatype Parsed = NotANumber | Num(value: int)

  /** The stock levels the menu lists: one per id, the last item with an id
      giving its level (`menuItems.reduce(...)`). */
  function InitialLevels(menu: seq<MenuItem>): (levels: map<string, int>)
    ensures forall i :: 0 <= i < |menu| ==> menu[i].id in levels
    ensures forall id :: id in levels ==> exists i :: 0 <= i < |menu| && menu[i].id == id
    ensures forall i :: 0 <= i < |menu| && (forall j :: i < j < |menu| ==> menu[j].id != menu[i].id) ==>
              levels[menu[i].id] == menu[i].stock
  {
    var byId := IndexBy(menu, ItemId);
    forall i | 0 <= i < |menu| && (forall j :: i < j < |menu| ==> menu[j].id != menu[i].id)
      ensures byId[menu[i].id] == menu[i]
    {
      IndexByKeepsLast(menu, ItemId, i);
    }
    forall id | id in byId ensures exists i :: 0 <= i < |menu| && menu[i].id == id {
      var i :| 0 <= i < |menu| && menu[i] == byId[id];
    }
    map id | id in byId :: byId[id].stock
  }

  /** The updates a save sends: for every buffered level whose id the menu
      lists (first match) with a different stock, that level. */
  function SaveDiff(levels: map<string, int>, menu: seq<MenuItem>): (updates: map<string, int>)
    ensures forall id :: id in updates <==>
              id in levels && Find(menu, ItemId, id).Some? && Find(menu, ItemId, id).value.stock != levels[id]
    ensures forall id :: id in updates ==> updates[id] == levels[id]
  {
    map id | id in levels && Find(menu, ItemId, id).Some? && Find(menu, ItemId, id).value.stock != levels[id]
      :: levels[id]
  }

  /** Saving a freshly seeded buffer sends nothing, when menu ids are distinct. */
  lemma SaveAfterSeedIsEmpty(menu: seq<MenuItem>)
    requires DistinctKeys(menu, ItemId)
    ensures SaveDiff(InitialLevels(menu), menu) == map[]
  {
    var levels := InitialLevels(menu);
    forall id | id in levels
      ensures Find(menu, ItemId, id).Some? && Find(menu, ItemId, id).value.stock == levels[id]
    {
      var i :| 0 <= i < |menu| && menu[i].id == id;
      forall j | i < j < |menu| ensures menu[j].id != menu[i].id {
        assert ItemId(menu[i]) != ItemId(menu[j]);
      }
      assert levels[id] == menu[i].stock;
      assert ItemId(menu[i]) == id;
      var f := FindIndex(menu, ItemId, id);
      assert ItemId(menu[f.value]) == ItemId(menu[i]);
      assert f.value == i;
    }
    assert SaveDiff(levels, menu).Keys == {};
  }

  /** The stocks the menu store holds after the updates are applied: each
      listed id present in the store gets its new stock, nothing else moves. */
  function WithStocks(items: map<string, MenuItem>, updates: map<string, int>): (r: map<string, MenuItem>)
    ensures r.Keys == items.Keys
    ensures forall id :: id in r && id in updates ==> r[id] == items[id].(stock := updates[id])
    ensures forall id :: id in r && id !in updates ==> r[id] == items[id]
  {
    map id | id in items :: if id in updates then items[id].(stock := updates[id]) else items[id]
  }

  /** Sending one more update applies one stock-only patch to that item, if
      the store holds it, and changes nothing otherwise. */
  lemma WithStocksStep(items: map<string, MenuItem>, updates: map<string, int>, id: string, stock: int)
    requires id !in updates
    ensures var before := WithStocks(items, updates);
      && (id in items ==> WithStocks(items, updates[id := stock]) == before[id := ApplyPatch(before[id], StockOnly(stock))])
      && (id !in items ==> WithStocks(items, updates[id := stock]) == before)
  {
  }

  /** One `updateMenuItem(id, { stock })` call of a save, in terms of the
      updates sent so far: afterwards the store holds those and this one. */
  method SendStockUpdate(store: MenuStore?, ghost base: map<string, MenuItem>, ghost sent: map<string, int>,
                         id: string, stock: int)
    requires id !in sent
    requires store != null ==> store.Valid() && store.items == WithStocks(base, sent)
    modifies store
    ensures store != null ==> store.Valid() && store.items == WithStocks(base, sent[id := stock])
  {
    if store != null {
      WithStocksStep(base, sent, id, stock);
    }
    UpdateMenuItem(store, id, StockOnly(stock));
  }

  /** The page's `stockLevels` state. */
  class StockBuffer {
    var levels: map<string, int>

    constructor ()
      ensures levels == map[]
    {
      levels := map[];
    }

    /** The effect run whenever the menu list changes: the buffer is replaced
        by the menu's stock levels. */
    method Seed(menu: seq<MenuItem>)
      modifies this
      ensures levels == InitialLevels(menu)
    {
      var acc: map<string, MenuItem> := map[];
      var i := 0;
      while i < |menu|
        invariant 0 <= i <= |menu|
        invariant acc == IndexBy(menu[..i], ItemId)
      {
        assert menu[..i + 1][..i] == menu[..i];
        acc := acc[menu[i].id := menu[i]];
        i := i + 1;
      }
      assert menu[..i] == menu;
      levels := map id | id in acc :: acc[id].stock;
    }

    /** `handleStockChange`: a non-negative number replaces the level of one
        item; anything else is ignored. */
    method HandleStockChange(itemId: string, value: Parsed)
      modifies this
      ensures value.Num? && value.value >= 0 ==> levels == old(levels)[itemId := value.value]
      ensures !(value.Num? && value.value >= 0) ==> levels == old(levels)
    {
      if value.Num? && value.value >= 0 {
        levels := levels[itemId := value.value];
      }
    }

    /** `handleSaveChanges`: one stock-only update per changed level. The
        updates are independent, so the order `Object.entries` visits the
        levels in does not matter to the outcome. */
    method SaveChanges(menu: seq<MenuItem>, store: MenuStore?) returns (updates: map<string, int>)
      requires store != null ==> store.Valid()
      modifies store
      ensures updates == SaveDiff(levels, menu)
      ensures store != null ==> store.Valid() && store.items == WithStocks(old(store.items), updates)
    {
      updates := map[];
      var remaining := levels.Keys;
      ghost var diff := SaveDiff(levels, menu);
      while remaining != {}
        invariant remaining <= levels.Keys
        invariant forall id :: id in updates <==> id in diff && id !in remaining
        invariant forall id :: id in updates ==> updates[id] == diff[id]
        invariant store != null ==> store.Valid() && store.items == WithStocks(old(store.items), updates)
        decreases remaining
      {
        var id :| id in remaining;
        var originalItem := Find(menu, ItemId, id);
        var stock := levels[id];
        assert id in diff <==> originalItem.Some? && originalItem.value.stock != stock;
        assert id in diff ==> diff[id] == stock;
        if originalItem.Some? && originalItem.value.stock != stock {
          SendStockUpdate(store, if store != null then old(store.items) else map[], updates, id, stock);
          updates := updates[id := stock];
        }
        remaining := remaining - {id};
      }
      assert updates.Keys == diff.Keys;
    }
  }
}
