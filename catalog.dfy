/** The menu catalog: menu item records, the `menu_items` collection as an
    in-memory store, and the read-side helpers of the menu context
    (src/context/MenuContext.tsx). Money is an integer in minor units. */
module Catalog {
  import opened Common

  datatype Category = Meal | Snack

  /** A `menu_items` document together with its id. */
  datatype MenuItem = MenuItem(
    id: string,
    name: string,
    price: int,
    category: Category,
    imageUrl: string,
    imageHint: string,
    description: string,
    stock: int)

  /** The fields of a menu item without its id (`MenuItemData`). */
  datatype MenuItemData = MenuItemData(
    name: string,
    price: int,
    category: Category,
    imageUrl: string,
    imageHint: string,
    description: string,
    stock: int)

  /** A partial update (`Partial<MenuItemData>`): `None` leaves a field alone. */
  datatype MenuItemPatch = MenuItemPatch(
    name: Option<string>,
    price: Option<int>,
    category: Option<Category>,
    imageUrl: Option<string>,
    imageHint: Option<string>,
    description: Option<string>,
    stock: Option<int>)

  function ItemId(m: MenuItem): string { m.id }

  function Pick<T>(o: Option<T>, current: T): T {
    if o.Some? then o.value else current
  }

  /** Merging a partial update into a document, as `updateDoc` does. */
  function ApplyPatch(m: MenuItem, p: MenuItemPatch): (r: MenuItem)
    ensures r.id == m.id
    ensures p.name.Some? ==> r.name == p.name.value
    ensures p.name.None? ==> r.name == m.name
    ensures p.price.Some? ==> r.price == p.price.value
    ensures p.price.None? ==> r.price == m.price
    ensures p.category.Some? ==> r.category == p.category.value
    ensures p.category.None? ==> r.category == m.category
    ensures p.imageUrl.Some? ==> r.imageUrl == p.imageUrl.value
    ensures p.imageUrl.None? ==> r.imageUrl == m.imageUrl
    ensures p.imageHint.Some? ==> r.imageHint == p.imageHint.value
    ensures p.imageHint.None? ==> r.imageHint == m.imageHint
    ensures p.description.Some? ==> r.description == p.description.value
    ensures p.description.None? ==> r.description == m.description
    ensures p.stock.Some? ==> r.stock == p.stock.value
    ensures p.stock.None? ==> r.stock == m.stock
    ensures p == StockOnly(r.stock) ==> r == m.(stock := r.stock)
  {
    MenuItem(m.id, Pick(p.name, m.name), Pick(p.price, m.price), Pick(p.category, m.category),
             Pick(p.imageUrl, m.imageUrl), Pick(p.imageHint, m.imageHint),
             Pick(p.description, m.description), Pick(p.stock, m.stock))
  }

  /** The `{ stock }` update the stock page sends. */
  function StockOnly(stock: int): MenuItemPatch {
    MenuItemPatch(None, None, None, None, None, None, Some(stock))
  }

  /** The `menu_items` collection of the persistent store. */
  class MenuStore {
    var items: map<string, MenuItem>

    ghost predicate Valid()
      reads this
    {
      forall id :: id in items ==> items[id].id == id
    }

    constructor (initial: map<string, MenuItem>)
      requires forall id :: id in initial ==> initial[id].id == id
      ensures Valid() && items == initial
    {
      items := initial;
    }

    /** `addDoc`: the store chooses a fresh document id. */
    method Add(data: MenuItemData, newId: string)
      requires Valid() && newId !in items
      modifies this
      ensures Valid()
      ensures items == old(items)[newId := MenuItem(newId, data.name, data.price, data.category,
                                                     data.imageUrl, data.imageHint, data.description, data.stock)]
    {
      items := items[newId := MenuItem(newId, data.name, data.price, data.category,
                                       data.imageUrl, data.imageHint, data.description, data.stock)];
    }

    /** `updateDoc`: merges the given fields; a missing document is not created. */
    method Update(id: string, patch: MenuItemPatch)
      requires Valid()
      modifies this
      ensures Valid()
      ensures id in old(items) ==> items == old(items)[id := ApplyPatch(old(items)[id], patch)]
      ensures id !in old(items) ==> items == old(items)
    {
      if id in items {
        items := items[id := ApplyPatch(items[id], patch)];
      }
    }

    /** `deleteDoc`. */
    method Delete(id: string)
      requires Valid()
      modifies this
      ensures Valid()
      ensures items == old(items) - {id}
    {
      items := items - {id};
    }
  }

  /** `addMenuItem`: forwards to the store, and does nothing without one. */
  method AddMenuItem(store: MenuStore?, data: MenuItemData, newId: string)
    requires store != null ==> store.Valid() && newId !in store.items
    modifies store
    ensures store != null ==> store.Valid() && newId in store.items
    ensures store != null ==> store.items - {newId} == old(store.items)
    ensures store != null ==>
              store.items == old(store.items)[newId := MenuItem(newId, data.name, data.price, data.category,
                                                                data.imageUrl, data.imageHint, data.description, data.stock)]
  {
    if store == null { return; }
    store.Add(data, newId);
  }

  /** `updateMenuItem`: forwards to the store, and does nothing without one. */
  method UpdateMenuItem(store: MenuStore?, id: string, patch: MenuItemPatch)
    requires store != null ==> store.Valid()
    modifies store
    ensures store != null ==> store.Valid() && store.items.Keys == old(store.items.Keys)
    ensures store != null ==> forall k :: k in store.items && k != id ==> store.items[k] == old(store.items[k])
    ensures store != null && id in old(store.items) ==>
              store.items == old(store.items)[id := ApplyPatch(old(store.items)[id], patch)]
  {
    if store == null { return; }
    store.Update(id, patch);
  }

  /** `deleteMenuItem`: forwards to the store, and does nothing without one. */
  method DeleteMenuItem(store: MenuStore?, id: string)
    requires store != null ==> store.Valid()
    modifies store
    ensures store != null ==> store.Valid() && store.items == old(store.items) - {id}
  {
    if store == null { return; }
    store.Delete(id);
  }

  function CategoryOf(m: MenuItem): Category { m.category }

  /** `menuItems || []`: the exposed list is empty while nothing is loaded. */
  function MenuItemsOf(snapshot: Option<seq<MenuItem>>): (r: seq<MenuItem>)
    ensures snapshot.None? ==> r == []
    ensures snapshot.Some? ==> r == snapshot.value
  {
    if snapshot.Some? then snapshot.value else []
  }

  /** `getMeals`. */
  function GetMeals(snapshot: Option<seq<MenuItem>>): (r: seq<MenuItem>)
    ensures snapshot.None? ==> r == []
    ensures forall x :: x in r <==> x in MenuItemsOf(snapshot) && x.category == Meal
  {
    if snapshot.Some? then Filter(snapshot.value, CategoryOf, Meal) else []
  }

  /** `getSnacks`. */
  function GetSnacks(snapshot: Option<seq<MenuItem>>): (r: seq<MenuItem>)
    ensures snapshot.None? ==> r == []
    ensures forall x :: x in r <==> x in MenuItemsOf(snapshot) && x.category == Snack
  {
    if snapshot.Some? then Filter(snapshot.value, CategoryOf, Snack) else []
  }

  /** Every item is a meal or a snack, so the two filters split the catalog. */
  lemma MealsAndSnacksPartition(snapshot: Option<seq<MenuItem>>)
    ensures multiset(GetMeals(snapshot)) + multiset(GetSnacks(snapshot)) == multiset(MenuItemsOf(snapshot))
    ensures |GetMeals(snapshot)| + |GetSnacks(snapshot)| == |MenuItemsOf(snapshot)|
  {
    var m, s, all := GetMeals(snapshot), GetSnacks(snapshot), MenuItemsOf(snapshot);
    FilterMultiset(all, CategoryOf, Meal);
    FilterMultiset(all, CategoryOf, Snack);
    assert forall x :: (multiset(m) + multiset(s))[x] == multiset(all)[x];
    assert multiset(m) + multiset(s) == multiset(all);
    calc {
      |m| + |s|;
      |multiset(m)| + |multiset(s)|;
      |multiset(m) + multiset(s)|;
      |multiset(all)|;
      |all|;
    }
  }

  /** `isLoading` of the menu context: the menu or the signed-in user is loading. */
  function IsLoading(isMenuLoading: bool, isUserLoading: bool): bool {
    isMenuLoading || isUserLoading
  }

  /** The cart's item index follows the context's combined flag: while either
      the menu or the signed-in user is loading, no item can be found; once
      both are loaded, every menu item can. */
  lemma CartIndexFollowsLoading(items: seq<MenuItem>, isMenuLoading: bool, isUserLoading: bool)
    ensures isMenuLoading || isUserLoading ==> MenuById(items, IsLoading(isMenuLoading, isUserLoading)) == map[]
    ensures !isMenuLoading && !isUserLoading ==>
              forall i :: 0 <= i < |items| ==> items[i].id in MenuById(items, IsLoading(isMenuLoading, isUserLoading))
  {
  }

  /** `menuItemsById` of the cart context: empty while loading, last document
      wins on a repeated id. */
  function MenuById(items: seq<MenuItem>, isLoading: bool): (r: map<string, MenuItem>)
    ensures isLoading ==> r == map[]
    ensures !isLoading ==> forall i :: 0 <= i < |items| ==> items[i].id in r
    ensures forall id :: id in r ==> r[id].id == id && r[id] in items
  {
    if isLoading then map[] else IndexBy(items, ItemId)
  }
}
