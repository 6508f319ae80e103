/** The menu management page (src/app/admin/menu/page.tsx): the dialog
    state and `handleSaveItem`, which fills in defaults for the submitted
    values and turns them into an update of an existing item or the creation
    of a new one. `placeholder` stands for the random placeholder image URL
    the page makes up for a new item without one. */
module MenuAdmin {
  import opened Common
  import opened Catalog
  import opened Forms

  /** The fields a new menu item document is created with. The form has no
      stock field, so none is written. */
  datatype NewItemFields = NewItemFields(
    name: string,
    price: int,
    category: Category,
    imageUrl: string,
    imageHint: string,
    description: string)

  /** The menu context call a save makes. */
  datatype SaveCall =
    | UpdateCall(id: string, patch: MenuItemPatch)
    | AddCall(fields: NewItemFields)

  const NewItemImageHint := "food placeholder"

  /** `x || ''` on an optional string. */
  function OrEmpty(s: Option<string>): (r: string)
    ensures s.Some? ==> r == s.value
    ensures s.None? ==> r == ""
  {
    if s.Some? then s.value else ""
  }

  /** `menuItems.find(item => item.id === id)?.imageUrl || ''`. */
  function ExistingImageUrl(menuItems: seq<MenuItem>, id: string): (url: string)
    ensures Find(menuItems, ItemId, id).Some? ==> url == Find(menuItems, ItemId, id).value.imageUrl
    ensures Find(menuItems, ItemId, id).None? ==> url == ""
  {
    var current := Find(menuItems, ItemId, id);
    if current.Some? then current.value.imageUrl else ""
  }

  class MenuPage {
    var editingItem: Option<MenuItem>
    var isDialogOpen: bool

    constructor ()
      ensures editingItem == None && !isDialogOpen
    {
      editingItem, isDialogOpen := None, false;
    }

    /** `handleOpenDialog`: the item to edit, or `None` for a new entry. */
    method HandleOpenDialog(item: Option<MenuItem>)
      modifies this
      ensures editingItem == item && isDialogOpen
    {
      editingItem := item;
      isDialogOpen := true;
    }

    /** `handleCloseDialog`. */
    method HandleCloseDialog()
      modifies this
      ensures editingItem == None && !isDialogOpen
    {
      editingItem := None;
      isDialogOpen := false;
    }

    /** `handleSaveItem`: closes the dialog, then builds the saved fields.
        A non-empty `id` means an edit: the update carries that id, the
        submitted fields, an empty description for a missing one, and the
        existing item's image URL when none was submitted. Otherwise a new
        item is added with a placeholder image when none was submitted and
        the fixed image hint. */
    method HandleSaveItem(itemData: MenuItemFormValues, id: Option<string>, menuItems: seq<MenuItem>,
                          placeholder: string) returns (call: SaveCall)
      requires placeholder != ""
      modifies this
      ensures editingItem == None && !isDialogOpen
      ensures call.UpdateCall? <==> id.Some? && Truthy(id.value)
      ensures call.UpdateCall? ==>
                && call.id == id.value
                && call.patch.name == Some(itemData.name)
                && call.patch.price == Some(itemData.price)
                && call.patch.category == Some(itemData.category)
                && call.patch.description == Some(OrEmpty(itemData.description))
                && call.patch.stock.None? && call.patch.imageHint.None?
                && call.patch.imageUrl.Some?
                && (Truthy(OrEmpty(itemData.imageUrl)) ==> call.patch.imageUrl == itemData.imageUrl)
                && (!Truthy(OrEmpty(itemData.imageUrl)) ==>
                      call.patch.imageUrl == Some(ExistingImageUrl(menuItems, id.value)))
      ensures call.AddCall? ==>
                && call.fields.name == itemData.name
                && call.fields.price == itemData.price
                && call.fields.category == itemData.category
                && call.fields.description == OrEmpty(itemData.description)
                && call.fields.imageHint == NewItemImageHint
                && Truthy(call.fields.imageUrl)
                && (Truthy(OrEmpty(itemData.imageUrl)) ==> call.fields.imageUrl == itemData.imageUrl.value)
                && (!Truthy(OrEmpty(itemData.imageUrl)) ==> call.fields.imageUrl == placeholder)
    {
      HandleCloseDialog();
      var isEdit := id.Some? && Truthy(id.value);
      var finalImageUrl := OrEmpty(itemData.imageUrl);
      if !Truthy(finalImageUrl) && !isEdit {
        finalImageUrl := placeholder;
      }
      var description := OrEmpty(itemData.description);
      var imageUrl := finalImageUrl;
      if !Truthy(imageUrl) {
        imageUrl := if isEdit then ExistingImageUrl(menuItems, id.value) else "";
      }
      if isEdit {
        if !Truthy(imageUrl) {
          imageUrl := ExistingImageUrl(menuItems, id.value);
        }
        call := UpdateCall(id.value, MenuItemPatch(Some(itemData.name), Some(itemData.price), Some(itemData.category),
                                                   Some(imageUrl), None, Some(description), None));
      } else {
        call := AddCall(NewItemFields(itemData.name, itemData.price, itemData.category,
                                      imageUrl, NewItemImageHint, description));
      }
    }

    /** `handleDeleteItem`. */
    method HandleDeleteItem(store: MenuStore?, itemId: string)
      requires store != null ==> store.Valid()
      modifies store
      ensures store != null ==> store.Valid() && store.items == old(store.items) - {itemId}
    {
      DeleteMenuItem(store, itemId);
    }
  }

  /** An edit, applied to the item it addresses, keeps the item's id, stock
      and image hint and sets every field the form submits: name, price,
      category, image URL and description (empty when none was given).
      `UpdateMenuItem` states that no other document changes. */
  lemma EditKeepsStockAndHint(m: MenuItem, itemData: MenuItemFormValues, imageUrl: string)
    ensures var p := MenuItemPatch(Some(itemData.name), Some(itemData.price), Some(itemData.category),
                                   Some(imageUrl), None, Some(OrEmpty(itemData.description)), None);
      var r := ApplyPatch(m, p);
      && r.id == m.id && r.stock == m.stock && r.imageHint == m.imageHint
      && r.name == itemData.name && r.price == itemData.price && r.imageUrl == imageUrl
      && r.category == itemData.category && r.description == OrEmpty(itemData.description)
  {
  }
}
