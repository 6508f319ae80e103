/** The two menu-item forms: the edit/add dialog
    (src/components/admin/menu-item-form-dialog.tsx) and the older add-only
    dialog (src/components/admin/add-menu-item-dialog.tsx). Each schema is a
    parser from raw form fields to validated values; the URL check of the
    schema library is the parameter `isUrl`. */
module Forms {
  import opened Common
  import opened Catalog

  /** The category value the select field holds. */
  function CategoryName(c: Category): string {
    match c
    case Meal => "meal"
    case Snack => "snack"
  }

  /** `z.enum(['meal', 'snack'])`. */
  function ParseCategory(s: string): (r: Option<Category>)
    ensures r.Some? <==> s == "meal" || s == "snack"
    ensures r.Some? ==> CategoryName(r.value) == s
  {
    if s == "meal" then Some(Meal) else if s == "snack" then Some(Snack) else None
  }

  lemma CategoryNameRoundTrip(c: Category)
    ensures ParseCategory(CategoryName(c)) == Some(c)
  {
  }

  // ---------------------------------------------------------------------
  // The edit/add dialog

  /** The raw fields of the edit/add dialog. `None` is an absent field. */
  datatype MenuItemFormFields = MenuItemFormFields(
    name: string,
    description: Option<string>,
    price: int,
    category: string,
    imageUrl: Option<string>)

  /** The values the schema passes on to `onSubmit`. */
  datatype MenuItemFormValues = MenuItemFormValues(
    name: string,
    description: Option<string>,
    price: int,
    category: Category,
    imageUrl: Option<string>)

  /** `formSchema` of the edit/add dialog: a name of at least three
      characters, a positive price, a known category, and an image URL that is
      absent, empty or a URL; the description is free. */
  function ParseMenuItemForm(f: MenuItemFormFields, isUrl: string -> bool): (r: Option<MenuItemFormValues>)
    ensures r.Some? <==>
              && |f.name| >= 3
              && f.price > 0
              && (f.category == "meal" || f.category == "snack")
              && (f.imageUrl.None? || f.imageUrl.value == "" || isUrl(f.imageUrl.value))
    ensures r.Some? ==>
              && r.value.name == f.name && r.value.description == f.description
              && r.value.price == f.price && CategoryName(r.value.category) == f.category
              && r.value.imageUrl == f.imageUrl
  {
    var category := ParseCategory(f.category);
    if |f.name| >= 3 && f.price > 0 && category.Some?
       && (f.imageUrl.None? || f.imageUrl.value == "" || isUrl(f.imageUrl.value))
    then Some(MenuItemFormValues(f.name, f.description, f.price, category.value, f.imageUrl))
    else None
  }

  /** The dialog's `defaultValues`, also used when it opens for a new item. */
  const EmptyMenuItemForm := MenuItemFormFields("", Some(""), 0, "meal", Some(""))

  /** The `form.reset` the dialog performs when it opens: the edited item's
      fields, or the defaults for a new entry. The image file is always
      cleared. */
  function ResetValues(item: Option<MenuItem>): (f: MenuItemFormFields)
    ensures item.None? ==> f == EmptyMenuItemForm
    ensures item.Some? ==>
              && f.name == item.value.name && f.price == item.value.price
              && f.description == Some(item.value.description)
              && f.imageUrl == Some(item.value.imageUrl)
              && ParseCategory(f.category) == Some(item.value.category)
  {
    if item.Some? then
      MenuItemFormFields(item.value.name, Some(item.value.description), item.value.price,
                         CategoryName(item.value.category), Some(item.value.imageUrl))
    else EmptyMenuItemForm
  }

  /** An untouched new form does not validate: the default price is 0. */
  lemma EmptyMenuItemFormInvalid(isUrl: string -> bool)
    ensures ParseMenuItemForm(EmptyMenuItemForm, isUrl) == None
  {
  }

  /** Opening the dialog on an item whose name, price and image URL already
      satisfy the schema gives a form that submits unchanged: the values are
      the item's own fields. */
  lemma ResetOfValidItemSubmits(item: MenuItem, isUrl: string -> bool)
    requires |item.name| >= 3 && item.price > 0
    requires item.imageUrl == "" || isUrl(item.imageUrl)
    ensures ParseMenuItemForm(ResetValues(Some(item)), isUrl)
              == Some(MenuItemFormValues(item.name, Some(item.description), item.price, item.category, Some(item.imageUrl)))
  {
    CategoryNameRoundTrip(item.category);
  }

  /** `onSubmit`: the values and the edited item's id, if any. */
  function SubmitMenuItemForm(values: MenuItemFormValues, item: Option<MenuItem>): (r: (MenuItemFormValues, Option<string>))
    ensures r.0 == values
    ensures r.1.Some? <==> item.Some?
    ensures item.Some? ==> r.1 == Some(item.value.id)
  {
    (values, if item.Some? then Some(item.value.id) else None)
  }

  // ---------------------------------------------------------------------
  // The add-only dialog

  datatype AddItemFields = AddItemFields(name: string, price: int, category: string)

  /** What `onAddItem` receives: name, price and category, nothing else. */
  datatype AddItemValues = AddItemValues(name: string, price: int, category: Category)

  /** `formSchema` of the add-only dialog. */
  function ParseAddItemForm(f: AddItemFields): (r: Option<AddItemValues>)
    ensures r.Some? <==> |f.name| >= 3 && f.price > 0 && (f.category == "meal" || f.category == "snack")
    ensures r.Some? ==> r.value.name == f.name && r.value.price == f.price
                        && CategoryName(r.value.category) == f.category
  {
    var category := ParseCategory(f.category);
    if |f.name| >= 3 && f.price > 0 && category.Some? then
      Some(AddItemValues(f.name, f.price, category.value))
    else None
  }

  const EmptyAddItemForm := AddItemFields("", 0, "meal")

  lemma EmptyAddItemFormInvalid()
    ensures ParseAddItemForm(EmptyAddItemForm) == None
  {
  }

  /** The state a submit leaves behind: the call made, the dialog's open
      flag and the form's fields. */
  datatype AddSubmit = AddSubmit(added: AddItemValues, isOpen: bool, fields: AddItemFields)

  /** `onSubmit` of the add-only dialog: forwards the values, closes the
      dialog and resets the form to its defaults, so a second submit without
      new input is refused. */
  function SubmitAddItemForm(values: AddItemValues): (r: AddSubmit)
    ensures r.added == values && !r.isOpen && r.fields == EmptyAddItemForm
    ensures ParseAddItemForm(r.fields) == None
  {
    AddSubmit(values, false, EmptyAddItemForm)
  }

  /** Whatever the add-only dialog forwards came from fields that validate
      to exactly it. */
  lemma {:induction false} AddItemParseRoundTrip(v: AddItemValues)
    requires |v.name| >= 3 && v.price > 0
    ensures ParseAddItemForm(AddItemFields(v.name, v.price, CategoryName(v.category))) == Some(v)
  {
    CategoryNameRoundTrip(v.category);
  }
}
