/** The static menu fixture (src/lib/data.ts): seven dishes with their
    prices as written there, and the `meals` and `snacks` lists filtered
    from it. Its item type is the older one with a placeholder image instead
    of an image URL and no stock. */
module Fixture {
  import opened Common
  import opened Catalog

  /** The fixture's `MenuItem`: `imageId` names the placeholder image. */
  datatype FixtureItem = FixtureItem(
    id: string,
    name: string,
    description: string,
    price: int,
    category: Category,
    imageId: string)

  const Dishes: seq<FixtureItem> := [
    FixtureItem("1", "Royal Biryani", "Aromatic basmati rice cooked with spices and chicken.", 150, Meal, "meal-1"),
    FixtureItem("2", "South Indian Thali", "A complete meal with rice, sambar, rasam, and vegetables.", 120, Meal, "meal-2"),
    FixtureItem("3", "Chilli Garlic Noodles", "Stir-fried noodles with a punch of garlic and chili.", 100, Meal, "meal-3"),
    FixtureItem("4", "Punjabi Samosa (2 pcs)", "Crispy pastry filled with spiced potatoes and peas.", 30, Snack, "snack-1"),
    FixtureItem("5", "Filter Coffee", "Strong and aromatic South Indian filter coffee.", 25, Snack, "snack-2"),
    FixtureItem("6", "Veg Sandwich", "A healthy and fresh sandwich with cucumber, tomato, and lettuce.", 50, Snack, "snack-3"),
    FixtureItem("7", "Bourbon Biscuit", "A pack of delicious chocolate cream biscuits.", 20, Snack, "snack-4")
  ]

  function FixtureCategory(f: FixtureItem): Category { f.category }

  /** `meals`: the fixture's meals and nothing else. */
  function Meals(): (r: seq<FixtureItem>)
    ensures forall f {:trigger f in r} :: f in r <==> f in Dishes && f.category == Meal
  {
    Filter(Dishes, FixtureCategory, Meal)
  }

  /** `snacks`: the fixture's snacks and nothing else. */
  function Snacks(): (r: seq<FixtureItem>)
    ensures forall f {:trigger f in r} :: f in r <==> f in Dishes && f.category == Snack
  {
    Filter(Dishes, FixtureCategory, Snack)
  }

  /** The first three dishes are meals, the other four snacks. */
  lemma CategoriesOfDishes()
    ensures forall i :: 0 <= i < |Dishes[..3]| ==> Dishes[..3][i].category == Meal
    ensures forall i :: 0 <= i < |Dishes[3..]| ==> Dishes[3..][i].category == Snack
  {
    var meals, snacks := Dishes[..3], Dishes[3..];
    assert meals[0].category == Meal && meals[1].category == Meal && meals[2].category == Meal;
    assert snacks[0].category == Snack && snacks[1].category == Snack;
    assert snacks[2].category == Snack && snacks[3].category == Snack;
  }

  /** Meals followed by snacks filter back into exactly those two parts. */
  lemma SplitByCategory(meals: seq<FixtureItem>, snacks: seq<FixtureItem>)
    requires forall i :: 0 <= i < |meals| ==> meals[i].category == Meal
    requires forall i :: 0 <= i < |snacks| ==> snacks[i].category == Snack
    ensures Filter(meals + snacks, FixtureCategory, Meal) == meals
    ensures Filter(meals + snacks, FixtureCategory, Snack) == snacks
  {
    FilterUniform(meals, FixtureCategory, Meal);
    FilterUniform(meals, FixtureCategory, Snack);
    FilterUniform(snacks, FixtureCategory, Meal);
    FilterUniform(snacks, FixtureCategory, Snack);
    FilterConcat(meals, snacks, FixtureCategory, Meal);
    FilterConcat(meals, snacks, FixtureCategory, Snack);
  }

  /** `meals` is the first three dishes and `snacks` the other four, so
      the two lists split the fixture in order, 3 meals and 4 snacks. */
  lemma MealsAndSnacksSplitFixture()
    ensures Meals() == Dishes[..3] && Snacks() == Dishes[3..]
    ensures Meals() + Snacks() == Dishes
    ensures |Meals()| == 3 && |Snacks()| == 4
  {
    CategoriesOfDishes();
    assert Dishes == Dishes[..3] + Dishes[3..];
    SplitByCategory(Dishes[..3], Dishes[3..]);
  }

  /** The fixture ids are pairwise distinct and every price is positive. */
  lemma FixtureWellFormed()
    ensures forall i, j :: 0 <= i < j < |Dishes| ==> Dishes[i].id != Dishes[j].id
    ensures forall i :: 0 <= i < |Dishes| ==> Dishes[i].price > 0
  {
  }
}
