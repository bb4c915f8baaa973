/**
 * The immutable meal record, the friend-activity record and the static
 * sample catalogs every screen of the app reads from (Meal.swift).
 */
module Meals {

  /**
   * One catalog entry. The source also gives every value a fresh `UUID`
   * identifier; the model compares meals by value instead.
   * `servingWeight` defaults to 100 grams and is never read by the app.
   */
  datatype Meal = Meal(
    name: string,
    imageName: string,
    creator: string,
    calories: int,
    protein: int,
    carbs: int,
    ethnicity: string,
    description: string,
    servingWeight: int := 100)

  /** A meal a friend logged, with a display string for how long ago. */
  datatype FriendActivity = FriendActivity(meal: Meal, timeAgo: string)

  /** The creator label the app uses for the signed-in user's own recipes. */
  const You: string := "You"

  /** Meals the user logged before; the home screen's first row. */
  const SamplePrevious: seq<Meal> := [
    Meal("Spicy Ramen", "bowl.fill", You, 550, 20, 65, "Japanese",
      "A rich pork broth ramen with spicy chili oil, soft-boiled egg, and bamboo shoots."),
    Meal("Tacos", "takeoutbag.and.cup.and.straw.fill", You, 420, 18, 45, "Mexican",
      "Street-style soft tacos with pastor pork, pineapple, cilantro, and onions."),
    Meal("Sushi Set", "fish.fill", You, 380, 25, 50, "Japanese",
      "Assorted nigiri sushi including salmon, tuna, and yellowtail."),
    Meal("Burger", "carrot.fill", You, 650, 35, 55, "American",
      "Juicy beef patty with sharp cheddar, lettuce, tomato, and house sauce on a brioche bun.")
  ]

  /** Meals recommended by other creators; the home screen's second row. */
  const SampleRecommended: seq<Meal> := [
    Meal("Pad Thai", "fork.knife", "Chef Len", 600, 15, 70, "Thai",
      "Classic stir-fried rice noodles with egg, peanuts, bean sprouts, and tangy tamarind sauce."),
    Meal("Curry", "flame.fill", "Spice House", 750, 22, 60, "Indian",
      "Aromatic chicken curry simmered in coconut milk with turmeric, cumin, and coriander."),
    Meal("Pasta", "drop.fill", "Bella Italia", 800, 25, 90, "Italian",
      "Homemade fettuccine with a rich and creamy mushroom alfredo sauce."),
    Meal("Salad", "leaf.fill", "Green & Go", 320, 10, 20, "Mediterranean",
      "Fresh garden salad with feta cheese, olives, cucumbers, and lemon vinaigrette.")
  ]

  /** The four entries that only the full catalog holds. */
  const ExtraMeals: seq<Meal> := [
    Meal("Grilled Chicken", "flame", You, 350, 40, 5, "American",
      "Herb-marinated grilled chicken breast served with steamed vegetables."),
    Meal("Oatmeal", "circle.fill", You, 250, 8, 40, "Western",
      "Steel-cut oats topped with fresh berries, walnuts, and a drizzle of honey."),
    Meal("Steak", "hare.fill", "Restaurant", 700, 50, 0, "American",
      "Perfectly seared ribeye steak with a side of garlic mashed potatoes."),
    Meal("Apple Pie", "circle.grid.cross.fill", "Baker", 400, 3, 60, "Western",
      "Classic apple pie with a flaky crust and cinnamon-spiced apple filling.")
  ]

  /** The whole catalog that search, the food picker and the profile read. */
  const AllMeals: seq<Meal> := SamplePrevious + SampleRecommended + ExtraMeals

  /** The friends' activity feed shown on the home and friends screens. */
  const FriendSample: seq<FriendActivity> := [
    FriendActivity(Meal("Homemade Pizza", "circle.grid.cross.fill", "Alice", 450, 18, 55, "Italian",
      "Hand-tossed pizza with marinara sauce, fresh mozzarella, and basil."), "2h ago"),
    FriendActivity(Meal("BBQ Ribs", "flame", "Bob", 950, 45, 15, "American",
      "Slow-cooked pork ribs slathered in tangy tea-infused BBQ sauce."), "4h ago"),
    FriendActivity(Meal("Smoothie Bowl", "cup.and.saucer.fill", "Charlie", 280, 5, 45, "Western",
      "Acai base topped with granola, banana slices, and coconut flakes."), "5h ago")
  ]

  /** The positions the friends screen reads out of `AllMeals`, in the order it reads them. */
  const FriendsViewIndices: seq<int> := [0, 4, 1, 2, 3, 5, 6, 7]

  /** Non-negative energy and macros and a non-empty name. */
  predicate WellFormed(m: Meal) {
    m.calories >= 0 && m.protein >= 0 && m.carbs >= 0 && |m.name| > 0
  }

  /** Protein and carbohydrate (4 kcal per gram each) account for at most the stated energy. */
  predicate EnergyCoversMacros(m: Meal) {
    m.calories >= 4 * (m.protein + m.carbs)
  }

  /** The catalog is the previous meals, then the recommended ones, then four extras: 12 in all. */
  lemma AllMealsLayout()
    ensures |AllMeals| == 12
    ensures AllMeals[..4] == SamplePrevious
    ensures AllMeals[4..8] == SampleRecommended
    ensures AllMeals[8..] == ExtraMeals
  {
  }

  /** No entry overrides the 100 g default serving weight. */
  lemma DefaultServingWeight()
    ensures forall m :: m in AllMeals ==> m.servingWeight == 100
    ensures forall a :: a in FriendSample ==> a.meal.servingWeight == 100
  {
  }

  /** Every shipped meal has non-negative energy and macros and a name. */
  lemma CatalogWellFormed()
    ensures forall m :: m in AllMeals ==> WellFormed(m)
    ensures forall a :: a in FriendSample ==> WellFormed(a.meal)
  {
  }

  /** No shipped meal states less energy than its protein and carbohydrate supply. */
  lemma CatalogEnergyCoversMacros()
    ensures forall m :: m in AllMeals ==> EnergyCoversMacros(m)
    ensures forall a :: a in FriendSample ==> EnergyCoversMacros(a.meal)
  {
  }

  /**
   * The user's own entries are the four previous meals, then Grilled Chicken
   * and Oatmeal; the recommended meals, Steak and Apple Pie are by others.
   */
  lemma CatalogCreators()
    ensures forall i :: 0 <= i < |SamplePrevious| ==> SamplePrevious[i].creator == You
    ensures forall i :: 0 <= i < |SampleRecommended| ==> SampleRecommended[i].creator != You
    ensures forall i :: 0 <= i < 2 ==> ExtraMeals[..2][i].creator == You
    ensures forall i :: 0 <= i < 2 ==> ExtraMeals[2..][i].creator != You
  {
  }

  /** Every position the friends screen reads is inside the catalog. */
  lemma FriendsViewIndicesInRange()
    ensures forall i :: i in FriendsViewIndices ==> 0 <= i < |AllMeals|
  {
  }
}
