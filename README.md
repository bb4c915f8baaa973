# EthnoMeal nutrition core, modelled in Dafny

EthnoMeal is a SwiftUI nutrition-tracking app. Almost all of it is screen layout over hard-coded sample data. This project models the part that computes something, as pure Dafny functions and lemmas:

- **The meal record and catalog** (`Meals`, `meal.dfy`). `Meal` is an immutable value whose `servingWeight` defaults to 100 g. `AllMeals` is `SamplePrevious + SampleRecommended` followed by four extra entries. `FriendSample` is the friends' activity feed.
- **The fat estimate** (`MealDetailView.EstimateFat`). It takes the energy that protein and carbohydrate (4 kcal/g each) leave over, turns it into grams of fat (9 kcal/g) with Swift's truncating `Int` division (`Arith.TruncDiv`), and clamps the result at 0.
- **The macro composition bar** (`MealDetailView.CompositionBar`). If the total grams are positive, the bar has three segments in the fixed order protein, carbohydrate, fat, each sized by its share of the total. Otherwise it shows a grey placeholder.
- **The goal progress ratio** (`AddView.Progress`). It is `min(current / goal, 1.0)`, together with the screen's mock intake and goal numbers.
- **The catalog queries** (`CatalogQuery`, `SearchView`, `FoodPickerView`):
  - An empty search shows the whole catalog. Otherwise the search keeps the entries whose name contains the query, ignoring case.
  - The user's recipes are the entries whose creator is exactly `"You"`. Friends' recipes are all the other entries.
  - Both queries are order-preserving filters (`Seqs.Filter`, the shape of Swift's `Array.filter`).
- **The profile screen** (`ProfileView`): the sample week of daily totals, the user's recipes, and the three "Avg" stat cards. The model computes the week's truncated means and compares them with the hard-coded card values.

The Swift code calls these computations on `Meal.allMeals`. In the model, the catalog is a parameter of the query functions, and the screen-level functions (`SearchView.FilteredMeals`, `FoodPickerView.MyRecipes`, …) pass `AllMeals` in. The ratios are `Double` in Swift; the model computes them as exact `real`.

## Model

| member | source | states |
|---|---|---|
| `Meals.AllMealsLayout` | Meal.swift:38-43 | the catalog has 12 entries: the 4 previous meals, then the 4 recommended ones, then the 4 extras |
| `Meals.DefaultServingWeight` | Meal.swift:13-50 | no shipped meal overrides the 100 g default serving weight |
| `Meals.CatalogWellFormed` | Meal.swift:23-51 | every catalog and friend-feed meal has non-negative energy, protein and carbohydrate and a non-empty name |
| `Meals.CatalogEnergyCoversMacros` | Meal.swift:23-51 | every shipped meal has calories ≥ 4·(protein + carbs), so none of them hits the fat clamp |
| `Meals.CatalogCreators` | Meal.swift:23-43 | the four previous meals, Grilled Chicken and Oatmeal are by "You"; the recommended meals, Steak and Apple Pie are not |
| `Meals.FriendsViewIndicesInRange` | FriendsView.swift:7-19 | every position the friends screen reads from `allMeals` (0 to 7) is inside the catalog |
| `Arith.TruncDiv` | MealDetailView.swift:12 | Swift's `Int` division rounds toward zero: q·b is the multiple of b closest to a on the zero side, within b of a |
| `Arith.Max` | MealDetailView.swift:12 | the clamp `max(0, …)`: the result is at least both arguments and is one of them |
| `Arith.MinReal` | AddView.swift:163 | the cap `min(…, 1.0)`: the result is at most both arguments and is one of them |
| `Seqs.Filter` | SearchView.swift:11 | `Array.filter` keeps a subset of the elements, so its result is never longer than its input; `FilterMembers`, `FilterCount` and `FilterIsSubsequence` state which elements, how many copies and in what order |
| `MealDetailView.EstimateFat` | MealDetailView.swift:8-13 | fat is never negative; if the remaining energy r is ≥ 0, then 9·fat ≤ r < 9·fat + 9; fat is 0 exactly when r < 9 |
| `MealDetailView.MealFat` | MealDetailView.swift:8-13 | the fat shown for a meal is never negative, and it is 0 exactly when calories − 4·(protein + carbs) < 9, the clamp included; when protein and carbs fit the calories (4 kcal/g), 9·fat ≤ calories − 4·(protein + carbs) < 9·fat + 9 |
| `MealDetailView.FatAgreesWithEuclideanDivision` | MealDetailView.swift:11-12 | because of the clamp, truncating and Euclidean division give the same estimate on every input, negative ones included |
| `MealDetailView.FatClampedWhenMacrosExceedEnergy` | MealDetailView.swift:11-12 | when 4·protein + 4·carbs ≥ calories, the estimate is exactly 0 |
| `MealDetailView.FatMonotone` | MealDetailView.swift:9-12 | the estimate never falls when calories rise, and never rises when protein or carbs rise |
| `MealDetailView.FatAnomalyExample` | MealDetailView.swift:12 | 100 kcal with 40 g protein and 40 g carbs gives 0 g fat, not a negative amount |
| `MealDetailView.SpicyRamenFat` | MealDetailView.swift:8-13 | Spicy Ramen (550 kcal, 20 g protein, 65 g carbs) shows 23 g fat |
| `MealDetailView.Total` | MealDetailView.swift:126-128 | with non-negative grams the total is at least each of protein, carbs and fat, and it is positive exactly when one of them is |
| `MealDetailView.CompositionBar` | MealDetailView.swift:121-156 | the bar is the placeholder exactly when total ≤ 0; otherwise it has three segments, protein then carbs then fat, and each segment's share times the total gives its grams |
| `MealDetailView.SegmentWidths` | MealDetailView.swift:137-147 | the placeholder draws no segments; otherwise segment i is drawn `width · share`, so for a non-negative bar width every segment whose share lies in [0, 1] fits inside the bar |
| `MealDetailView.SharesFormDistribution` | MealDetailView.swift:133-147 | with non-negative grams and a positive total, each share lies in [0, 1] and the three shares sum to exactly 1 |
| `MealDetailView.SegmentWidthsFillBar` | MealDetailView.swift:137-147 | with non-negative grams and a positive total, the three segment widths add up to the bar's full width |
| `MealDetailView.SegmentWidthsProportional` | MealDetailView.swift:137-147 | with a positive total, each segment is drawn in proportion to its grams: width_i · total = bar width · grams_i for protein, carbs and fat |
| `MealDetailView.SpicyRamenBarCarbsDominant` | MealDetailView.swift:83 | in Spicy Ramen's bar, carbs take the widest segment, then fat, then protein |
| `AddView.Progress` | AddView.swift:162-164 | for goal > 0: progress ≤ 1; progress ≥ 0 when current ≥ 0; progress is 1 exactly when current ≥ goal; below the goal it is current/goal |
| `AddView.ProgressMonotone` | AddView.swift:163 | for a fixed positive goal, more intake never shows less progress |
| `AddView.ProgressCapped` | AddView.swift:163 | twice the goal shows a full bar (progress 1) |
| `AddView.FilledWidth` | AddView.swift:187 | up to the goal the filled width is in proportion to the intake (filled·goal = width·current); from the goal on it is the whole bar |
| `AddView.FilledWidthWithinBar` | AddView.swift:187 | with non-negative intake, the filled width `width * progress` stays within [0, width] |
| `AddView.MockProgressValues` | AddView.swift:13-37 | the three mock bars show 0.6 (1200/2000), 0.5625 (90/160) and 0.6 (150/250) |
| `CatalogQuery.FilterByText` | SearchView.swift:8-11 | an empty query returns the catalog unchanged; otherwise an entry is in the result exactly when it is in the catalog and its name contains the query, ignoring case |
| `CatalogQuery.FilterByTextKeepsCopies` | SearchView.swift:11 | the search keeps every copy of a matching entry and no copy of any other: an entry occurs in the result as often as in the catalog if the query is empty or its name matches, and 0 times otherwise |
| `CatalogQuery.FilterByTextPreservesOrder` | SearchView.swift:11 | the result is an order-preserving subsequence of the catalog, so it is never longer than the catalog |
| `CatalogQuery.FilterByTextIdempotent` | SearchView.swift:7-13 | running the same search on the results returns them unchanged |
| `CatalogQuery.TacoMatchesTacos` | SearchView.swift:11 | the query "taco" matches the name "Tacos" |
| `CatalogQuery.NameMatches` | SearchView.swift:11 | the empty query matches every name; a query that occurs in the name with the same case always matches; no query longer than the name matches |
| `CatalogQuery.OwnedBy` | FoodPickerView.swift:12-14 | an entry is in the result exactly when it is in the catalog and its creator equals the label |
| `CatalogQuery.NotOwnedBy` | FoodPickerView.swift:16-18 | an entry is in the result exactly when it is in the catalog and its creator differs from the label |
| `CatalogQuery.OwnedByKeepsCopies` | FoodPickerView.swift:13 | the owned entries keep every copy of an entry whose creator equals the label and no copy of any other |
| `CatalogQuery.CreatorPartition` | FoodPickerView.swift:12-18 | the owned and other entries split the catalog: the lengths add up, the multisets add up, and both keep the catalog's order |
| `CatalogQuery.CreatorMatchIsCaseSensitive` | FoodPickerView.swift:13-17 | an entry whose creator is "you" lands among the others, not among "You"'s recipes |
| `SearchView.FilteredMeals` | SearchView.swift:7-13 | an empty search field shows all of `allMeals`; otherwise it shows exactly the entries whose name contains the text, ignoring case |
| `SearchView.TacoSearchFindsTacos` | SearchView.swift:11 | searching "taco" lists the catalog entry "Tacos" |
| `FoodPickerView.MyRecipes` | FoodPickerView.swift:12-14 | exactly the catalog entries whose creator is "You" |
| `FoodPickerView.FriendRecipes` | FoodPickerView.swift:16-18 | exactly the catalog entries whose creator is not "You" |
| `FoodPickerView.SearchResults` | FoodPickerView.swift:20-26 | the picker's search follows the same empty-shows-all and name-contains rule |
| `FoodPickerView.SearchResultsMatchSearchView` | FoodPickerView.swift:20-26 | the picker's search and the search screen give the same list for the same text |
| `FoodPickerView.RecipesPartitionCatalog` | FoodPickerView.swift:12-18 | the two recipe tabs split `allMeals`: each entry is in exactly one tab, the lengths add up to 12, and both keep the catalog's order |
| `FoodPickerView.RecipeTabsOfTheCatalog` | FoodPickerView.swift:12-18 | "My Recipes" is the 4 previous meals followed by Grilled Chicken and Oatmeal; each tab holds 6 entries |
| `ProfileView.MyRecipes` | ProfileView.swift:26-29 | exactly the catalog entries whose creator is "You" |
| `ProfileView.MyRecipesMatchFoodPicker` | ProfileView.swift:27-29 | the profile's recipes are the same list as the picker's "My Recipes" tab |
| `ProfileView.WeeklyDataShape` | ProfileView.swift:15-24 | the week has 7 days, labelled Sun through Sat in order, with no negative totals |
| `ProfileView.Mean` | ProfileView.swift:119-128 | the value each "Avg" card should show: the week's total of one nutrient divided by the number of days, truncated; for a non-negative total, avg·n ≤ total < avg·n + n |
| `ProfileView.MeanWithinRange` | ProfileView.swift:119-128 | if every day's amount lies in [lo, hi] with lo ≥ 0, the mean also lies in [lo, hi] |
| `ProfileView.WeeklyMeans` | ProfileView.swift:16-24 | the week's totals are 14500 kcal, 1560 g carbs and 1015 g protein; the truncated means are 2071, 222 and 145 |
| `ProfileView.StatCardsAsWritten` | ProfileView.swift:119-128 | the screen shows three cards, "Avg Calories" in kcal, then "Avg Carbs", then "Avg Protein", each with a positive value |
| `ProfileView.StatCardsAsWrittenMismatch` | ProfileView.swift:119-128 | the hard-coded calorie (2,071) and carb (222) averages match the week; the protein card shows 155 while the week's mean is 145 |
| `ProfileView.StatCards` | ProfileView.swift:119-128 | cards with the same titles and units as the screen's, with values computed from the week's means |
| `ProfileView.StatCardsCorrected` | ProfileView.swift:127 | the computed cards keep the correct calorie and carb cards and show 145 g for protein |

## Findings

| source | as written | input that shows it | evidently intended | confidence | as-written member | corrected member |
|---|---|---|---|---|---|---|
| ProfileView.swift:127 | the "Avg Protein" card shows the hard-coded value "155" | `weeklyData` (ProfileView.swift:17-23): its protein total is 1015 g over 7 days, a mean of 145 g | 145, the week's mean, the same way the calorie card (2,071) and the carb card (222) show theirs | high; not executed | `ProfileView.StatCardsAsWrittenMismatch` | `ProfileView.StatCards` |

## Left out

- Screen layout: view bodies, layout modifiers, `GeometryReader` sizing, sheets, navigation and tabs. This includes all of ContentView.swift, HomeView.swift and FriendsView.swift; only the catalog positions that FriendsView.swift reads are checked. It is presentation only.
- The Swift Charts plot of the week (ProfileView.swift:66-98). It is a foreign library with no logic of its own.
- `UUID` identifiers on `Meal`, `FriendActivity` and `DailyMacro`. Meals are compared by value. No two catalog entries are equal, so membership statements say the same thing they would about identities.
- `Meal.imageName`, `description` and `ethnicity` are kept as data, but nothing computes with them.
- Serving-size scaling. `servingWeight` is never read and no scaling code exists, so nothing is modelled beyond its default value.
- Error results for an empty history, a zero goal or a negative serving weight. The code has no such checks, and the averages are hard-coded strings.
- AddView.Progress: `goal > 0` is a precondition. The code does not guard `goal == 0`; in `Double` that division gives infinity or NaN, which the model does not represent.
- AddView.Progress: computed over exact reals, not IEEE `Double`; likewise the composition shares and widths. The exact sum of 1 holds only in the real-number model.
- MealDetailView.EstimateFat: computed over unbounded integers. Swift `Int` arithmetic traps on 64-bit overflow, which the model does not represent; no catalog value comes close.
- CatalogQuery.NameMatches: `localizedCaseInsensitiveContains` is modelled as ASCII lower-casing followed by a substring test. Locale rules, Unicode case folding and diacritic handling are not represented. The code only calls it with a non-empty query. There the two agree on ASCII names and ASCII queries, outside locales with special casing (such as the Turkish dotted and dotless i).
- ProfileView.Mean: the "Avg" cards show text ("2,071" has a thousands separator). The model compares the number the text spells, not the formatted string.
- AddView's `addedFoods` list and `date` picker, the `@State` selections and the `timeAgo` strings. These are user-interface state that no computation reads.
