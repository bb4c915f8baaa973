/**
 * The food picker sheet (FoodPickerView.swift): the user's own recipes,
 * everyone else's, and a search over the whole catalog.
 */
module FoodPickerView {
  import opened Seqs
  import opened Meals
  import opened CatalogQuery
  import SearchView

  /** `FoodPickerView.myRecipes`: the catalog entries created by "You". */
  function MyRecipes(): (r: seq<Meal>)
    ensures forall m :: m in r <==> m in AllMeals && m.creator == You
  {
    OwnedBy(AllMeals, You)
  }

  /** `FoodPickerView.friendRecipes`: the catalog entries created by anyone else. */
  function FriendRecipes(): (r: seq<Meal>)
    ensures forall m :: m in r <==> m in AllMeals && m.creator != You
  {
    NotOwnedBy(AllMeals, You)
  }

  /** `FoodPickerView.searchResults`: the catalog filtered by the picker's search field. */
  function SearchResults(searchText: string): (r: seq<Meal>)
    ensures |searchText| == 0 ==> r == AllMeals
    ensures forall m :: m in r <==> m in AllMeals && (|searchText| == 0 || NameMatches(m, searchText))
  {
    FilterByText(AllMeals, searchText)
  }

  /** The picker's search gives the same list as the search screen for the same text. */
  lemma SearchResultsMatchSearchView(searchText: string)
    ensures SearchResults(searchText) == SearchView.FilteredMeals(searchText)
  {
  }

  /**
   * The two recipe tabs split the catalog: every entry is in exactly one
   * of them, as often as in the catalog, and both keep the catalog's order.
   */
  lemma RecipesPartitionCatalog()
    ensures |MyRecipes()| + |FriendRecipes()| == |AllMeals|
    ensures multiset(MyRecipes()) + multiset(FriendRecipes()) == multiset(AllMeals)
    ensures IsSubsequence(MyRecipes(), AllMeals) && IsSubsequence(FriendRecipes(), AllMeals)
  {
    CreatorPartition(AllMeals, You);
  }

  /**
   * Six catalog entries are the user's: the four previous meals, then
   * Grilled Chicken and Oatmeal; the other six are friends' recipes.
   */
  lemma RecipeTabsOfTheCatalog()
    ensures MyRecipes() == SamplePrevious + ExtraMeals[..2]
    ensures |MyRecipes()| == 6 && |FriendRecipes()| == 6
  {
    MyRecipesOfCatalog();
    RecipesPartitionCatalog();
  }

  lemma MyRecipesOfCatalog()
    ensures MyRecipes() == SamplePrevious + ExtraMeals[..2]
  {
    OwnedPartsOfCatalog();
    OwnedByAppend(SamplePrevious, SampleRecommended, You);
    OwnedByAppend(SamplePrevious + SampleRecommended, ExtraMeals, You);
  }

  lemma OwnedPartsOfCatalog()
    ensures OwnedBy(SamplePrevious, You) == SamplePrevious
    ensures OwnedBy(SampleRecommended, You) == []
    ensures OwnedBy(ExtraMeals, You) == ExtraMeals[..2]
  {
    CatalogCreators();
    OwnedByAllOwned(SamplePrevious, You);
    OwnedByNoneOwned(SampleRecommended, You);
    var extraMine, extraOthers := ExtraMeals[..2], ExtraMeals[2..];
    assert ExtraMeals == extraMine + extraOthers;
    OwnedByAppend(extraMine, extraOthers, You);
    OwnedByAllOwned(extraMine, You);
    OwnedByNoneOwned(extraOthers, You);
  }
}
