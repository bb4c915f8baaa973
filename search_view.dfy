/**
 * The search screen (SearchView.swift): the catalog filtered by the text in
 * the search field.
 */
module SearchView {
  import opened Meals
  import opened CatalogQuery

  /**
   * `SearchView.filteredMeals`: the whole catalog while the field is empty,
   * otherwise the catalog entries whose name contains the text ignoring case.
   */
  function FilteredMeals(searchText: string): (r: seq<Meal>)
    ensures |searchText| == 0 ==> r == AllMeals
    ensures forall m :: m in r <==> m in AllMeals && (|searchText| == 0 || NameMatches(m, searchText))
  {
    FilterByText(AllMeals, searchText)
  }

  /** Typing "taco" lists the catalog's "Tacos". */
  lemma TacoSearchFindsTacos()
    ensures AllMeals[1].name == "Tacos"
    ensures AllMeals[1] in FilteredMeals("taco")
  {
    TacoMatchesTacos(AllMeals[1]);
  }
}
