/**
 * The profile screen (ProfileView.swift): a week of daily intake totals,
 * the "Avg" stat cards shown beside them, and the user's own recipes.
 */
module ProfileView {
  import opened Arith
  import opened Meals
  import opened CatalogQuery
  import FoodPickerView

  /** One day's intake totals. */
  datatype DailyMacro = DailyMacro(day: string, calories: int, protein: int, carbs: int)

  /** The sample week the chart plots, Sunday first. */
  const WeeklyData: seq<DailyMacro> := [
    DailyMacro("Sun", 2100, 140, 220),
    DailyMacro("Mon", 1800, 150, 180),
    DailyMacro("Tue", 2200, 130, 250),
    DailyMacro("Wed", 1950, 160, 190),
    DailyMacro("Thu", 2000, 145, 210),
    DailyMacro("Fri", 2300, 135, 280),
    DailyMacro("Sat", 2150, 155, 230)
  ]

  /** `ProfileView.myRecipes`: the catalog entries created by "You". */
  function MyRecipes(): (r: seq<Meal>)
    ensures forall m :: m in r <==> m in AllMeals && m.creator == You
  {
    OwnedBy(AllMeals, You)
  }

  /** The profile lists the same recipes, in the same order, as the picker's "My Recipes" tab. */
  lemma MyRecipesMatchFoodPicker()
    ensures MyRecipes() == FoodPickerView.MyRecipes()
  {
  }

  /** The week has seven days, labelled Sun to Sat in order, with no negative totals. */
  lemma WeeklyDataShape()
    ensures |WeeklyData| == 7
    ensures seq(7, i requires 0 <= i < 7 => WeeklyData[i].day)
         == ["Sun", "Mon", "Tue", "Wed", "Thu", "Fri", "Sat"]
    ensures forall i :: 0 <= i < 7 ==>
      WeeklyData[i].calories >= 0 && WeeklyData[i].protein >= 0 && WeeklyData[i].carbs >= 0
  {
  }

  /** The three nutrients a stat card can average. */
  datatype Nutrient = Calories | Protein | Carbs

  function Amount(d: DailyMacro, n: Nutrient): int {
    match n
    case Calories => d.calories
    case Protein => d.protein
    case Carbs => d.carbs
  }

  /** The total of one nutrient over a series of days. */
  function Sum(series: seq<DailyMacro>, n: Nutrient): int {
    if series == [] then 0 else Amount(series[0], n) + Sum(series[1..], n)
  }

  /**
   * The mean of one nutrient over a non-empty series, in whole units and
   * truncated as Swift's `Int` division does.
   */
  function Mean(series: seq<DailyMacro>, n: Nutrient): (avg: int)
    requires |series| > 0
    ensures Sum(series, n) >= 0 ==> avg * |series| <= Sum(series, n) < avg * |series| + |series|
  {
    TruncDiv(Sum(series, n), |series|)
  }

  /** If every day's amount lies in [lo, hi], the total lies between |series|·lo and |series|·hi. */
  lemma {:induction false} SumBounds(series: seq<DailyMacro>, n: Nutrient, lo: int, hi: int)
    requires forall i :: 0 <= i < |series| ==> lo <= Amount(series[i], n) <= hi
    ensures |series| * lo <= Sum(series, n) <= |series| * hi
  {
    if series != [] {
      SumBounds(series[1..], n, lo, hi);
      assert |series| * lo == lo + (|series| - 1) * lo;
      assert |series| * hi == hi + (|series| - 1) * hi;
    }
  }

  /** When every day's amount lies in [lo, hi] (lo non-negative), the mean does too. */
  lemma MeanWithinRange(series: seq<DailyMacro>, n: Nutrient, lo: int, hi: int)
    requires |series| > 0 && 0 <= lo
    requires forall i :: 0 <= i < |series| ==> lo <= Amount(series[i], n) <= hi
    ensures lo <= Mean(series, n) <= hi
  {
    var k, s, q := |series|, Sum(series, n), Mean(series, n);
    SumBounds(series, n, lo, hi);
    assert s >= 0 by { MulNonNegative(k, lo); }
    QuotientNotBelow(q, s, k, lo);
    QuotientNotAbove(q, s, k, hi);
  }

  /** A truncated quotient of a total of at least k·lo is at least lo. */
  lemma QuotientNotBelow(q: int, s: int, k: int, lo: int)
    requires k > 0 && q * k <= s < q * k + k && k * lo <= s
    ensures lo <= q
  {
    if q < lo {
      assert (q + 1) * k == q * k + k;
      MulMonotone(q + 1, lo, k);
      assert false;
    }
  }

  /** A truncated quotient of a total of at most k·hi is at most hi. */
  lemma QuotientNotAbove(q: int, s: int, k: int, hi: int)
    requires k > 0 && q * k <= s <= k * hi
    ensures q <= hi
  {
    if q > hi {
      assert (hi + 1) * k == hi * k + k;
      MulMonotone(hi + 1, q, k);
      assert false;
    }
  }

  lemma MulNonNegative(a: int, b: int)
    requires a >= 0 && b >= 0
    ensures a * b >= 0
  {
  }

  lemma MulMonotone(a: int, b: int, k: int)
    requires a <= b && k >= 0
    ensures a * k <= b * k
  {
    assert b * k - a * k == (b - a) * k;
    MulNonNegative(b - a, k);
  }

  /** The week's totals and truncated means: 14500 kcal / 2071, 1560 g carbs / 222, 1015 g protein / 145. */
  lemma WeeklyMeans()
    ensures Sum(WeeklyData, Calories) == 14500 && Mean(WeeklyData, Calories) == 2071
    ensures Sum(WeeklyData, Carbs) == 1560 && Mean(WeeklyData, Carbs) == 222
    ensures Sum(WeeklyData, Protein) == 1015 && Mean(WeeklyData, Protein) == 145
  {
  }

  /** A stat card: its title, the number it shows and its unit. */
  datatype StatCard = StatCard(title: string, value: int, unit: string)

  /** The stat cards as the screen hard-codes them ("2,071" is shown with a thousands separator). */
  function StatCardsAsWritten(): (cards: seq<StatCard>)
    ensures |cards| == 3
    ensures cards[0].title == "Avg Calories" && cards[0].unit == "kcal"
    ensures cards[1].title == "Avg Carbs" && cards[2].title == "Avg Protein"
    ensures forall i :: 0 <= i < |cards| ==> cards[i].value > 0
  {
    [StatCard("Avg Calories", 2071, "kcal"),
     StatCard("Avg Carbs", 222, "g"),
     StatCard("Avg Protein", 155, "g")]
  }

  /** The hard-coded calorie and carbohydrate averages match the week, but the protein one does not: it says 155, the week averages 145. */
  lemma StatCardsAsWrittenMismatch()
    ensures StatCardsAsWritten()[0].value == Mean(WeeklyData, Calories)
    ensures StatCardsAsWritten()[1].value == Mean(WeeklyData, Carbs)
    ensures StatCardsAsWritten()[2].value == 155 && Mean(WeeklyData, Protein) == 145
    ensures StatCardsAsWritten()[2].value != Mean(WeeklyData, Protein)
  {
    WeeklyMeans();
  }

  /** The stat cards with their values computed from the week they sit beside. */
  function StatCards(): (cards: seq<StatCard>)
    ensures |cards| == |StatCardsAsWritten()|
    ensures forall i :: 0 <= i < |cards| ==>
      cards[i].title == StatCardsAsWritten()[i].title && cards[i].unit == StatCardsAsWritten()[i].unit
    ensures cards[0].value == Mean(WeeklyData, Calories)
    ensures cards[1].value == Mean(WeeklyData, Carbs)
    ensures cards[2].value == Mean(WeeklyData, Protein)
  {
    [StatCard("Avg Calories", Mean(WeeklyData, Calories), "kcal"),
     StatCard("Avg Carbs", Mean(WeeklyData, Carbs), "g"),
     StatCard("Avg Protein", Mean(WeeklyData, Protein), "g")]
  }

  /** The computed cards keep the two correct labels and show 145 g for protein. */
  lemma StatCardsCorrected()
    ensures StatCards()[0] == StatCardsAsWritten()[0]
    ensures StatCards()[1] == StatCardsAsWritten()[1]
    ensures StatCards()[2].value == 145
  {
    WeeklyMeans();
  }
}
