/**
 * The two computations of the meal detail screen (MealDetailView.swift):
 * the fat estimate derived from energy, protein and carbohydrate with the
 * Atwater factors (4 kcal/g protein and carbohydrate, 9 kcal/g fat), and
 * the macro composition bar that splits its width between protein,
 * carbohydrate and fat in proportion to their grams.
 */
module MealDetailView {
  import opened Arith
  import opened Meals

  /** Energy left for fat once protein and carbohydrate are counted at 4 kcal/g. */
  function RemainingEnergy(calories: int, protein: int, carbs: int): int {
    calories - (protein * 4 + carbs * 4)
  }

  /**
   * `MealDetailView.fat`: the remaining energy in whole grams of fat
   * (9 kcal/g), truncated as Swift's integer division does, and clamped so
   * that inconsistent data never shows a negative amount.
   */
  function EstimateFat(calories: int, protein: int, carbs: int): (fat: int)
    ensures fat >= 0
    ensures var remaining := RemainingEnergy(calories, protein, carbs);
      remaining >= 0 ==> 9 * fat <= remaining < 9 * fat + 9
    ensures fat == 0 <==> RemainingEnergy(calories, protein, carbs) < 9
  {
    var proteinCal := protein * 4;
    var carbsCal := carbs * 4;
    var remaining := calories - (proteinCal + carbsCal);
    Max(0, TruncDiv(remaining, 9))
  }

  /**
   * The fat the detail screen shows for a meal: never negative, 0 exactly
   * when less than 9 kcal are left over (the clamp included), and for a meal
   * whose protein and carbohydrate fit its energy, the whole grams of fat
   * that fit the energy left over.
   */
  function MealFat(m: Meal): (fat: int)
    ensures fat >= 0
    ensures EnergyCoversMacros(m) ==>
      9 * fat <= m.calories - 4 * (m.protein + m.carbs) < 9 * fat + 9
    ensures fat == 0 <==> m.calories - 4 * (m.protein + m.carbs) < 9
  {
    EstimateFat(m.calories, m.protein, m.carbs)
  }

  /**
   * Because of the clamp, truncating and Euclidean division give the same
   * estimate on every input, negative remaining energy included.
   */
  lemma FatAgreesWithEuclideanDivision(calories: int, protein: int, carbs: int)
    ensures EstimateFat(calories, protein, carbs)
         == Max(0, RemainingEnergy(calories, protein, carbs) / 9)
  {
    var remaining := RemainingEnergy(calories, protein, carbs);
    if remaining < 0 {
      assert remaining / 9 < 0;
    }
  }

  /** When protein and carbohydrate account for all the energy or more, the estimate is exactly 0. */
  lemma FatClampedWhenMacrosExceedEnergy(calories: int, protein: int, carbs: int)
    requires 4 * protein + 4 * carbs >= calories
    ensures EstimateFat(calories, protein, carbs) == 0
  {
  }

  /** More energy never lowers the estimate; more protein or carbohydrate never raises it. */
  lemma FatMonotone(c1: int, p1: int, k1: int, c2: int, p2: int, k2: int)
    requires c1 <= c2 && p2 <= p1 && k2 <= k1
    ensures EstimateFat(c1, p1, k1) <= EstimateFat(c2, p2, k2)
  {
    var r1 := RemainingEnergy(c1, p1, k1);
    var r2 := RemainingEnergy(c2, p2, k2);
    assert r1 <= r2;
    FatAgreesWithEuclideanDivision(c1, p1, k1);
    FatAgreesWithEuclideanDivision(c2, p2, k2);
    DivNineMonotone(r1, r2);
  }

  lemma DivNineMonotone(a: int, b: int)
    requires a <= b
    ensures a / 9 <= b / 9
  {
  }

  /** The anomalous record 100 kcal / 40 g protein / 40 g carbohydrate shows 0 g fat, not a negative amount. */
  lemma FatAnomalyExample()
    ensures EstimateFat(100, 40, 40) == 0
  {
  }

  /** Spicy Ramen (550 kcal, 20 g protein, 65 g carbohydrate) shows 23 g fat. */
  lemma SpicyRamenFat()
    ensures AllMeals[0].name == "Spicy Ramen"
    ensures MealFat(AllMeals[0]) == 23
  {
  }

  /** Which macro a segment of the composition bar stands for. */
  datatype Macro = Protein | Carbs | Fat

  /** One coloured segment: its macro and the share of the bar's width it takes. */
  datatype Segment = Segment(macro: Macro, share: real)

  /** The composition bar: a grey placeholder, or its segments from left to right. */
  datatype Bar = Placeholder | Segments(segments: seq<Segment>)

  /**
   * `MacroCompositionBar.total`: the grams the bar divides by. With
   * non-negative grams it is at least each of them, and it is positive
   * exactly when one of them is.
   */
  function Total(protein: int, carbs: int, fat: int): (total: int)
    ensures protein >= 0 && carbs >= 0 && fat >= 0 ==>
      && total >= protein && total >= carbs && total >= fat
      && (total > 0 <==> protein > 0 || carbs > 0 || fat > 0)
  {
    protein + carbs + fat
  }

  /**
   * `MacroCompositionBar`: when the total is positive, three segments in the
   * fixed order protein, carbohydrate, fat, each taking its grams' share of
   * the total; otherwise the placeholder, and nothing is divided.
   */
  function CompositionBar(protein: int, carbs: int, fat: int): (bar: Bar)
    ensures bar.Placeholder? <==> Total(protein, carbs, fat) <= 0
    ensures bar.Segments? ==>
      && |bar.segments| == 3
      && bar.segments[0].macro == Protein
      && bar.segments[1].macro == Carbs
      && bar.segments[2].macro == Fat
      && var total := Total(protein, carbs, fat) as real;
      && bar.segments[0].share * total == protein as real
      && bar.segments[1].share * total == carbs as real
      && bar.segments[2].share * total == fat as real
  {
    var total := Total(protein, carbs, fat);
    if total > 0 then
      Segments([
        Segment(Protein, protein as real / total as real),
        Segment(Carbs, carbs as real / total as real),
        Segment(Fat, fat as real / total as real)])
    else
      Placeholder
  }

  /**
   * The widths the segments are drawn at inside a bar `width` wide: nothing
   * for the placeholder, otherwise each segment's share of the width, so a
   * segment whose share lies in [0, 1] fits inside the bar.
   */
  function SegmentWidths(bar: Bar, width: real): (widths: seq<real>)
    ensures bar.Placeholder? ==> widths == []
    ensures bar.Segments? ==> |widths| == |bar.segments|
    ensures bar.Segments? ==> forall i :: 0 <= i < |widths| ==> widths[i] == width * bar.segments[i].share
    ensures bar.Segments? && width >= 0.0 ==>
      forall i :: 0 <= i < |widths| && 0.0 <= bar.segments[i].share <= 1.0 ==> 0.0 <= widths[i] <= width
  {
    match bar
    case Placeholder => []
    case Segments(segments) =>
      var widths := seq(|segments|, i requires 0 <= i < |segments| => width * segments[i].share);
      WidthsWithin(segments, width, widths);
      widths
  }

  lemma WidthsWithin(segments: seq<Segment>, width: real, widths: seq<real>)
    requires |widths| == |segments|
    requires forall i :: 0 <= i < |widths| ==> widths[i] == width * segments[i].share
    ensures width >= 0.0 ==>
      forall i :: 0 <= i < |widths| && 0.0 <= segments[i].share <= 1.0 ==> 0.0 <= widths[i] <= width
  {
    forall i | 0 <= i < |widths| && width >= 0.0 && 0.0 <= segments[i].share <= 1.0
      ensures 0.0 <= widths[i] <= width
    {
      var share := segments[i].share;
      assert widths[i] == width * share;
      ScaleWithin(width, share);
    }
  }

  lemma ScaleWithin(width: real, share: real)
    requires width >= 0.0 && 0.0 <= share <= 1.0
    ensures 0.0 <= width * share <= width
  {
    assert width * share <= width * 1.0;
  }

  /**
   * With non-negative grams and a positive total, every share lies in [0, 1]
   * and the three shares add up to exactly 1.
   */
  lemma SharesFormDistribution(protein: int, carbs: int, fat: int)
    requires protein >= 0 && carbs >= 0 && fat >= 0
    requires Total(protein, carbs, fat) > 0
    ensures var bar := CompositionBar(protein, carbs, fat);
      && bar.Segments?
      && (forall i :: 0 <= i < 3 ==> 0.0 <= bar.segments[i].share <= 1.0)
      && bar.segments[0].share + bar.segments[1].share + bar.segments[2].share == 1.0
  {
    var bar := CompositionBar(protein, carbs, fat);
    var pr, cr, fr := protein as real, carbs as real, fat as real;
    var t := pr + cr + fr;
    assert bar.segments[0].share == pr / t;
    assert bar.segments[1].share == cr / t;
    assert bar.segments[2].share == fr / t;
    SharesSumToOne(pr, cr, fr);
    ShareBounds(pr, t);
    ShareBounds(cr, t);
    ShareBounds(fr, t);
  }

  lemma SharesSumToOne(a: real, b: real, c: real)
    requires a + b + c > 0.0
    ensures a / (a + b + c) + b / (a + b + c) + c / (a + b + c) == 1.0
  {
    var t := a + b + c;
    AddFractions(a, b, t);
    AddFractions(a + b, c, t);
    assert t / t == 1.0;
  }

  lemma AddFractions(a: real, b: real, t: real)
    requires t != 0.0
    ensures a / t + b / t == (a + b) / t
  {
  }

  lemma ShareBounds(x: real, t: real)
    requires 0.0 <= x <= t && t > 0.0
    ensures 0.0 <= x / t <= 1.0
  {
  }

  /** With non-negative grams and a positive total, the segments fill the bar's width exactly. */
  lemma SegmentWidthsFillBar(protein: int, carbs: int, fat: int, width: real)
    requires protein >= 0 && carbs >= 0 && fat >= 0
    requires Total(protein, carbs, fat) > 0
    ensures var w := SegmentWidths(CompositionBar(protein, carbs, fat), width);
      |w| == 3 && w[0] + w[1] + w[2] == width
  {
    var bar := CompositionBar(protein, carbs, fat);
    SharesFormDistribution(protein, carbs, fat);
    var w := SegmentWidths(bar, width);
    assert w[0] + w[1] + w[2] == width * (bar.segments[0].share + bar.segments[1].share + bar.segments[2].share);
  }

  /**
   * With a positive total, each segment is drawn in proportion to its grams:
   * its width times the total is the bar's width times its grams.
   */
  lemma SegmentWidthsProportional(protein: int, carbs: int, fat: int, width: real)
    requires Total(protein, carbs, fat) > 0
    ensures var w := SegmentWidths(CompositionBar(protein, carbs, fat), width);
      var total := Total(protein, carbs, fat) as real;
      && |w| == 3
      && w[0] * total == width * protein as real
      && w[1] * total == width * carbs as real
      && w[2] * total == width * fat as real
  {
    var bar := CompositionBar(protein, carbs, fat);
    var total := Total(protein, carbs, fat) as real;
    WidthTimesTotal(bar, width, 0, total, protein as real);
    WidthTimesTotal(bar, width, 1, total, carbs as real);
    WidthTimesTotal(bar, width, 2, total, fat as real);
  }

  lemma WidthTimesTotal(bar: Bar, width: real, i: int, total: real, grams: real)
    requires bar.Segments? && 0 <= i < |bar.segments|
    requires bar.segments[i].share * total == grams
    ensures SegmentWidths(bar, width)[i] * total == width * grams
  {
    var share := bar.segments[i].share;
    assert SegmentWidths(bar, width)[i] == width * share;
    assert (width * share) * total == width * (share * total);
  }

  /** Spicy Ramen's bar has carbohydrate (65 g) as its widest segment, ahead of fat (23 g) and protein (20 g). */
  lemma SpicyRamenBarCarbsDominant()
    ensures var m := AllMeals[0];
      var bar := CompositionBar(m.protein, m.carbs, MealFat(m));
      && bar.Segments?
      && bar.segments[1].share > bar.segments[2].share > bar.segments[0].share
  {
    SpicyRamenFat();
  }
}
