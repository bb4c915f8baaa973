/**
 * The goal progress bars of the food logging screen (AddView.swift): a
 * completion ratio `min(current / goal, 1.0)` per nutrient, drawn as a
 * filled bar of `width * progress`. The source computes in `Double`; the
 * model computes over exact reals.
 */
module AddView {
  import opened Arith

  /** The mock intake and goals the screen shows. */
  const CurrentCalories: int := 1200
  const GoalCalories: int := 2000
  const CurrentProtein: int := 90
  const GoalProtein: int := 160
  const CurrentCarbs: int := 150
  const GoalCarbs: int := 250

  /**
   * `MacroProgressBar.progress`: the share of the goal reached, capped at
   * 1. It is 1 exactly when the goal is met, and the plain ratio up to then.
   */
  function Progress(current: real, goal: real): (r: real)
    requires goal > 0.0
    ensures r <= 1.0
    ensures current >= 0.0 ==> r >= 0.0
    ensures r == 1.0 <==> current >= goal
    ensures current <= goal ==> r * goal == current
  {
    MinReal(current / goal, 1.0)
  }

  /**
   * The width of the filled part of a bar `width` wide: in proportion to the
   * intake up to the goal, and the whole bar from the goal on.
   */
  function FilledWidth(width: real, current: real, goal: real): (filled: real)
    requires goal > 0.0
    ensures current <= goal ==> filled * goal == width * current
    ensures current >= goal ==> filled == width
  {
    width * Progress(current, goal)
  }

  /** For a fixed positive goal, more intake never shows less progress. */
  lemma ProgressMonotone(c1: real, c2: real, goal: real)
    requires goal > 0.0 && c1 <= c2
    ensures Progress(c1, goal) <= Progress(c2, goal)
  {
    DivMonotone(c1, c2, goal);
  }

  lemma DivMonotone(a: real, b: real, t: real)
    requires t > 0.0 && a <= b
    ensures a / t <= b / t
  {
    assert b / t - a / t == (b - a) / t;
  }

  /** Twice the goal shows a full bar, as does any intake past it. */
  lemma ProgressCapped(goal: real)
    requires goal > 0.0
    ensures Progress(goal * 2.0, goal) == 1.0
  {
  }

  /** With non-negative intake the filled part stays inside the bar. */
  lemma FilledWidthWithinBar(width: real, current: real, goal: real)
    requires width >= 0.0 && current >= 0.0 && goal > 0.0
    ensures 0.0 <= FilledWidth(width, current, goal) <= width
  {
    var p := Progress(current, goal);
    assert 0.0 <= p <= 1.0;
    assert width * p <= width * 1.0;
  }

  /** The three mock bars: 1200/2000 kcal, 90/160 g protein and 150/250 g carbohydrate. */
  lemma MockProgressValues()
    ensures Progress(CurrentCalories as real, GoalCalories as real) == 0.6
    ensures Progress(CurrentProtein as real, GoalProtein as real) == 0.5625
    ensures Progress(CurrentCarbs as real, GoalCarbs as real) == 0.6
  {
  }
}
