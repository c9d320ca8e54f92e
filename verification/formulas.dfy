/** How the speed and calorie formulas of the workout records respond to
    their fields. The contracts spell the class constants out as numbers,
    as the source's class attributes give them. */
module Formulas {
  import PyFloat
  import opened Training

  /** Running: for a positive weight, more steps in the same time burn
      strictly more calories. */
  lemma RunningCaloriesGrowWithAction(w: Workout, fewer: real, more: real)
    requires w.Running? && w.duration != 0.0 && w.weight > 0.0
    requires fewer < more
    ensures Calories(WithAction(w, fewer)) < Calories(WithAction(w, more))
  {
  }

  /** Running and SportsWalking: over a fixed duration the mean speed is
      proportional to the action count. */
  lemma MeanSpeedScalesWithAction(w: Workout, k: real)
    requires !w.Swimming? && w.duration != 0.0
    ensures MeanSpeed(WithAction(w, k * w.action)) == k * MeanSpeed(w)
  {
  }

  /** Swimming: the action count changes the distance only; the mean speed
      and the calories depend on the pool figures, not on the strokes. */
  lemma SwimmingIgnoresAction(w: Workout, strokes: real)
    requires w.Swimming? && w.duration != 0.0
    ensures Distance(WithAction(w, strokes)) == strokes * 1.38 / 1000.0
    ensures MeanSpeed(WithAction(w, strokes)) == MeanSpeed(w)
    ensures Calories(WithAction(w, strokes)) == Calories(w)
  {
  }

  /** SportsWalking: when the squared speed holds n whole heights (and
      not n + 1), the calories are the weight term plus n height steps of
      0.029 * weight * duration * 60 kcal each. */
  lemma WalkingCaloriesWithSteps(w: Workout, n: int)
    requires w.SportsWalking? && w.duration != 0.0 && w.height > 0.0
    requires n as real * w.height <= SquaredSpeed(w) < (n as real + 1.0) * w.height
    ensures Calories(w) == 0.035 * w.weight * w.duration * 60.0
                           + n as real * (0.029 * w.weight * w.duration * 60.0)
  {
    PyFloat.FloorDivUnique(SquaredSpeed(w), w.height, n);
    assert WalkingSpeedSteps(w) == n as real;
  }

  /** SportsWalking: when the squared speed is below the height the floor
      term vanishes and only the weight term is left. */
  lemma WalkingSlowCalories(w: Workout)
    requires w.SportsWalking? && w.duration != 0.0 && w.height > 0.0
    requires SquaredSpeed(w) < w.height
    ensures Calories(w) == 0.035 * w.weight * w.duration * 60.0
  {
    WalkingCaloriesWithSteps(w, 0);
  }
}
