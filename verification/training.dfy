/** The workout records of the fitness tracker and their formulas: distance
    from the count of recorded actions (steps or strokes), mean speed, and
    the calories each kind of training spends.

    The Python class hierarchy (a base `Training` with `Running`,
    `SportsWalking` and `Swimming` below it) becomes one datatype with a
    constructor per class; the overridden class attributes become per-variant
    constant tables, and every method becomes a function that matches on the
    variant. All quantities are exact reals: every positional field accepts
    any number. */
module Training {
  import PyFloat

  /** One recorded workout: `action` is the number of steps or strokes,
      `duration` is in hours, `weight` in kg, `height` in cm, `lengthPool`
      in metres and `countPool` the number of pool lengths swum. */
  datatype Workout =
    | Running(action: real, duration: real, weight: real)
    | SportsWalking(action: real, duration: real, weight: real, height: real)
    | Swimming(action: real, duration: real, weight: real, lengthPool: real, countPool: real)

  // Training.LEN_STEP and Training.M_IN_KM (metres per action, metres per km)
  const TrainingLenStep: real := 0.65
  const MInKm: real := 1000.0
  // Running.coeff_calorie_1, Running.coeff_calorie_2, Running.min_in_hour
  const RunSpeedFactor: real := 18.0
  const RunSpeedShift: real := 20.0
  const MinInHour: real := 60.0
  // SportsWalking.c_c_3 and SportsWalking.c_c_5; c_c_4 == 2 is the exponent
  // of the speed, written out below as a product
  const WalkWeightFactor: real := 0.035
  const WalkHeightFactor: real := 0.029
  // Swimming.LEN_STEP, Swimming.coeff_calorie_6, Swimming.c_c_7
  const SwimmingLenStep: real := 1.38
  const SwimSpeedShift: real := 1.1
  const SwimFactor: real := 2.0

  /** The class attribute `LEN_STEP` as each variant sees it: Swimming
      overrides the inherited value. (`M_IN_KM` is 1000 in every class.) */
  function LenStep(w: Workout): (step: real)
    ensures step > 0.0
    ensures step == SwimmingLenStep <==> w.Swimming?
  {
    match w
    case Swimming(_, _, _, _, _) => SwimmingLenStep
    case _ => TrainingLenStep
  }

  /** `get_distance`, in km. Swimming's override computes the same formula
      with its own `LEN_STEP`. The contract spells the step lengths out as
      numbers, the values the class attributes hold, rather than through
      the table above. */
  function Distance(w: Workout): (km: real)
    ensures !w.Swimming? ==> km == w.action * 0.65 / 1000.0
    ensures w.Swimming? ==> km == w.action * 1.38 / 1000.0
    ensures km > 0.0 <==> w.action > 0.0
    ensures km == 0.0 <==> w.action == 0.0
  {
    w.action * LenStep(w) / MInKm
  }

  /** The divisions the formulas perform have nonzero divisors; in the
      source a zero `duration` (or, for `//`, a zero `height`) raises
      ZeroDivisionError, which nothing catches. */
  predicate Computable(w: Workout)
  {
    w.duration != 0.0 && (w.SportsWalking? ==> w.height != 0.0)
  }

  /** `get_mean_speed`, in km/h: the distance per hour for Running and
      SportsWalking; Swimming overrides it with the pool length times the
      number of lengths, per hour, ignoring the action count. */
  function MeanSpeed(w: Workout): (kmh: real)
    requires w.duration != 0.0
    ensures !w.Swimming? ==> kmh * w.duration == Distance(w)
    ensures w.Swimming? ==> kmh * w.duration * 1000.0 == w.lengthPool * w.countPool
  {
    match w
    case Swimming(_, duration, _, lengthPool, countPool) =>
      lengthPool * countPool / MInKm / duration
    case _ =>
      Distance(w) / w.duration
  }

  /** `Running.get_spent_calories`. */
  function RunningCalories(w: Workout): (kcal: real)
    requires w.Running? && w.duration != 0.0
    // eliminating the speed: 0.0117 == 18 * 0.65 / 1000 and 0.06 == 60 / 1000
    ensures kcal == (0.0117 * w.action - 20.0 * w.duration) * w.weight * 0.06
  {
    (RunSpeedFactor * MeanSpeed(w) - RunSpeedShift) * w.weight / MInKm * w.duration * MinInHour
  }

  /** `speed ** c_c_4` with the exponent `c_c_4 == 2`. */
  function SquaredSpeed(w: Workout): (sq: real)
    requires w.duration != 0.0
    ensures sq >= 0.0
    ensures sq == 0.0 <==> MeanSpeed(w) == 0.0
  {
    MeanSpeed(w) * MeanSpeed(w)
  }

  /** The number of whole `height` units in the squared mean speed, as the
      source's float floor division `speed ** 2 // height` computes it. */
  function WalkingSpeedSteps(w: Workout): (k: real)
    requires w.SportsWalking? && w.duration != 0.0 && w.height != 0.0
    ensures k == k.Floor as real
    ensures k <= SquaredSpeed(w) / w.height < k + 1.0
  {
    PyFloat.FloorDiv(SquaredSpeed(w), w.height)
  }

  /** `SportsWalking.get_spent_calories`. */
  function WalkingCalories(w: Workout): (kcal: real)
    requires w.SportsWalking? && w.duration != 0.0 && w.height != 0.0
  {
    (WalkWeightFactor * w.weight + WalkingSpeedSteps(w) * WalkHeightFactor * w.weight)
      * w.duration * MinInHour
  }

  /** `Swimming.get_spent_calories`. */
  function SwimmingCalories(w: Workout): (kcal: real)
    requires w.Swimming? && w.duration != 0.0
    // eliminating the speed: the pool distance in km plus 1.1 per hour
    ensures kcal * w.duration
            == 2.0 * w.weight * (w.lengthPool * w.countPool / 1000.0 + 1.1 * w.duration)
  {
    (MeanSpeed(w) + SwimSpeedShift) * SwimFactor * w.weight
  }

  /** `get_spent_calories`, dispatched on the variant. The base class's
      NotImplementedError has no counterpart: every variant has a formula. */
  function Calories(w: Workout): (kcal: real)
    requires Computable(w)
    ensures w.Running? ==> kcal == (0.0117 * w.action - 20.0 * w.duration) * w.weight * 0.06
    ensures w.SportsWalking? ==>
              kcal == 0.035 * w.weight * w.duration * 60.0
                      + WalkingSpeedSteps(w) * (0.029 * w.weight * w.duration * 60.0)
    ensures w.Swimming? ==>
              kcal * w.duration
              == 2.0 * w.weight * (w.lengthPool * w.countPool / 1000.0 + 1.1 * w.duration)
  {
    match w
    case Running(_, _, _) => RunningCalories(w)
    case SportsWalking(_, _, _, _) => WalkingCalories(w)
    case Swimming(_, _, _, _, _) => SwimmingCalories(w)
  }

  /** The same workout with a different action count: every other field
      and the variant are kept. */
  function WithAction(w: Workout, a: real): (v: Workout)
    ensures v.action == a
    ensures v.duration == w.duration && v.weight == w.weight
    ensures ClassName(v) == ClassName(w)
    ensures v.SportsWalking? ==> v.height == w.height
    ensures v.Swimming? ==> v.lengthPool == w.lengthPool && v.countPool == w.countPool
  {
    match w
    case Running(_, duration, weight) => Running(a, duration, weight)
    case SportsWalking(_, duration, weight, height) => SportsWalking(a, duration, weight, height)
    case Swimming(_, duration, weight, lengthPool, countPool) =>
      Swimming(a, duration, weight, lengthPool, countPool)
  }

  /** `self.__class__.__name__`, the training type shown in the summary. */
  function ClassName(w: Workout): (name: string)
    ensures name == "Running" <==> w.Running?
    ensures name == "SportsWalking" <==> w.SportsWalking?
    ensures name == "Swimming" <==> w.Swimming?
  {
    match w
    case Running(_, _, _) => "Running"
    case SportsWalking(_, _, _, _) => "SportsWalking"
    case Swimming(_, _, _, _, _) => "Swimming"
  }
}
