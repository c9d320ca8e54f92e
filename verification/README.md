# Workout calculator model

A Dafny model of the fitness tracker's workout calculator (`homework.py`).
A sensor package is a workout code and a list of positional readings. The
calculator turns it into a record of one of three training classes: Running,
SportsWalking or Swimming. From that record it computes the distance, the
mean speed and the calories spent, and it builds a summary message.

- `pyfloat.dfy` (module `PyFloat`): Python's float floor division `//`,
  which rounds the quotient down rather than towards zero.
- `training.dfy` (module `Training`): the records as one datatype with a
  constructor per class. The class constants are per-variant tables (Swimming
  overrides `LEN_STEP`). The formulas are functions that match on the variant.
  The running and swimming calorie formulas state their closed forms, with
  the speed eliminated. The walking formula keeps the floor term
  `speed ** 2 // height` (`WalkingSpeedSteps`), and
  `Formulas.WalkingCaloriesWithSteps` states it without the floor.
- `formulas.dfy` (module `Formulas`): how the formulas respond to their
  fields. This covers linearity in the action count, Swimming's independence
  from the action count, and the floor term of the walking formula.
- `info.dfy` (module `Info`): `show_training_info` and the `InfoMessage` it
  returns. A running summary determines its record whenever `18 * speed - 20`
  is not zero.
- `package.dfy` (module `Package`): `read_package`, with its three outcomes,
  and the round trip from a record to its code and readings and back.
- `samples.dfy` (module `Samples`): the three sample packages run by the
  script, with their figures, and the two error paths.

All quantities are exact reals. The model states the formulas themselves,
not their IEEE-754 rounding. A zero `duration`, or a zero `height` for
walking, makes the source raise ZeroDivisionError, and nothing catches it.
The model makes these `!= 0` preconditions. Distance and the dispatch need
no such precondition.

`read_package` has two distinct failures. The model keeps them apart:
- An unknown code fails at the dictionary lookup with a KeyError. This
  escapes to the caller. It happens whatever the readings are (`UnknownType`).
- A known code with the wrong number of readings makes the constructor raise
  TypeError. This is caught, a notice is printed and None is returned
  (`NoWorkout`).

The membership test on homework.py line 147 is an expression statement with
no effect, so it checks nothing.

## Model

| member | source | states |
|---|---|---|
| PyFloat.FloorDiv | homework.py:102 | `a // b` is the whole number q with q <= a/b < q + 1, i.e. rounding down, also for negative quotients |
| PyFloat.ModBounds | homework.py:102 | what `//` leaves over has the divisor's sign and is smaller than the divisor in magnitude |
| PyFloat.FloorDivUnique | homework.py:102 | for a positive divisor, `a // b` is the whole number n with n * b <= a < (n + 1) * b, so the quotient is fixed by multiples of the divisor alone |
| PyFloat.FloorDivBetweenMultiples | homework.py:102 | for a positive divisor, `(a // b) * b <= a < (a // b + 1) * b`; with `FloorDivUnique` this makes the bracketing by multiples an if-and-only-if |
| Training.Distance | homework.py:25-136 | distance is action * 0.65 / 1000 km for Running and SportsWalking and action * 1.38 / 1000 km for Swimming; it is positive exactly when the action count is, and zero exactly when it is |
| Training.MeanSpeed | homework.py:41-44 | for Running and SportsWalking, speed times duration is the distance; for Swimming, speed times duration times 1000 is the pool length times the number of lengths |
| Training.WalkingSpeedSteps | homework.py:101-102 | the floor term `speed ** 2 // height` is a whole number k with k <= speed² / height < k + 1 |
| Training.SquaredSpeed | homework.py:101-102 | `speed ** 2` is never negative, and is zero exactly when the mean speed is zero |
| Training.LenStep | homework.py:107-112 | Swimming, and only Swimming, replaces the inherited step length; every step length is positive |
| Training.ClassName | homework.py:52-53 | the reported training type names exactly one variant: "Running", "SportsWalking" or "Swimming" |
| Training.RunningCalories | homework.py:75-81 | running calories equal (0.0117 * action - 20 * duration) * weight * 0.06, the source formula with the speed eliminated |
| Formulas.RunningCaloriesGrowWithAction | homework.py:75-81 | for a positive weight and the same duration, more steps give strictly more running calories |
| Formulas.MeanSpeedScalesWithAction | homework.py:41-44 | for Running and SportsWalking, scaling the action count by k scales the mean speed by k |
| Formulas.SwimmingIgnoresAction | homework.py:124-136 | for Swimming, a different stroke count gives distance strokes * 1.38 / 1000 but leaves mean speed and calories unchanged |
| Training.SwimmingCalories | homework.py:129-132 | swimming calories times duration equal 2 * weight * (pool distance in km + 1.1 * duration) |
| Formulas.WalkingCaloriesWithSteps | homework.py:99-104 | when the squared speed holds n whole heights and not n + 1, walking calories are 0.035 * weight * duration * 60 plus n steps of 0.029 * weight * duration * 60 |
| Training.Calories | homework.py:75-132 | `get_spent_calories` gives each variant its own formula: the running and swimming closed forms, and for walking the weight term plus one 0.029 * weight * duration * 60 step per whole height in the squared speed; no variant is left unimplemented |
| Formulas.WalkingSlowCalories | homework.py:99-104 | with a positive height above the squared speed the floor term is 0 and walking calories are 0.035 * weight * duration * 60 |
| Info.ShowTrainingInfo | homework.py:50-58 | the summary carries the class name, the unchanged duration, and the distance, speed and calories of the same record |
| Info.SummaryConsistent | homework.py:50-58 | the reported speed times the reported duration is the reported distance, except for Swimming, where it is the pool distance |
| Info.RecoverRunningInverts | homework.py:50-81 | a running summary determines its record (steps from distance, weight from calories) whenever 18 * speed - 20 is not zero |
| Package.TrainingTypesTable | homework.py:141-145 | the code table knows exactly 'SWM', 'RUN' and 'WLK', naming Swimming, Running and SportsWalking |
| Package.CodeOf | homework.py:141-145 | every record's class is listed in the code table under the code returned |
| Package.Fields | homework.py:28-122 | a record's readings are listed in the declared parameter order (action, duration, weight, then height or pool length and lengths), one per parameter |
| Package.Arity | homework.py:68-122 | Running takes 3 readings, SportsWalking 4 and Swimming 5, so the count alone tells the classes apart |
| Package.Construct | homework.py:149 | calling the class with the readings builds a record of that class from exactly those readings when their number matches the class's parameters, and fails otherwise |
| Package.ReadPackage | homework.py:139-152 | an unknown code fails with the code whatever the readings; a known code with the wrong count yields no record; otherwise the record has that code and exactly those readings |
| Package.CodeAndFieldsDetermineRecord | homework.py:139-150 | two records with the same code and readings are equal |
| Package.ReadPackageRoundTrip | homework.py:139-150 | reading the package made of a record's code and readings gives back that record |
| Samples.SwimmingSample | homework.py:163 | ('SWM', [720, 1, 80, 25, 40]) builds the Swimming record: 0.9936 km, 1.0 km/h, 336 kcal |
| Samples.RunningSample | homework.py:164 | ('RUN', [15000, 1, 75]) builds the Running record: 9.75 km, 9.75 km/h, 699.75 kcal |
| Samples.WalkingSample | homework.py:165 | ('WLK', [9000, 1, 75, 180]) builds the SportsWalking record: 5.85 km, 5.85 km/h, 157.5 kcal |
| Samples.ErrorSamples | homework.py:147-152 | code 'XYZ' fails at the lookup even with three readings; 'RUN' with two readings and 'SWM' with four yield no record |

## Left out

- `InfoMessage.get_message` (homework.py:14-19): this renders the figures as text with three decimals. Decimal formatting of floats is not modelled.
- `main`, `print` and the script's sample loop (homework.py:155-170): these are console output. The samples' figures are stated in `Samples` instead. Calling `main` on the None from a failed package would raise AttributeError. That is not modelled.
- The notice printed when the TypeError is caught (homework.py:152): this is console output. The outcome `NoWorkout` stands for it.
- The write `type(self).notation = ...` (homework.py:52): this is a class-attribute side effect. Only the name it stores is modelled (`ClassName`).
- `Training.get_spent_calories` raising NotImplementedError (homework.py:46-48): the datatype has no bare base record, and every variant has a calorie formula.
- IEEE-754 rounding: all arithmetic is exact real arithmetic, and `//` is the mathematical floor of the quotient.
- Dynamic argument types: Python takes any object in each positional slot. The model takes real numbers only and checks just the number of readings. The `int` annotations on `action` and `count_pool` are not enforced by the source, and they are reals here.
- Division by zero: a zero duration (or zero height for walking) raises ZeroDivisionError in the source. This is a precondition of the formulas rather than an outcome.
