/** The three sample packages the program runs when started directly, and
    the figures their summaries carry. */
module Samples {
  import opened Training
  import opened Info
  import opened Package
  import Formulas

  /** `('SWM', [720, 1, 80, 25, 40])`: 1.0 km/h over the pool and 336 kcal. */
  lemma SwimmingSample()
    ensures ReadPackage("SWM", [720.0, 1.0, 80.0, 25.0, 40.0])
            == Built(Swimming(720.0, 1.0, 80.0, 25.0, 40.0))
    ensures ShowTrainingInfo(Swimming(720.0, 1.0, 80.0, 25.0, 40.0))
            == InfoMessage("Swimming", 1.0, 0.9936, 1.0, 336.0)
  {
  }

  /** `('RUN', [15000, 1, 75])`: 9.75 km at 9.75 km/h and 699.75 kcal. */
  lemma RunningSample()
    ensures ReadPackage("RUN", [15000.0, 1.0, 75.0]) == Built(Running(15000.0, 1.0, 75.0))
    ensures ShowTrainingInfo(Running(15000.0, 1.0, 75.0))
            == InfoMessage("Running", 1.0, 9.75, 9.75, 699.75)
  {
  }

  /** `('WLK', [9000, 1, 75, 180])`: 5.85 km at 5.85 km/h; 5.85 squared is
      below the height, so only the weight term counts: 157.5 kcal. */
  lemma WalkingSample()
    ensures ReadPackage("WLK", [9000.0, 1.0, 75.0, 180.0])
            == Built(SportsWalking(9000.0, 1.0, 75.0, 180.0))
    ensures ShowTrainingInfo(SportsWalking(9000.0, 1.0, 75.0, 180.0))
            == InfoMessage("SportsWalking", 1.0, 5.85, 5.85, 157.5)
  {
  }

  /** An unknown code fails at the lookup even when the readings would fit
      some class; a known code with too few readings yields no record. */
  lemma ErrorSamples()
    ensures ReadPackage("XYZ", [15000.0, 1.0, 75.0]) == UnknownType("XYZ")
    ensures ReadPackage("RUN", [15000.0, 1.0]) == NoWorkout
    ensures ReadPackage("SWM", [720.0, 1.0, 80.0, 25.0]) == NoWorkout
  {
  }
}
