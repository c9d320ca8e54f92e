/** The summary a workout record reports about itself
    (`Training.show_training_info` and the `InfoMessage` it builds). The
    rendering of the message as text is not part of this model. */
module Info {
  import opened Training

  /** `InfoMessage`: the training type's name and the four figures. */
  datatype InfoMessage = InfoMessage(
    trainingType: string,
    duration: real,
    distance: real,
    speed: real,
    calories: real)

  /** `show_training_info`: the class name, the unchanged duration, and the
      distance, mean speed and calories of the same record. */
  function ShowTrainingInfo(w: Workout): (m: InfoMessage)
    requires Computable(w)
    ensures m.trainingType == ClassName(w)
    ensures m.duration == w.duration
    ensures m.distance == Distance(w) && m.speed == MeanSpeed(w) && m.calories == Calories(w)
  {
    InfoMessage(ClassName(w), w.duration, Distance(w), MeanSpeed(w), Calories(w))
  }

  /** The figures of one summary agree with each other: for Running and
      SportsWalking the reported speed times the reported duration is the
      reported distance; for Swimming it is the pool distance instead. */
  lemma SummaryConsistent(w: Workout)
    requires Computable(w)
    ensures var m := ShowTrainingInfo(w);
            (m.trainingType != "Swimming" ==> m.speed * m.duration == m.distance)
            && (m.trainingType == "Swimming" ==> m.speed * m.duration * 1000.0 == w.lengthPool * w.countPool)
  {
  }

  /** The running record a running summary was made from: the duration is
      reported as is, the step count follows from the distance, and the
      weight from the calories, provided the speed term `18 * speed - 20`
      is not zero (otherwise the calories are zero whatever the weight). */
  function RecoverRunning(m: InfoMessage): (w: Workout)
    requires m.duration != 0.0 && 18.0 * m.speed - 20.0 != 0.0
    ensures w.Running? && w.duration == m.duration
  {
    Running(m.distance * 1000.0 / 0.65, m.duration,
            m.calories / ((18.0 * m.speed - 20.0) / 1000.0 * m.duration * 60.0))
  }

  /** A running summary determines the record it was made from. */
  lemma RecoverRunningInverts(w: Workout)
    requires w.Running? && w.duration != 0.0
    requires 18.0 * MeanSpeed(w) - 20.0 != 0.0
    ensures RecoverRunning(ShowTrainingInfo(w)) == w
  {
    var m := ShowTrainingInfo(w);
    var f := (18.0 * m.speed - 20.0) / 1000.0 * m.duration * 60.0;
    NonzeroProduct((18.0 * m.speed - 20.0) / 1000.0, m.duration);
    assert f != 0.0;
    assert m.calories == f * w.weight;
    assert m.calories / f == w.weight;
    assert m.distance * 1000.0 / 0.65 == w.action;
  }

  /** A product of nonzero factors, scaled by the 60 minutes of an hour,
      is not zero. */
  lemma NonzeroProduct(a: real, b: real)
    requires a != 0.0 && b != 0.0
    ensures a * b != 0.0 && a * b * 60.0 != 0.0
  {
  }
}
