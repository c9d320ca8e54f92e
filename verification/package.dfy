/** `read_package`: turning a sensor package (a workout code and a list of
    positional readings) into a workout record. */
module Package {
  import opened Training

  /** The three record classes `read_package` can instantiate. */
  datatype Kind = SwimmingKind | RunningKind | WalkingKind

  /** The code table of `read_package`. */
  const TrainingTypes: map<string, Kind> :=
    map["SWM" := SwimmingKind, "RUN" := RunningKind, "WLK" := WalkingKind]

  /** The table knows exactly the three codes, each naming its own class. */
  lemma TrainingTypesTable(code: string)
    ensures code in TrainingTypes <==> code == "SWM" || code == "RUN" || code == "WLK"
    ensures code == "SWM" ==> TrainingTypes[code] == SwimmingKind
    ensures code == "RUN" ==> TrainingTypes[code] == RunningKind
    ensures code == "WLK" ==> TrainingTypes[code] == WalkingKind
  {
  }

  /** What `read_package` ends in.
      - `Built`: the record was constructed and is returned.
      - `NoWorkout`: the constructor rejected the number of readings with a
        TypeError, which `read_package` catches; it then returns None.
      - `UnknownType`: the code is not in the table; the lookup raises a
        KeyError, which is not caught and reaches the caller. */
  datatype Outcome =
    | Built(workout: Workout)
    | NoWorkout
    | UnknownType(code: string)

  /** The class of a record. */
  function KindOf(w: Workout): (k: Kind)
    ensures k == SwimmingKind <==> w.Swimming?
    ensures k == RunningKind <==> w.Running?
    ensures k == WalkingKind <==> w.SportsWalking?
  {
    match w
    case Swimming(_, _, _, _, _) => SwimmingKind
    case Running(_, _, _) => RunningKind
    case SportsWalking(_, _, _, _) => WalkingKind
  }

  /** The number of positional parameters the class's `__init__` takes:
      the three of the base class plus the class's own. Each class takes a
      different number, so the count alone tells them apart. */
  function Arity(k: Kind): (n: nat)
    ensures n >= 3
    ensures n == 3 <==> k == RunningKind
    ensures n == 4 <==> k == WalkingKind
    ensures n == 5 <==> k == SwimmingKind
  {
    match k
    case SwimmingKind => 5
    case RunningKind => 3
    case WalkingKind => 4
  }

  /** The readings of a record in the order its class declares its
      parameters: action, duration, weight, then height for SportsWalking,
      or the pool length and the number of lengths for Swimming. */
  function Fields(w: Workout): (data: seq<real>)
    ensures |data| == Arity(KindOf(w))
    ensures data[0] == w.action && data[1] == w.duration && data[2] == w.weight
    ensures w.SportsWalking? ==> data[3] == w.height
    ensures w.Swimming? ==> data[3] == w.lengthPool && data[4] == w.countPool
  {
    match w
    case Running(action, duration, weight) => [action, duration, weight]
    case SportsWalking(action, duration, weight, height) => [action, duration, weight, height]
    case Swimming(action, duration, weight, lengthPool, countPool) =>
      [action, duration, weight, lengthPool, countPool]
  }

  /** The code under which the table lists a record's class. */
  function CodeOf(w: Workout): (code: string)
    ensures code in TrainingTypes && TrainingTypes[code] == KindOf(w)
  {
    match w
    case Swimming(_, _, _, _, _) => "SWM"
    case Running(_, _, _) => "RUN"
    case SportsWalking(_, _, _, _) => "WLK"
  }

  /** `training_class(*data)`: a record of class `k` whose fields are the
      readings in order, or the caught TypeError when their number does not
      match the class's parameters. */
  function Construct(k: Kind, data: seq<real>): (r: Outcome)
    ensures !r.UnknownType?
    ensures r.Built? <==> |data| == Arity(k)
    ensures r.Built? ==> KindOf(r.workout) == k && Fields(r.workout) == data
  {
    if |data| != Arity(k) then NoWorkout
    else
      match k
      case SwimmingKind => Built(Swimming(data[0], data[1], data[2], data[3], data[4]))
      case RunningKind => Built(Running(data[0], data[1], data[2]))
      case WalkingKind => Built(SportsWalking(data[0], data[1], data[2], data[3]))
  }

  /** `read_package`. The membership test before the lookup has no effect;
      the lookup itself fails first for an unknown code, whatever the
      readings, and only then does the number of readings matter. */
  function ReadPackage(code: string, data: seq<real>): (r: Outcome)
    ensures r.UnknownType? <==> code !in TrainingTypes
    ensures r.UnknownType? ==> r.code == code
    ensures r.NoWorkout? <==> code in TrainingTypes && |data| != Arity(TrainingTypes[code])
    ensures r.Built? ==> CodeOf(r.workout) == code && Fields(r.workout) == data
  {
    if code !in TrainingTypes then UnknownType(code)
    else Construct(TrainingTypes[code], data)
  }

  /** Different records have different codes or readings. */
  lemma CodeAndFieldsDetermineRecord(v: Workout, w: Workout)
    requires CodeOf(v) == CodeOf(w) && Fields(v) == Fields(w)
    ensures v == w
  {
  }

  /** Every record is what `read_package` builds from its own code and
      readings. */
  lemma ReadPackageRoundTrip(w: Workout)
    ensures ReadPackage(CodeOf(w), Fields(w)) == Built(w)
  {
  }
}
