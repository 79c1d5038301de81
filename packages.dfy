/**
 * The dispatcher in front of the workout records: the closed table of
 * workout codes, `read_package`, and the error it raises.
 *
 * The source signals both failures with one exception class whose message
 * depends on the cause; here the cause is a constructor of the error value
 * and the message is computed from it.
 */
module Packages {
  import opened Wrappers
  import opened Trainings

  /** The record classes the code table can name. */
  datatype WorkoutClass = SwimmingClass | RunningClass | SportsWalkingClass

  /** The code table WORKOUTS. */
  const Workouts: map<string, WorkoutClass> :=
    map["SWM" := SwimmingClass, "RUN" := RunningClass, "WLK" := SportsWalkingClass]

  /** Number of positional arguments the class's constructor takes. */
  function Arity(c: WorkoutClass): nat
  {
    match c
    case RunningClass => 3
    case SportsWalkingClass => 4
    case SwimmingClass => 5
  }

  /** Builds a record of class `c`, assigning `data` to its fields in order. */
  function Construct(c: WorkoutClass, data: seq<real>): (t: Training)
    requires |data| == Arity(c)
  {
    match c
    case RunningClass => Running(data[0], data[1], data[2])
    case SportsWalkingClass => SportsWalking(data[0], data[1], data[2], data[3])
    case SwimmingClass => Swimming(data[0], data[1], data[2], data[3], data[4])
  }

  /** The two causes of InvalidTrainingDataError, each with the code it was given. */
  datatype InvalidTrainingDataError =
    | ArityMismatch(workoutType: string)   // the constructor raised TypeError
    | UnknownCode(workoutType: string)     // the table lookup raised KeyError

  const WrongCountPrefix: string := "Неверное кол-во аргументов для тренировки: "
  const InvalidCodePrefix: string := "Невалидный код тренировки: "

  /** The message the exception carries. */
  function Message(e: InvalidTrainingDataError): string
  {
    match e
    case ArityMismatch(code) => WrongCountPrefix + code
    case UnknownCode(code) => InvalidCodePrefix + code
  }

  /** The positional values a record was (or would be) built from. */
  function Values(t: Training): seq<real>
  {
    match t
    case Training(a, d, w) => [a, d, w]
    case Running(a, d, w) => [a, d, w]
    case SportsWalking(a, d, w, h) => [a, d, w, h]
    case Swimming(a, d, w, l, n) => [a, d, w, l, n]
  }

  /** The code under which the table lists a record's class. */
  function CodeOf(t: Training): string
    requires !t.Training?
  {
    match t
    case Running(_, _, _) => "RUN"
    case SportsWalking(_, _, _, _) => "WLK"
    case Swimming(_, _, _, _, _) => "SWM"
  }

  /**
   * read_package: look the code up, then call the class on the data.
   * An unknown code fails first; a known code with the wrong number of
   * values fails next; otherwise the record of the listed class is built
   * from exactly the given values, in order.
   */
  function ReadPackage(workoutType: string, data: seq<real>): (r: Result<Training, InvalidTrainingDataError>)
    ensures r == Failure(UnknownCode(workoutType)) <==> workoutType !in Workouts
    ensures r == Failure(ArityMismatch(workoutType))
        <==> workoutType in Workouts && |data| != Arity(Workouts[workoutType])
    ensures r.Failure? ==> r.error.workoutType == workoutType
    ensures r.Success? ==>
      && !r.value.Training?
      && CodeOf(r.value) == workoutType
      && Values(r.value) == data
  {
    if workoutType !in Workouts then Failure(UnknownCode(workoutType))
    else
      var c := Workouts[workoutType];
      if |data| != Arity(c) then Failure(ArityMismatch(workoutType))
      else Success(Construct(c, data))
  }

  // ---------------------------------------------------------------------
  // Properties of the dispatcher
  // ---------------------------------------------------------------------

  /** Every record the table can build comes back from its own code and values. */
  lemma ReadPackageRoundTrip(t: Training)
    requires !t.Training?
    ensures ReadPackage(CodeOf(t), Values(t)) == Success(t)
  {
  }

  /** The message tells the two causes apart and names the code: no two errors share one. */
  lemma {:induction false} MessageIdentifiesError(e1: InvalidTrainingDataError, e2: InvalidTrainingDataError)
    requires Message(e1) == Message(e2)
    ensures e1 == e2
  {
    var m := Message(e1);
    assert m[3] == (if e1.ArityMismatch? then 'е' else 'а');
    assert Message(e2)[3] == (if e2.ArityMismatch? then 'е' else 'а');
    var p := if e1.ArityMismatch? then WrongCountPrefix else InvalidCodePrefix;
    assert m[|p|..] == e1.workoutType;
    assert Message(e2)[|p|..] == e2.workoutType;
  }

  /**
   * A successfully read package always has a summary: the dispatcher never
   * builds the base record whose calories are not implemented, and the
   * summary is labelled with the class the code names.
   */
  lemma ReadPackageShowsInfo(workoutType: string, data: seq<real>)
    requires ReadPackage(workoutType, data).Success?
    requires DivisorsNonZero(ReadPackage(workoutType, data).value)
    ensures ShowTrainingInfo(ReadPackage(workoutType, data).value).Some?
    ensures ShowTrainingInfo(ReadPackage(workoutType, data).value).value.trainingType
         == (match Workouts[workoutType]
             case SwimmingClass => "Swimming"
             case RunningClass => "Running"
             case SportsWalkingClass => "SportsWalking")
    ensures ShowTrainingInfo(ReadPackage(workoutType, data).value).value.duration == data[1]
  {
  }
}
