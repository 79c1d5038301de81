/**
 * The workout records of the fitness tracker and the formulas they expose:
 * distance, mean speed, spent calories and the summary message.
 *
 * Every quantity is an exact `real`; Python's `/` is true division, so the
 * model divides reals. The base record `Training` can be built directly, but
 * asking it for calories raises NotImplementedError in the source; here that
 * is the `None` result of `SpentCalories`.
 */
module Trainings {
  import opened Wrappers

  // Constants shared by every kind (class Training).
  const DefaultLenStep: real := 0.65
  const MInKm: real := 1000.0
  const MinInH: real := 60.0

  // class Running
  const RunSpeedMultiplier: real := 18.0
  const RunSpeedShift: real := 1.79

  // class SportsWalking
  const WalkWeightMultiplier: real := 0.035
  const WalkSpeedHeightMultiplier: real := 0.029
  const KmhInMsec: real := 0.278
  const CmInM: real := 100.0

  // class Swimming
  const SwimmingLenStep: real := 1.38
  const SwimSpeedShift: real := 1.1
  const SwimWeightMultiplier: real := 2.0

  /**
   * One workout record. `action` counts steps (strokes when swimming),
   * `duration` is in hours, `weight` in kg, `height` in cm, `lengthPool` in
   * metres and `countPool` is the number of pool lengths swum.
   */
  datatype Training =
    | Training(action: real, duration: real, weight: real)
    | Running(action: real, duration: real, weight: real)
    | SportsWalking(action: real, duration: real, weight: real, height: real)
    | Swimming(action: real, duration: real, weight: real, lengthPool: real, countPool: real)

  /** The name of the record's class, as `type(self).__name__` reports it. */
  function TypeName(t: Training): string
  {
    match t
    case Training(_, _, _) => "Training"
    case Running(_, _, _) => "Running"
    case SportsWalking(_, _, _, _) => "SportsWalking"
    case Swimming(_, _, _, _, _) => "Swimming"
  }

  /** Step length in metres: a stroke is longer than a step. */
  function LenStep(t: Training): real
  {
    if t.Swimming? then SwimmingLenStep else DefaultLenStep
  }

  /** Distance covered, in km. */
  function Distance(t: Training): real
  {
    t.action * LenStep(t) / MInKm
  }

  /** The divisions a record's formulas perform are defined. */
  predicate DivisorsNonZero(t: Training)
  {
    t.duration != 0.0 && (t.SportsWalking? ==> t.height != 0.0)
  }

  /** Mean speed in km/h; a swimmer's is taken from the pool, not from strokes. */
  function MeanSpeed(t: Training): real
    requires t.duration != 0.0
  {
    if t.Swimming? then t.lengthPool * t.countPool / MInKm / t.duration
    else Distance(t) / t.duration
  }

  /** Spent calories in kcal; `None` for the base record, which has no formula. */
  function SpentCalories(t: Training): (r: Option<real>)
    requires DivisorsNonZero(t)
    ensures r.None? <==> t.Training?
  {
    match t
    case Training(_, _, _) => None
    case Running(_, duration, weight) =>
      Some((RunSpeedMultiplier * MeanSpeed(t) + RunSpeedShift)
           * weight / MInKm * duration * MinInH)
    case SportsWalking(_, duration, weight, height) =>
      var ms := MeanSpeed(t) * KmhInMsec;
      Some((WalkWeightMultiplier * weight
            + (ms * ms) / (height / CmInM) * WalkSpeedHeightMultiplier * weight)
           * duration * MinInH)
    case Swimming(_, duration, weight, _, _) =>
      Some((MeanSpeed(t) + SwimSpeedShift) * SwimWeightMultiplier * weight * duration)
  }

  /** The summary of one workout. */
  datatype InfoMessage = InfoMessage(
    trainingType: string,
    duration: real,
    distance: real,
    speed: real,
    calories: real)

  /**
   * The summary message; `None` exactly when the source raises
   * NotImplementedError, i.e. for the base record.
   */
  function ShowTrainingInfo(t: Training): (r: Option<InfoMessage>)
    requires DivisorsNonZero(t)
    ensures r.None? <==> t.Training?
    ensures r.Some? ==>
      && r.value.trainingType == TypeName(t)
      && r.value.duration == t.duration
      && r.value.distance == Distance(t)
      && r.value.speed == MeanSpeed(t)
      && Some(r.value.calories) == SpentCalories(t)
  {
    match SpentCalories(t)
    case None => None
    case Some(calories) =>
      Some(InfoMessage(TypeName(t), t.duration, Distance(t), MeanSpeed(t), calories))
  }

  // ---------------------------------------------------------------------
  // Properties of the formulas
  // ---------------------------------------------------------------------

  /** Step length is 0.65 m on land and 1.38 m in the pool. */
  lemma DistanceByKind(t: Training)
    ensures t.Swimming? ==> Distance(t) == t.action * 1.38 / 1000.0
    ensures !t.Swimming? ==> Distance(t) == t.action * 0.65 / 1000.0
  {
  }

  /** Mean speed times duration gives back the distance it was computed from. */
  lemma SpeedTimesDuration(t: Training)
    requires t.duration != 0.0
    ensures !t.Swimming? ==> MeanSpeed(t) * t.duration == Distance(t)
    ensures t.Swimming? ==> MeanSpeed(t) * t.duration == t.lengthPool * t.countPool / 1000.0
  {
  }

  /** A swimmer's mean speed does not depend on the stroke count. */
  lemma SwimmingSpeedIgnoresAction(t: Training, action: real)
    requires t.Swimming? && t.duration != 0.0
    ensures MeanSpeed(Swimming(action, t.duration, t.weight, t.lengthPool, t.countPool)) == MeanSpeed(t)
  {
  }

  /** Running calories, with the duration divided out of the mean speed. */
  lemma RunningCaloriesClosedForm(t: Training)
    requires t.Running? && t.duration != 0.0
    ensures SpentCalories(t).value ==
      (18.0 * Distance(t) + 1.79 * t.duration) * t.weight * 60.0 / 1000.0
  {
  }

  /** Swimming calories, with the duration divided out of the mean speed. */
  lemma SwimmingCaloriesClosedForm(t: Training)
    requires t.Swimming? && t.duration != 0.0
    ensures SpentCalories(t).value ==
      2.0 * t.weight * (t.lengthPool * t.countPool / 1000.0 + 1.1 * t.duration)
  {
  }

  /** Walking burns at least the weight-only part, 0.035 kcal per kg per minute. */
  lemma WalkingCaloriesLowerBound(t: Training)
    requires t.SportsWalking? && t.duration > 0.0 && t.height > 0.0 && t.weight >= 0.0
    ensures SpentCalories(t).value >= 0.035 * t.weight * t.duration * 60.0
  {
  }

  /** Running calories are proportional to body weight. */
  lemma RunningCaloriesProportional(a: real, d: real, w: real)
    requires d != 0.0
    ensures SpentCalories(Running(a, d, w)).value == w * SpentCalories(Running(a, d, 1.0)).value
  {
  }

  /** Walking calories are proportional to body weight. */
  lemma WalkingCaloriesProportional(a: real, d: real, w: real, h: real)
    requires d != 0.0 && h != 0.0
    ensures SpentCalories(SportsWalking(a, d, w, h)).value
         == w * SpentCalories(SportsWalking(a, d, 1.0, h)).value
  {
    var v := MeanSpeed(SportsWalking(a, d, 1.0, h));
    assert MeanSpeed(SportsWalking(a, d, w, h)) == v;
    var ms := v * 0.278;
    var q := (ms * ms) / (h / 100.0) * 0.029;
    calc {
      SpentCalories(SportsWalking(a, d, w, h)).value;
      (0.035 * w + q * w) * d * 60.0;
      w * ((0.035 * 1.0 + q * 1.0) * d * 60.0);
      w * SpentCalories(SportsWalking(a, d, 1.0, h)).value;
    }
  }

  /** Swimming calories are proportional to body weight. */
  lemma SwimmingCaloriesProportional(a: real, d: real, w: real, l: real, n: real)
    requires d != 0.0
    ensures SpentCalories(Swimming(a, d, w, l, n)).value
         == w * SpentCalories(Swimming(a, d, 1.0, l, n)).value
  {
  }

  /** Every calorie formula is proportional to body weight. */
  lemma CaloriesProportionalToWeight(t: Training, w: real)
    requires DivisorsNonZero(t) && !t.Training?
    ensures SpentCalories(t.(weight := w)).value == w * SpentCalories(t.(weight := 1.0)).value
  {
    match t
    case Running(a, d, _) => RunningCaloriesProportional(a, d, w);
    case SportsWalking(a, d, _, h) => WalkingCaloriesProportional(a, d, w, h);
    case Swimming(a, d, _, l, n) => SwimmingCaloriesProportional(a, d, w, l, n);
  }
}
