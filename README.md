# Fitness tracker: workout records and package dispatcher

A Dafny model of the calculation core of a small fitness tracker
(`tracker.py`). Sensor packages arrive as a workout code (`SWM`, `RUN`,
`WLK`) and a list of numbers. `read_package` looks the code up in the closed
table `WORKOUTS` and builds a Swimming, Running or SportsWalking record from
the numbers, in order. A code outside the table, or the wrong number of
values for a known code, raises `InvalidTrainingDataError`. Each record
exposes its distance (km), mean speed (km/h) and spent calories (kcal).
`show_training_info` collects these, with the class name and the duration,
into an `InfoMessage`.

The model is pure: records and messages are datatypes, and every accessor is a
function.

- `wrappers.dfy` (`Wrappers`): `Option` and `Result`.
- `trainings.dfy` (`Trainings`): the constants of each class and the
  `Training` datatype, with one constructor per class, the base class
  included. It also holds `Distance`, `MeanSpeed`, `SpentCalories`,
  `InfoMessage`, `ShowTrainingInfo` and the lemmas about the formulas.
- `packages.dfy` (`Packages`): the `Workouts` table and the arity of each class.
  It also holds `ReadPackage`, the error datatype `InvalidTrainingDataError`
  with its `Message`, the inverse pair `CodeOf`/`Values`, and the lemmas
  about the dispatcher.
- `scenarios.dfy` (`Scenarios`): the three packages of `test.py`, with their
  exact results and the three-decimal figures the expected messages show.
  It also has the two rejected packages.

Modelling decisions:

- All quantities are `real`. Python's `/` is true division, so the constants
  0.65, 1.38, 0.035, 0.278 and the rest are exact. Python's type hints
  declare `action`, `length_pool` and `count_pool` as `int`, but
  `read_package` passes whatever numbers the package holds, so these fields
  are `real` as well.
- The base class `Training` can be built directly. Its
  `get_spent_calories` raises `NotImplementedError`. Here `SpentCalories`
  and `ShowTrainingInfo` return `None` exactly for that record.
  `ReadPackage` never builds it.
- The exception is a datatype with two causes, and each cause carries the code:
  - `ArityMismatch` is the source's `TypeError` branch.
  - `UnknownCode` is the `KeyError` branch.

  `Message` gives the text the source puts in the exception, in its
  original Russian wording. The docstring of `read_package`
  (tracker.py:225-227) swaps the two causes. The model follows the code at
  tracker.py:34-40: a wrong argument count gives the "Неверное кол-во
  аргументов" message, and an unknown code gives "Невалидный код".
- The source does not check for a zero duration or a zero height. Each
  division is guarded by a precondition instead, `DivisorsNonZero`:
  duration must be non-zero, and for walking, height must be non-zero too.
  The source would raise `ZeroDivisionError` there.
- Every accessor is a function, so `show_training_info` gives equal
  results on every call and changes no field.
- `Distance`, `MeanSpeed`, `LenStep`, `TypeName`, `Message`, `Values`,
  `CodeOf`, `Construct` and `Arity` have no contract of their own. The
  lemmas below state their properties.

## Model

| member | source | states |
|---|---|---|
| `Trainings.SpentCalories` | tracker.py:77-84 | there is no calorie figure exactly for the base `Training` record, which raises NotImplementedError; every subclass has one |
| `Trainings.ShowTrainingInfo` | tracker.py:86-98 | the summary exists exactly when calories do; it carries the class name, the unchanged duration, and the record's distance, mean speed and calories |
| `Trainings.DistanceByKind` | tracker.py:47-67 | distance is action × step length / 1000, where the step is 0.65 m on land and 1.38 m for a swimming stroke (override at tracker.py:167) |
| `Trainings.SpeedTimesDuration` | tracker.py:69-75 | on land, mean speed × duration gives back the distance; for swimming it gives the pool distance length_pool × count_pool / 1000 (tracker.py:183-191) |
| `Trainings.SwimmingSpeedIgnoresAction` | tracker.py:183-191 | a swimmer's mean speed does not depend on the stroke count |
| `Trainings.RunningCaloriesClosedForm` | tracker.py:107-122 | running calories equal (18 × distance + 1.79 × duration) × weight × 60 / 1000, the source formula with the duration divided out of the speed |
| `Trainings.SwimmingCaloriesClosedForm` | tracker.py:193-204 | swimming calories equal 2 × weight × (pool distance + 1.1 × duration) |
| `Trainings.WalkingCaloriesLowerBound` | tracker.py:143-161 | with positive duration and height and non-negative weight, walking burns at least the weight-only term 0.035 × weight × duration × 60 |
| `Trainings.RunningCaloriesProportional` | tracker.py:113-122 | running calories scale linearly with body weight |
| `Trainings.WalkingCaloriesProportional` | tracker.py:149-161 | walking calories scale linearly with body weight |
| `Trainings.SwimmingCaloriesProportional` | tracker.py:199-204 | swimming calories scale linearly with body weight |
| `Trainings.CaloriesProportionalToWeight` | tracker.py:101-204 | for every workout class, calories at weight w are w times the calories at weight 1 |
| `Packages.ReadPackage` | tracker.py:207-232 | an unknown code fails with UnknownCode if and only if the code is not in the table. A known code with the wrong number of values fails with ArityMismatch if and only if the count is wrong (RUN 3, WLK 4, SWM 5). Every error carries the given code. A success is never the base record, and its code and positional values are exactly the inputs |
| `Packages.ReadPackageRoundTrip` | tracker.py:207-230 | any Running, SportsWalking or Swimming record is read back unchanged from its own code and its fields in constructor order |
| `Packages.MessageIdentifiesError` | tracker.py:31-41 | two exceptions with the same message have the same cause and the same code |
| `Packages.ReadPackageShowsInfo` | tracker.py:84-98 | a record returned by read_package always has a summary (the calories call of the base class is unreachable), labelled with the class the code names and carrying data[1] as duration |
| `Scenarios.SwimmingScenario` | test.py:9-18 | SWM [720, 1, 80, 25, 40] gives exactly 0.9936 km, 1.0 km/h and 336.0 kcal, which show as 0.994, 1.000 and 336.000 |
| `Scenarios.RunningScenario` | test.py:19-28 | RUN [1206, 12, 6] gives exactly 0.7839 km, 0.065325 km/h and 12.812472 kcal, which show as 0.784, 0.065 and 12.812 |
| `Scenarios.WalkingScenario` | test.py:29-38 | WLK [9000, 1, 75, 180] gives exactly 5.85 km, 5.85 km/h and 349.251747525 kcal, which show as 5.850, 5.850 and 349.252 |
| `Scenarios.RejectedScenarios` | tracker.py:229-232 | code XYZ fails as an unknown code, and RUN with two values fails as an argument-count error, each naming its code |

## Left out

- `InfoMessage.get_message` (tracker.py:15-28): the fixed-format string with
  three decimals. Only the numeric side is modelled, by `Scenarios.ShowsAs`
  (round to nearest, ties not considered). The decimal text itself is not built.
- IEEE-754 floating point. The model computes with exact reals, so it does not
  reproduce rounding in the last binary digit.
- Division by zero: a zero duration, or a zero height for walking, is excluded
  by precondition. It is not modelled as the `ZeroDivisionError` the source
  would raise.
- `main` and the `__main__` driver loop (tracker.py:235-252): printing and a
  fixed list of packages.
- Python exception machinery: the `isinstance` test, `super().__init__`, and
  `TypeError`s from data that is not a sequence of numbers. Packages are
  `seq<real>`.
