# Fitness tracker workout metrics, in Dafny

This project models the computational core of a small fitness-tracker module.
It has three workout variants: running, sports walking and swimming. They share a
base training. Each variant derives three values from its raw sensor readings:

- distance in km: the action count times the step length, divided by 1000;
- mean speed in km/h: the distance over the duration, except for swimming, which
  uses the pool length times the lap count;
- calories burned, by a closed-form formula of its own.

A summary record packs the class name, the duration and these three values. A
dispatcher turns a workout code (`SWM`, `RUN`, `WLK`) and a positional list of
readings into a workout.

Modules:

- `Results` (`results.dfy`): the error kinds the model keeps (see Left out for the rest), and a `Result` type.
- `Workouts` (`workouts.dfy`): the constants, the `Workout` datatype (`Training`,
  `Running`, `SportsWalking`, `Swimming`), `Distance`, `MeanSpeed`, `Calories`,
  the `InfoMessage` record and `ShowTrainingInfo`.
- `Dispatch` (`dispatch.dfy`): the code table `WorkoutNames`, `ReadPackage`, and
  its inverse `Package`, with round-trip lemmas in both directions.
- `Properties` (`properties.dfy`): monotonicity in the action count, what the
  swimming override ignores, and the three sample packages of the program.

Every quantity is an exact `real`. All of the program's decimal constants (0.65,
1.38, 1.79, 0.278, 0.035, 0.029, 1.1) are exact rationals, so each formula is a
rational expression. The program computes with IEEE doubles, and its printed
results approximate the values defined here.

Division by zero is not excluded by a precondition. Python raises
`ZeroDivisionError` on a zero duration, or on a zero height for walking, so the
model returns `Err(DivisionByZero)` there. A negative duration does not raise in
Python, and the model accepts it too. The base training can be built, but asking
it for calories raises `NotImplementedError`; the model returns
`Err(NotImplemented)`. The summary computes the speed before the calories. So a
base training with a zero duration reports the division by zero, as the program
does.

Facts about the program the model relies on:

- `LEN_STEP` (0.65, and 1.38 for swimming) is metres per action: `get_distance`
  divides by `M_IN_KM` to get km.
- `read_package` raises a `ValueError` for an unknown code before any
  constructor runs.
- A wrong argument count is a `TypeError` from the constructor call. The model
  keeps it as an error kind of its own, `WrongArgumentCount`, apart from
  `UnknownWorkoutType`.

## Model

| member | source | states |
|---|---|---|
| Workouts.Distance | homework.py:40-42 | The distance times 1000 is the action count times 1.38 for swimming and times 0.65 for every other workout |
| Workouts.MeanSpeed | homework.py:44-46 | Covers the base method and the swimming override at homework.py:115-117. The speed exists exactly when the duration is non-zero, otherwise it is a division by zero. Speed times duration is the distance, except for swimming, where speed times duration times 1000 is pool length times lap count |
| Workouts.Calories | homework.py:48-122 | The base training has no calories (not implemented). A variant has calories exactly when the duration is non-zero and, for walking, the height is non-zero; otherwise it is a division by zero. Each variant's calories equal a closed form in distance or pool geometry and duration: running (18·dist + 1.79·dur)·weight·60/1000; walking (0.035·weight·dur + 2.9·(0.278·dist)²·weight/(height·dur))·60; swimming (pool·laps/1000 + 1.1·dur)·2·weight |
| Workouts.ShowTrainingInfo | homework.py:53-59 | The summary exists exactly for a variant with a non-zero duration and, for walking, a non-zero height. It names the class, keeps the duration, and carries that workout's distance, speed and calories. Otherwise the error is not-implemented for a base training with a non-zero duration, and a division by zero in every other case |
| Dispatch.WorkoutClass.Construct | homework.py:136 | The class accepts the data exactly when its length is the constructor's arity (5 for swimming, 3 for running, 4 for walking, from the constructors at homework.py:31-38, 84-89 and 106-113); the first three values become action, duration and weight, and the fourth and fifth become walking's height and swimming's pool length and lap count; the result is the class's own variant and never the base training; otherwise a wrong-argument-count error |
| Dispatch.ReadPackage | homework.py:125-136 | A code outside {SWM, RUN, WLK} yields exactly the unknown-type error. Each known code yields its variant with the data bound positionally when the data has that variant's arity (5, 3, 4), and a wrong-argument-count error otherwise |
| Dispatch.ReadPackageOfPackage | homework.py:132-136 | Every running, walking or swimming workout is read back unchanged from its own code and field list |
| Dispatch.PackageOfReadPackage | homework.py:132-136 | Every workout read from a package is a table variant, and its code and field list are that package: nothing is dropped or reordered |
| Properties.DistanceMonotone | homework.py:40-42 | For a fixed variant, duration and weight, more actions never shorten the distance, and strictly more actions lengthen it |
| Properties.DistanceAdditive | homework.py:40-42 | The distance of a+b actions is the sum of the distances of a and of b actions |
| Properties.SwimmingSpeedIgnoresActions | homework.py:115-117 | Swimming's mean speed is the same for any stroke count |
| Properties.SwimmingSpeedVersusDistance | homework.py:115-117 | For a non-zero duration, swimming's speed equals distance/duration exactly when strokes × 1.38 equals pool length × laps |
| Properties.SwimmingCaloriesIgnoreActions | homework.py:119-122 | Swimming's calories (or their error) are the same for any stroke count |
| Properties.RunningCaloriesMonotone | homework.py:68-73 | With a positive duration and a non-negative weight, running calories exist and never decrease as the step count grows |
| Properties.WalkingCaloriesMonotone | homework.py:91-96 | With a positive duration and height, a non-negative weight and a non-negative step count, walking calories exist and never decrease as the step count grows |
| Properties.SwimmingSample | homework.py:147 | Package SWM [720, 1, 80, 25, 40] gives Swimming, 1 h, 0.9936 km, 1.0 km/h, 336 kcal |
| Properties.RunningSample | homework.py:148 | Package RUN [15000, 1, 75] gives Running, 1 h, 9.75 km, 9.75 km/h, 797.805 kcal |
| Properties.WalkingSample | homework.py:149 | Package WLK [9000, 1, 75, 180] gives SportsWalking, 1 h, 5.85 km, 5.85 km/h, 349.251747525 kcal |
| Properties.UnknownCodeSample | homework.py:134-135 | Code XYZ yields the unknown-type error for any data |
| Properties.PackageSummary | homework.py:53-59 | For an accepted package, the summary exists exactly when the duration (data[1]) is non-zero and, for WLK, the height (data[3]) is non-zero; otherwise it is a division by zero. It names the class the code selects (SWM Swimming, RUN Running, WLK SportsWalking), keeps data[1] as the duration, and carries that workout's distance, speed and calories |

## Left out

- The message template and its `.3f` formatting (`InfoMessage.get_message`), because it is Python string formatting of IEEE floats.
- `dataclasses.asdict` and `__class__.__name__` reflection. `Workout.ClassName` returns the class name as a fixed string.
- The `main` function and the `__main__` loop over the sample packages, because they only print to standard output. Their three packages appear as the sample lemmas.
- IEEE floating-point behaviour: rounding, overflow to infinity, NaN, and Python's `OverflowError` (a square too large for a float at homework.py:93, an int too large to convert at homework.py:42, a quotient too large for a float at homework.py:116-117). Every value is an exact real, so none of these arise in the model.
- The details of Python's `TypeError` for a wrong argument list. Only a wrong argument count is modelled, as `WrongArgumentCount`; arguments of a non-numeric type are out of scope, since the data is a sequence of reals.
- The `int` annotation on the action count, because Python does not enforce it. The action count is a real.
