/** The workout hierarchy: a base training and its three variants, each
    holding raw sensor readings and deriving distance (km), mean speed (km/h)
    and calories (kcal) from them, plus the summary record of one workout.

    Every quantity is an exact `real`; the program computes with IEEE floats,
    whose results approximate the values defined here. */
module Workouts {
  import opened Results

  // Constants of the base training.
  const LenStep: real := 0.65          // metres per step
  const MInKm: real := 1000.0
  const HourInMin: real := 60.0

  // Constants of running.
  const RunSpeedMultiplier: real := 18.0
  const RunSpeedShift: real := 1.79

  // Constants of sports walking.
  const KmhInMs: real := 0.278
  const WalkWeightCoefficient: real := 0.035
  const WalkSpeedCoefficient: real := 0.029
  const CmInM: real := 100.0

  // Constants of swimming, which also overrides the step length.
  const SwimLenStep: real := 1.38      // metres per stroke
  const SwimWeightCoefficient: real := 1.1
  const SwimSpeedCoefficient: real := 2.0

  /** A workout: the action count (steps or strokes), the duration in hours and
      the weight in kilograms, plus the height in centimetres for walking and
      the pool length in metres and the lap count for swimming. `Training` is
      the base class, which can be built but has no calorie formula. */
  datatype Workout =
    | Training(action: real, duration: real, weight: real)
    | Running(action: real, duration: real, weight: real)
    | SportsWalking(action: real, duration: real, weight: real, height: real)
    | Swimming(action: real, duration: real, weight: real, lengthPool: real, countPool: real)
  {
    /** The name of the workout's class, as the summary reports it. */
    function ClassName(): (name: string) {
      match this
      case Training(_, _, _) => "Training"
      case Running(_, _, _) => "Running"
      case SportsWalking(_, _, _, _) => "SportsWalking"
      case Swimming(_, _, _, _, _) => "Swimming"
    }
  }

  /** The distance covered by one action, in metres. */
  function StepLength(w: Workout): (len: real) {
    if w.Swimming? then SwimLenStep else LenStep
  }

  /** Distance in kilometres: the actions times the step length. */
  function Distance(w: Workout): (d: real)
    ensures w.Swimming? ==> d * 1000.0 == w.action * 1.38
    ensures !w.Swimming? ==> d * 1000.0 == w.action * 0.65
  {
    w.action * StepLength(w) / MInKm
  }

  /** Mean speed in km/h. Swimming derives it from the pool geometry; every
      other workout from the distance. A zero duration is a division by zero. */
  function MeanSpeed(w: Workout): (r: Result<real>)
    ensures r.Ok? <==> w.duration != 0.0
    ensures r.Err? ==> r.error == DivisionByZero
    ensures r.Ok? && !w.Swimming? ==> r.value * w.duration == Distance(w)
    ensures r.Ok? && w.Swimming? ==> r.value * w.duration * 1000.0 == w.lengthPool * w.countPool
  {
    if w.duration == 0.0 then Err(DivisionByZero)
    else if w.Swimming? then Ok(w.lengthPool * w.countPool / MInKm / w.duration)
    else Ok(Distance(w) / w.duration)
  }

  /** The square, written out for the `** 2` of the walking formula. */
  function Square(x: real): (sq: real) {
    x * x
  }

  /** Calories burned, by the formula of the workout's variant. The base
      training has none; a zero duration, or a zero height for walking, is a
      division by zero. */
  function Calories(w: Workout): (r: Result<real>)
    ensures w.Training? ==> r == Err(NotImplemented)
    ensures !w.Training? ==> (r.Ok? <==> w.duration != 0.0 && (w.SportsWalking? ==> w.height != 0.0))
    ensures !w.Training? && r.Err? ==> r.error == DivisionByZero
    ensures r.Ok? && w.Running? ==>
      r.value == (18.0 * Distance(w) + 1.79 * w.duration) * w.weight * 60.0 / 1000.0
    ensures r.Ok? && w.SportsWalking? ==>
      r.value == (0.035 * w.weight * w.duration
                  + 2.9 * Square(0.278 * Distance(w)) * w.weight / (w.height * w.duration)) * 60.0
    ensures r.Ok? && w.Swimming? ==>
      r.value == (w.lengthPool * w.countPool / 1000.0 + 1.1 * w.duration) * 2.0 * w.weight
  {
    match w
    case Training(_, _, _) =>
      Err(NotImplemented)
    case Running(_, duration, weight) =>
      var speed :- MeanSpeed(w);
      var c := (RunSpeedMultiplier * speed + RunSpeedShift) * weight / MInKm * (duration * HourInMin);
      Ok(c)
    case SportsWalking(_, duration, weight, height) =>
      var speed :- MeanSpeed(w);
      if height / CmInM == 0.0 then Err(DivisionByZero)
      else
        var c := (WalkWeightCoefficient * weight
                  + Square(speed * KmhInMs) / (height / CmInM) * WalkSpeedCoefficient * weight)
                 * (duration * HourInMin);
        WalkingCaloriesByDistance(w, speed);
        Ok(c)
    case Swimming(_, duration, weight, _, _) =>
      var speed :- MeanSpeed(w);
      var c := (speed + SwimWeightCoefficient) * SwimSpeedCoefficient * weight * duration;
      Ok(c)
  }

  /** Walking calories rewritten with the distance in place of speed × duration. */
  lemma WalkingCaloriesByDistance(w: Workout, speed: real)
    requires w.SportsWalking? && w.duration != 0.0 && w.height != 0.0
    requires speed * w.duration == Distance(w)
    ensures (WalkWeightCoefficient * w.weight
             + Square(speed * KmhInMs) / (w.height / CmInM) * WalkSpeedCoefficient * w.weight)
            * (w.duration * HourInMin)
            == (0.035 * w.weight * w.duration
                + 2.9 * Square(0.278 * Distance(w)) * w.weight / (w.height * w.duration)) * 60.0
  {
  }

  /** The summary of one workout, handed to the message formatter. */
  datatype InfoMessage = InfoMessage(
    trainingType: string,
    duration: real,
    distance: real,
    speed: real,
    calories: real)

  /** The summary of a workout: its class name, its duration, and its derived
      distance, speed and calories. The speed is computed before the calories,
      so a zero duration reports a division by zero even for the base training. */
  function ShowTrainingInfo(w: Workout): (r: Result<InfoMessage>)
    ensures r.Ok? <==> !w.Training? && w.duration != 0.0 && (w.SportsWalking? ==> w.height != 0.0)
    ensures r.Err? ==> r.error == (if w.Training? && w.duration != 0.0 then NotImplemented else DivisionByZero)
    ensures r.Ok? ==>
      && r.value.trainingType == w.ClassName()
      && r.value.duration == w.duration
      && r.value.distance == Distance(w)
      && MeanSpeed(w) == Ok(r.value.speed)
      && Calories(w) == Ok(r.value.calories)
  {
    var distance := Distance(w);
    var speed :- MeanSpeed(w);
    var calories :- Calories(w);
    Ok(InfoMessage(w.ClassName(), w.duration, distance, speed, calories))
  }
}
