/** Properties of the workout metrics that relate several calls: how they
    move with the action count, what swimming's speed override ignores, and
    the values the three sample packages of the program yield. */
module Properties {
  import opened Results
  import opened Workouts
  import opened Dispatch

  /** For a fixed variant, duration and weight, more actions never shorten
      the distance, and strictly more actions lengthen it. */
  lemma DistanceMonotone(w: Workout, moreActions: real)
    ensures w.action <= moreActions ==> Distance(w) <= Distance(w.(action := moreActions))
    ensures w.action < moreActions ==> Distance(w) < Distance(w.(action := moreActions))
  {
  }

  /** Distance is additive in the action count: two stretches of actions
      cover the sum of their distances. */
  lemma DistanceAdditive(w: Workout, a: real, b: real)
    ensures Distance(w.(action := a + b)) == Distance(w.(action := a)) + Distance(w.(action := b))
  {
  }

  /** Swimming's speed comes from the pool geometry alone: the stroke count
      does not enter it. */
  lemma SwimmingSpeedIgnoresActions(strokes: real, otherStrokes: real, duration: real, weight: real,
                                    lengthPool: real, countPool: real)
    ensures MeanSpeed(Swimming(strokes, duration, weight, lengthPool, countPool))
            == MeanSpeed(Swimming(otherStrokes, duration, weight, lengthPool, countPool))
  {
    var w := Swimming(strokes, duration, weight, lengthPool, countPool);
    var w' := Swimming(otherStrokes, duration, weight, lengthPool, countPool);
    if duration != 0.0 {
      assert MeanSpeed(w).value * duration * 1000.0 == lengthPool * countPool;
      assert MeanSpeed(w').value * duration * 1000.0 == lengthPool * countPool;
      assert MeanSpeed(w).value == MeanSpeed(w').value;
    }
  }

  /** Swimming's speed equals the distance-based speed of the other variants
      exactly when the strokes times the stroke length cover the pools swum. */
  lemma SwimmingSpeedVersusDistance(w: Workout)
    requires w.Swimming? && w.duration != 0.0
    ensures MeanSpeed(w) == Ok(Distance(w) / w.duration)
            <==> w.action * 1.38 == w.lengthPool * w.countPool
  {
  }

  /** Swimming calories do not depend on the stroke count either. */
  lemma SwimmingCaloriesIgnoreActions(strokes: real, otherStrokes: real, duration: real, weight: real,
                                      lengthPool: real, countPool: real)
    ensures Calories(Swimming(strokes, duration, weight, lengthPool, countPool))
            == Calories(Swimming(otherStrokes, duration, weight, lengthPool, countPool))
  {
    var w := Swimming(strokes, duration, weight, lengthPool, countPool);
    var w' := Swimming(otherStrokes, duration, weight, lengthPool, countPool);
    if duration != 0.0 {
      var c := (lengthPool * countPool / 1000.0 + 1.1 * duration) * 2.0 * weight;
      assert Calories(w).value == c;
      assert Calories(w').value == c;
    }
  }

  /** For a positive duration and a non-negative weight, more steps never
      burn fewer calories while running. */
  lemma RunningCaloriesMonotone(steps: real, moreSteps: real, duration: real, weight: real)
    requires duration > 0.0 && weight >= 0.0 && steps <= moreSteps
    ensures Calories(Running(steps, duration, weight)).Ok?
    ensures Calories(Running(moreSteps, duration, weight)).Ok?
    ensures Calories(Running(steps, duration, weight)).value
            <= Calories(Running(moreSteps, duration, weight)).value
  {
  }

  /** For a positive duration and height, a non-negative weight and a
      non-negative step count, more steps never burn fewer calories while walking. */
  lemma WalkingCaloriesMonotone(steps: real, moreSteps: real, duration: real, weight: real, height: real)
    requires duration > 0.0 && height > 0.0 && weight >= 0.0 && 0.0 <= steps <= moreSteps
    ensures Calories(SportsWalking(steps, duration, weight, height)).Ok?
    ensures Calories(SportsWalking(moreSteps, duration, weight, height)).Ok?
    ensures Calories(SportsWalking(steps, duration, weight, height)).value
            <= Calories(SportsWalking(moreSteps, duration, weight, height)).value
  {
    var w := SportsWalking(steps, duration, weight, height);
    var w' := SportsWalking(moreSteps, duration, weight, height);
    assert Distance(w) * 1000.0 == steps * 0.65;
    assert Distance(w') * 1000.0 == moreSteps * 0.65;
    var d := 0.278 * Distance(w);
    var d' := 0.278 * Distance(w');
    assert 0.0 <= d <= d';
    SquareMonotone(d, d');
    var a := 2.9 * Square(d) * weight;
    var b := 2.9 * Square(d') * weight;
    assert b - a == (Square(d') - Square(d)) * (2.9 * weight);
    assert a <= b;
    var p := height * duration;
    assert p > 0.0;
    assert a / p <= b / p by {
      assert b / p - a / p == (b - a) / p;
    }
  }

  /** Squaring keeps the order of non-negative numbers. */
  lemma SquareMonotone(x: real, y: real)
    requires 0.0 <= x <= y
    ensures Square(x) <= Square(y)
  {
  }

  /** The swimming sample: 720 strokes, 1 h, 80 kg, 40 laps of a 25 m pool. */
  lemma SwimmingSample()
    ensures ReadPackage("SWM", [720.0, 1.0, 80.0, 25.0, 40.0]).Ok?
    ensures ShowTrainingInfo(ReadPackage("SWM", [720.0, 1.0, 80.0, 25.0, 40.0]).value)
            == Ok(InfoMessage("Swimming", 1.0, 0.9936, 1.0, 336.0))
  {
  }

  /** The running sample: 15000 steps, 1 h, 75 kg. */
  lemma RunningSample()
    ensures ReadPackage("RUN", [15000.0, 1.0, 75.0]).Ok?
    ensures ShowTrainingInfo(ReadPackage("RUN", [15000.0, 1.0, 75.0]).value)
            == Ok(InfoMessage("Running", 1.0, 9.75, 9.75, 797.805))
  {
  }

  /** The walking sample: 9000 steps, 1 h, 75 kg, 180 cm. */
  lemma WalkingSample()
    ensures ReadPackage("WLK", [9000.0, 1.0, 75.0, 180.0]).Ok?
    ensures ShowTrainingInfo(ReadPackage("WLK", [9000.0, 1.0, 75.0, 180.0]).value)
            == Ok(InfoMessage("SportsWalking", 1.0, 5.85, 5.85, 349.251747525))
  {
  }

  /** A code outside the table yields an error and no workout. */
  lemma UnknownCodeSample(data: seq<real>)
    ensures ReadPackage("XYZ", data) == Err(UnknownWorkoutType("XYZ"))
  {
  }

  /** Reading a package and summarising it: the summary names the class the
      code selects, keeps the duration it was given, and carries that
      workout's distance, speed and calories; it fails exactly on a zero
      duration, or a zero height for walking. */
  lemma PackageSummary(workoutType: string, data: seq<real>)
    requires ReadPackage(workoutType, data).Ok?
    ensures var w := ReadPackage(workoutType, data).value;
      var r := ShowTrainingInfo(w);
      && (r.Ok? <==> data[1] != 0.0 && (workoutType == "WLK" ==> data[3] != 0.0))
      && (r.Err? ==> r.error == DivisionByZero)
      && (r.Ok? ==>
            && r.value.trainingType == w.ClassName()
            && (workoutType == "SWM" ==> r.value.trainingType == "Swimming")
            && (workoutType == "RUN" ==> r.value.trainingType == "Running")
            && (workoutType == "WLK" ==> r.value.trainingType == "SportsWalking")
            && r.value.duration == data[1]
            && r.value.distance == Distance(w)
            && MeanSpeed(w) == Ok(r.value.speed)
            && Calories(w) == Ok(r.value.calories))
  {
  }
}
