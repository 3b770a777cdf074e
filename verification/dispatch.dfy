/** The dispatcher: a fixed table from workout codes to workout classes, and
    the construction of a workout from a code and a positional argument list. */
module Dispatch {
  import opened Results
  import opened Workouts

  /** The classes the table can name; the base training is not among them. */
  datatype WorkoutClass = SwimmingClass | RunningClass | SportsWalkingClass {

    /** How many positional arguments the class's constructor takes. */
    function Arity(): (n: nat) {
      match this
      case SwimmingClass => 5
      case RunningClass => 3
      case SportsWalkingClass => 4
    }

    /** Calls the class's constructor with `data` bound positionally; any
        other number of arguments than the constructor takes is an error. */
    function Construct(data: seq<real>): (r: Result<Workout>)
      ensures r.Ok? <==> |data| == Arity()
      ensures r.Err? ==> r.error == WrongArgumentCount(Arity(), |data|)
      ensures r.Ok? ==> r.value.action == data[0] && r.value.duration == data[1] && r.value.weight == data[2]
      ensures r.Ok? ==> !r.value.Training?
      ensures r.Ok? ==> (r.value.Swimming? <==> SwimmingClass?) && (r.value.Running? <==> RunningClass?)
      ensures r.Ok? && SportsWalkingClass? ==> r.value.height == data[3]
      ensures r.Ok? && SwimmingClass? ==> r.value.lengthPool == data[3] && r.value.countPool == data[4]
    {
      if |data| != Arity() then Err(WrongArgumentCount(Arity(), |data|))
      else
        match this
        case SwimmingClass => Ok(Swimming(data[0], data[1], data[2], data[3], data[4]))
        case RunningClass => Ok(Running(data[0], data[1], data[2]))
        case SportsWalkingClass => Ok(SportsWalking(data[0], data[1], data[2], data[3]))
    }
  }

  /** The workout table: which code selects which class. */
  const WorkoutNames: map<string, WorkoutClass> :=
    map["SWM" := SwimmingClass, "RUN" := RunningClass, "WLK" := SportsWalkingClass]

  /** Reads one sensor package: looks the code up in the table and builds the
      class it names from the data. An unknown code is rejected before any
      construction is tried. */
  function ReadPackage(workoutType: string, data: seq<real>): (r: Result<Workout>)
    ensures workoutType !in {"SWM", "RUN", "WLK"} <==> r.Err? && r.error.UnknownWorkoutType?
    ensures workoutType !in {"SWM", "RUN", "WLK"} ==> r == Err(UnknownWorkoutType(workoutType))
    ensures workoutType == "SWM" ==>
      r == if |data| == 5 then Ok(Swimming(data[0], data[1], data[2], data[3], data[4]))
           else Err(WrongArgumentCount(5, |data|))
    ensures workoutType == "RUN" ==>
      r == if |data| == 3 then Ok(Running(data[0], data[1], data[2]))
           else Err(WrongArgumentCount(3, |data|))
    ensures workoutType == "WLK" ==>
      r == if |data| == 4 then Ok(SportsWalking(data[0], data[1], data[2], data[3]))
           else Err(WrongArgumentCount(4, |data|))
  {
    if workoutType !in WorkoutNames then Err(UnknownWorkoutType(workoutType))
    else WorkoutNames[workoutType].Construct(data)
  }

  /** The package a dispatched workout is read from: its code and its fields
      in constructor order. Only the table's classes have a code. */
  function Package(w: Workout): (p: (string, seq<real>))
    requires !w.Training?
    ensures p.0 in WorkoutNames
  {
    match w
    case Running(a, d, m) => ("RUN", [a, d, m])
    case SportsWalking(a, d, m, h) => ("WLK", [a, d, m, h])
    case Swimming(a, d, m, l, c) => ("SWM", [a, d, m, l, c])
  }

  /** Every workout of a table class is read back from its own package. */
  lemma ReadPackageOfPackage(w: Workout)
    requires !w.Training?
    ensures ReadPackage(Package(w).0, Package(w).1) == Ok(w)
  {
  }

  /** Every workout read from a package gives that package back: the
      dispatcher binds the data positionally and drops nothing. */
  lemma PackageOfReadPackage(workoutType: string, data: seq<real>)
    requires ReadPackage(workoutType, data).Ok?
    ensures !ReadPackage(workoutType, data).value.Training?
    ensures Package(ReadPackage(workoutType, data).value) == (workoutType, data)
  {
    if workoutType == "SWM" {
      assert data == [data[0], data[1], data[2], data[3], data[4]];
    } else if workoutType == "RUN" {
      assert data == [data[0], data[1], data[2]];
    } else {
      assert workoutType == "WLK";
      assert data == [data[0], data[1], data[2], data[3]];
    }
  }
}
