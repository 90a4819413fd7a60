/**
 read_package: a three-entry table from workout code to class, and a call of
 that class with the package's numbers as positional arguments.
 */
module Dispatch {
  import opened Results
  import opened Workouts

  /** The classes the table can name. */
  datatype Kind = SwimmingKind | RunningKind | WalkingKind

  /** The code-to-class table of read_package. */
  const TypeDict: map<string, Kind> :=
    map["SWM" := SwimmingKind, "RUN" := RunningKind, "WLK" := WalkingKind]

  /** The number of positional arguments each class's constructor takes. */
  function Arity(k: Kind): nat {
    match k
    case SwimmingKind => 5
    case RunningKind => 3
    case WalkingKind => 4
  }

  /** The class a workout object belongs to. */
  function KindOf(w: Workout): Kind {
    match w
    case Running(_, _, _) => RunningKind
    case SportsWalking(_, _, _, _) => WalkingKind
    case Swimming(_, _, _, _, _, _) => SwimmingKind
  }

  /** The code under which the table lists a class. */
  function CodeOf(k: Kind): string {
    match k
    case SwimmingKind => "SWM"
    case RunningKind => "RUN"
    case WalkingKind => "WLK"
  }

  /** The constructor arguments of a workout, in declaration order. */
  function Fields(w: Workout): seq<real> {
    match w
    case Running(a, d, m) => [a, d, m]
    case SportsWalking(a, d, m, h) => [a, d, m, h]
    case Swimming(a, d, m, l, c, _) => [a, d, m, l, c]
  }

  /** Calling a class with exactly as many numbers as its constructor takes. */
  function Construct(k: Kind, data: seq<real>): (w: Workout)
    requires |data| == Arity(k)
    ensures KindOf(w) == k
    ensures Fields(w) == data
    ensures Uncached(w)
  {
    match k
    case SwimmingKind => Swimming(data[0], data[1], data[2], data[3], data[4], None)
    case RunningKind => Running(data[0], data[1], data[2])
    case WalkingKind => SportsWalking(data[0], data[1], data[2], data[3])
  }

  /**
   read_package: a KeyError for a code outside the table, a TypeError for a
   field count the class's constructor does not take, otherwise the workout
   whose code and constructor arguments are exactly the package.
   */
  function ReadPackage(code: string, data: seq<real>): (r: Result<Workout, Error>)
    ensures code !in TypeDict ==> r == Failure(KeyError(code))
    ensures code in TypeDict && |data| != Arity(TypeDict[code]) ==>
              r == Failure(TypeError(Arity(TypeDict[code]), |data|))
    ensures r.Success? <==> code in TypeDict && |data| == Arity(TypeDict[code])
    ensures r.Success? ==>
              && CodeOf(KindOf(r.value)) == code
              && Fields(r.value) == data
              && Uncached(r.value)
  {
    if code !in TypeDict then
      Failure(KeyError(code))
    else
      var k := TypeDict[code];
      if |data| != Arity(k) then Failure(TypeError(Arity(k), |data|))
      else Success(Construct(k, data))
  }

  /** The table and CodeOf are inverse: every class is listed once, under its own code. */
  lemma TypeDictInvertsCodeOf(k: Kind, code: string)
    ensures CodeOf(k) in TypeDict && TypeDict[CodeOf(k)] == k
    ensures code in TypeDict ==> CodeOf(TypeDict[code]) == code
  {
  }

  /** Packing a freshly constructed workout and reading the package back gives it again. */
  lemma {:induction false} ReadPackageOfFields(w: Workout)
    requires Uncached(w)
    ensures ReadPackage(CodeOf(KindOf(w)), Fields(w)) == Success(w)
  {
  }
}
