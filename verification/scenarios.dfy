/**
 The packages of the module's demo block, read and shown end to end, plus the
 two failure paths: an unknown code and a zero walking height.
 */
module Scenarios {
  import opened Results
  import opened Workouts
  import opened Dispatch

  /** Reading a package and showing its info, the way the demo loop chains the two. */
  function Report(code: string, data: seq<real>): (r: Result<InfoMessage, Error>)
    ensures r.Success? <==>
      && ReadPackage(code, data).Success?
      && !DividesByZero(ReadPackage(code, data).value)
    ensures ReadPackage(code, data).Failure? ==> r == Failure(ReadPackage(code, data).error)
    ensures ReadPackage(code, data).Success? && DividesByZero(ReadPackage(code, data).value) ==>
              r == Failure(ZeroDivisionError)
    ensures r.Success? ==> r.value == ShowTrainingInfo(ReadPackage(code, data).value).value.info
    ensures r.Success? ==> r.value.trainingType == Name(ReadPackage(code, data).value)
    ensures r.Success? ==> r.value.duration == data[1]
  {
    match ReadPackage(code, data)
    case Failure(e) => Failure(e)
    case Success(w) =>
      match ShowTrainingInfo(w)
      case Failure(e) => Failure(e)
      case Success(shown) => Success(shown.info)
  }

  /** 720 strokes in an hour, 80 kg, 40 laps of a 25 m pool. */
  lemma DemoSwimming()
    ensures Report("SWM", [720.0, 1.0, 80.0, 25.0, 40.0])
            == Success(InfoMessage("Swimming", 1.0, 0.9936, 1.0, 336.0))
  {
  }

  /** 15000 steps in an hour at 75 kg: (18 * 9.75 - 1.79) * 75 / 1000 * 60 kcal. */
  lemma DemoRunning()
    ensures Report("RUN", [15000.0, 1.0, 75.0])
            == Success(InfoMessage("Running", 1.0, 9.75, 9.75, 781.695))
  {
  }

  /** 9000 steps in an hour, 75 kg, height 180: 5.85^2 // 180 is 0, leaving 0.035 * 75 * 60 kcal. */
  lemma DemoWalking()
    ensures Report("WLK", [9000.0, 1.0, 75.0, 180.0])
            == Success(InfoMessage("SportsWalking", 1.0, 5.85, 5.85, 157.5))
  {
  }

  /** An unknown code fails before any field is looked at. */
  lemma UnknownCode(data: seq<real>)
    ensures Report("XYZ", data) == Failure(KeyError("XYZ"))
  {
  }

  /** A zero walking height is accepted by the constructor and fails only when calories are computed. */
  lemma ZeroHeight()
    ensures ReadPackage("WLK", [9000.0, 1.0, 75.0, 0.0]).Success?
    ensures Report("WLK", [9000.0, 1.0, 75.0, 0.0]) == Failure(ZeroDivisionError)
  {
  }
}
