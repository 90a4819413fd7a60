/**
 The three workout kinds of the calculator and their formulas: distance in
 kilometres, mean speed in km/h and spent calories, plus the info record that
 bundles them. Every quantity is an exact `real`; the formulas are those of the
 code, including its quirks (the running shift is subtracted, walking uses
 floor division with no unit conversion, swimming calories have no duration
 factor).
 */
module Workouts {
  import opened Results

  /** Metres in a kilometre (Training.M_IN_KM). */
  const MetresPerKm: real := 1000.0
  /** Step length in metres of running and walking (Training.LEN_STEP). */
  const StepLength: real := 0.65
  /** Stroke length in metres of swimming (the Swimming.LEN_STEP override). */
  const StrokeLength: real := 1.38
  /** Hours-to-minutes factor written as the literal 60 in the calorie formulas. */
  const MinutesPerHour: real := 60.0

  /** Running.CALORIES_M and Running.CALORIES_S. */
  const RunSpeedFactor: real := 18.0
  const RunSpeedShift: real := 1.79

  /** SportsWalking.coef_walk and SportsWalking.coef_walk2. */
  const WalkWeightFactor: real := 0.035
  const WalkSpeedFactor: real := 0.029

  /** Swimming.coef_swim and Swimming.coef_swim2. */
  const SwimSpeedShift: real := 1.1
  const SwimWeightFactor: real := 2.0

  /**
   One workout object. The base class is never instantiated by the dispatcher,
   so the variant set is closed. `speed` is the attribute a swimming object
   gains the first time its mean speed is computed.
   */
  datatype Workout =
    | Running(action: real, duration: real, weight: real)
    | SportsWalking(action: real, duration: real, weight: real, height: real)
    | Swimming(action: real, duration: real, weight: real,
               lengthPool: real, countPool: real, speed: Option<real>)

  /** The record show_training_info builds and main prints. */
  datatype InfoMessage = InfoMessage(trainingType: string, duration: real,
                                     distance: real, speed: real, calories: real)

  /** The info record together with the workout object as it is afterwards. */
  datatype Shown = Shown(info: InfoMessage, training: Workout)

  /** The class name a workout reports. */
  function Name(w: Workout): string {
    match w
    case Running(_, _, _) => "Running"
    case SportsWalking(_, _, _, _) => "SportsWalking"
    case Swimming(_, _, _, _, _, _) => "Swimming"
  }

  /** The LEN_STEP a workout's class sees. */
  function LenStep(w: Workout): real {
    if w.Swimming? then StrokeLength else StepLength
  }

  /** A workout with no cached speed attribute, as a constructor leaves it. */
  predicate Uncached(w: Workout) {
    w.Swimming? ==> w.speed.None?
  }

  /** The same workout with any cached speed attribute dropped. */
  function Forget(w: Workout): (u: Workout)
    ensures Uncached(u)
    ensures Uncached(w) ==> u == w
  {
    if w.Swimming? then w.(speed := None) else w
  }

  /** Distance in kilometres: the action count times the step length, in metres, scaled to km. */
  function Distance(w: Workout): (km: real)
    ensures km * MetresPerKm == w.action * LenStep(w)
    ensures km >= 0.0 <==> w.action >= 0.0
    ensures km == 0.0 <==> w.action == 0.0
  {
    w.action * LenStep(w) / MetresPerKm
  }

  /**
   Mean speed in km/h. Running and walking divide the distance by the duration;
   swimming ignores the action count and uses the pool geometry instead.
   */
  function MeanSpeed(w: Workout): (kmh: real)
    requires w.duration != 0.0
    ensures !w.Swimming? ==> kmh * w.duration == Distance(w)
    ensures w.Swimming? ==> kmh * w.duration * MetresPerKm == w.lengthPool * w.countPool
  {
    match w
    case Swimming(_, duration, _, lengthPool, countPool, _) =>
      lengthPool * countPool / MetresPerKm / duration
    case _ =>
      Distance(w) / w.duration
  }

  /** Python's `//` on floats: the quotient rounded down to a whole number, kept as a real. */
  function FloorDiv(a: real, b: real): (q: real)
    requires b != 0.0
    ensures q == q.Floor as real
    ensures q <= a / b < q + 1.0
  {
    (a / b).Floor as real
  }

  /** Python's `x**2`. */
  function Square(x: real): real {
    x * x
  }

  /** The whole number of times the walking height fits into the squared mean speed. */
  function WalkSpeedTerm(w: Workout): real
    requires w.SportsWalking? && w.duration != 0.0 && w.height != 0.0
  {
    FloorDiv(Square(MeanSpeed(w)), w.height)
  }

  /** The running or walking km/h speed written over the fields: 0.65 m per step, per hour. */
  function KmhOverFields(w: Workout): real
    requires w.duration != 0.0
  {
    0.00065 * w.action / w.duration
  }

  /** Running and walking mean speed is 0.65 m per step, in km, per hour. */
  lemma MeanSpeedOverFields(w: Workout)
    requires !w.Swimming? && w.duration != 0.0
    ensures MeanSpeed(w) == KmhOverFields(w)
  {
  }

  /** The running calorie expression once speed times duration is known in steps. */
  lemma RunningArithmetic(v: real, a: real, d: real, m: real)
    requires v * d == 0.00065 * a
    ensures (18.0 * v - 1.79) * m / 1000.0 * d * 60.0 == (0.0117 * a - 1.79 * d) * m * 0.06
  {
    calc {
      (18.0 * v - 1.79) * m / 1000.0 * d * 60.0;
      (18.0 * (v * d) - 1.79 * d) * m * 0.06;
      (0.0117 * a - 1.79 * d) * m * 0.06;
    }
  }

  /**
   The walking calorie expression with the weight factored out. `k'` is the
   same number as `k` under a second name, so that the body's `WalkSpeedTerm(w)`
   and the raw-field `FloorDiv` term stay separate terms the solver can match.
   */
  lemma WalkingArithmetic(k: real, k': real, m: real, d: real)
    requires k == k'
    ensures (WalkWeightFactor * m + k * WalkSpeedFactor * m) * d * MinutesPerHour
            == (0.035 + 0.029 * k') * m * d * 60.0
  {
    assert 0.035 * m + k * 0.029 * m == (0.035 + 0.029 * k) * m;
  }

  /** The swimming calorie expression times the duration, once speed times duration is known. */
  lemma SwimmingArithmetic(v: real, d: real, m: real, l: real, c: real)
    requires v * d * 1000.0 == l * c
    ensures (v + 1.1) * 2.0 * m * d == 2.2 * m * d + l * c * m / 500.0
  {
    calc {
      (v + 1.1) * 2.0 * m * d;
      2.2 * m * d + (v * d * 1000.0) * m / 500.0;
    }
  }

  /** The divisions the calculator performs cannot all be carried out. */
  predicate DividesByZero(w: Workout) {
    w.duration == 0.0 || (w.SportsWalking? && w.height == 0.0)
  }

  /**
   Running.get_spent_calories, over the raw fields: the duration in the speed
   term cancels, leaving 18 * 0.65 / 1000 = 0.0117 per step against the 1.79
   shift per hour, which is subtracted; both are scaled by weight * 60 / 1000.
   */
  function RunningCalories(w: Workout): (kcal: real)
    requires w.Running? && w.duration != 0.0
    ensures kcal == (0.0117 * w.action - 1.79 * w.duration) * w.weight * 0.06
  {
    MeanSpeedOverFields(w);
    RunningArithmetic(MeanSpeed(w), w.action, w.duration, w.weight);
    (RunSpeedFactor * MeanSpeed(w) - RunSpeedShift) * w.weight / MetresPerKm
      * w.duration * MinutesPerHour
  }

  /**
   SportsWalking.get_spent_calories, over the raw fields: 0.035 * weight per
   minute, plus 0.029 * weight per minute for each whole time the height fits
   into the squared km/h speed 0.00065 * action / duration.
   */
  function WalkingCalories(w: Workout): (kcal: real)
    requires w.SportsWalking? && w.duration != 0.0 && w.height != 0.0
    ensures var k := FloorDiv(Square(KmhOverFields(w)), w.height);
            kcal == (0.035 + 0.029 * k) * w.weight * w.duration * 60.0
  {
    MeanSpeedOverFields(w);
    WalkingArithmetic(WalkSpeedTerm(w), FloorDiv(Square(KmhOverFields(w)), w.height),
                      w.weight, w.duration);
    (WalkWeightFactor * w.weight + WalkSpeedTerm(w) * WalkSpeedFactor * w.weight)
      * w.duration * MinutesPerHour
  }

  /**
   Swimming.get_spent_calories: times the duration, 2.2 per kilogram-hour plus
   the pool distance times twice the weight over 1000; there is no duration
   factor beyond the one inside the speed.
   */
  function SwimmingCalories(w: Workout): (kcal: real)
    requires w.Swimming? && w.duration != 0.0
    ensures kcal * w.duration
            == 2.2 * w.weight * w.duration + w.lengthPool * w.countPool * w.weight / 500.0
  {
    SwimmingArithmetic(MeanSpeed(w), w.duration, w.weight, w.lengthPool, w.countPool);
    (MeanSpeed(w) + SwimSpeedShift) * SwimWeightFactor * w.weight
  }

  /**
   get_spent_calories, dispatched to the workout's own override: the base
   class's version, which returns None, is never reached.
   */
  function Calories(w: Workout): (kcal: real)
    requires !DividesByZero(w)
    ensures w.Running? ==>
              kcal == (0.0117 * w.action - 1.79 * w.duration) * w.weight * 0.06
    ensures w.SportsWalking? ==>
              var k := FloorDiv(Square(KmhOverFields(w)), w.height);
              kcal == (0.035 + 0.029 * k) * w.weight * w.duration * 60.0
    ensures w.Swimming? ==>
              kcal * w.duration
              == 2.2 * w.weight * w.duration + w.lengthPool * w.countPool * w.weight / 500.0
  {
    match w
    case Running(_, _, _) => RunningCalories(w)
    case SportsWalking(_, _, _, _) => WalkingCalories(w)
    case Swimming(_, _, _, _, _, _) => SwimmingCalories(w)
  }

  /**
   The object after its mean speed has been computed: a swimming object now
   carries the speed attribute, the others are untouched.
   */
  function CacheSpeed(w: Workout): (after: Workout)
    requires w.duration != 0.0
    ensures Forget(after) == Forget(w)
    ensures after.Swimming? <==> w.Swimming?
    ensures after.Swimming? ==> after.speed == Some(MeanSpeed(w))
    ensures !w.Swimming? ==> after == w
  {
    if w.Swimming? then w.(speed := Some(MeanSpeed(w))) else w
  }

  /**
   show_training_info: the class name, the unchanged duration and the three
   computed quantities, or the ZeroDivisionError the computation raises.
   */
  function ShowTrainingInfo(w: Workout): (r: Result<Shown, Error>)
    ensures r.Failure? <==> DividesByZero(w)
    ensures r.Failure? ==> r.error == ZeroDivisionError
    ensures r.Success? ==>
      && r.value.info.trainingType == Name(w)
      && r.value.info.duration == w.duration
      && r.value.info.distance == Distance(w)
      && r.value.info.speed == MeanSpeed(w)
      && r.value.info.calories == Calories(w)
    ensures r.Success? ==>
      && Forget(r.value.training) == Forget(w)
      && Name(r.value.training) == Name(w)
      && (!w.Swimming? ==> r.value.training == w)
      && (w.Swimming? ==> r.value.training.speed == Some(MeanSpeed(w)))
  {
    if DividesByZero(w) then
      Failure(ZeroDivisionError)
    else
      var info := InfoMessage(Name(w), w.duration, Distance(w), MeanSpeed(w), Calories(w));
      Success(Shown(info, CacheSpeed(w)))
  }
}
