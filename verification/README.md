# Workout calculator model

A Dafny model of the fitness-tracker module `homework.py`. The module turns a
workout package into an info message. A package is a three-letter code and a flat
list of numbers. The info message holds the distance in km, the mean speed in km/h
and the spent kilocalories.

- `Workouts` (workouts.dfy) holds the closed variant set `Running`, `SportsWalking`
  and `Swimming`. It also holds the class constants, and the distance, mean
  speed and calorie formulas per variant. Each calorie override states its
  result in closed form over the raw fields. It ends with `show_training_info`
  (`ShowTrainingInfo`).
- `Dispatch` (dispatch.dfy) holds `read_package`. It is the code-to-class table
  `{'SWM', 'RUN', 'WLK'}` plus a positional constructor call. It raises `KeyError`
  for an unknown code and `TypeError` for a wrong field count.
- `Properties` (properties.dfy) shows what the walking floor term counts, what
  swimming speed ignores, and the meaning of `//`. It also shows that
  `show_training_info` is stable under its own side effect.
- `Scenarios` (scenarios.dfy) holds the three demo packages, an unknown code and
  a zero walking height, each read and shown end to end.
- `Results` (results.dfy) holds `Option`, `Result`, and the Python exceptions
  the module raises.

All quantities are exact `real`s. Python does not enforce the `int` annotations,
and `*data` passes whatever numbers the list holds, so every field is a `real`.

What the code does, as modelled:

- Running calories subtract the 1.79 shift.
- Walking calories use floor division `//` of the squared km/h speed by the
  height, with no unit conversion.
- Swimming calories have no duration factor.
- Swimming distance uses the 1.38 m stroke in place of the 0.65 m step.
- The code does not validate inputs. A zero duration, or a zero walking
  height, surfaces as the `ZeroDivisionError` that Python raises.

`MeanSpeed` and the calorie functions require non-zero divisors, because Python raises
there instead of returning. `ShowTrainingInfo` is total: it returns
`ZeroDivisionError` exactly when one of those divisors is zero. This holds over
exact reals: float overflow, which Python reports as `OverflowError`, is not
modelled (see below).

## Model

| member | source | states |
|---|---|---|
| Workouts.Distance | homework.py:22-35 | distance in km times 1000 is the action count times the class's step length `LenStep` (0.65 m, or 1.38 m for swimming); it is non-negative exactly when the action count is, and zero exactly when the count is |
| Workouts.MeanSpeed | homework.py:37-39 | for running and walking, speed times duration gives the distance back; for swimming, speed times duration times 1000 is pool length times lap count |
| Workouts.MeanSpeedOverFields | homework.py:33-39 | running and walking mean speed is 0.65 m per step, in km, per hour: 0.00065 * action / duration |
| Workouts.RunningCalories | homework.py:53-60 | running calories equal (0.0117 * action - 1.79 * duration) * weight * 0.06: the duration in the speed term cancels and the 1.79 shift is subtracted |
| Workouts.WalkingCalories | homework.py:63-79 | walking calories equal (0.035 + 0.029 * k) * weight * duration * 60, where k is the floor quotient `//` of the squared raw km/h speed (0.00065 * action / duration)^2 by the height |
| Workouts.SwimmingCalories | homework.py:82-104 | swimming calories times duration equal 2.2 * weight * duration + pool length * laps * weight / 500: no duration factor beyond the one inside the speed |
| Workouts.Calories | homework.py:41-104 | get_spent_calories always runs the workout's own override, never the base version that returns None; it gives the raw-field closed form of each of the three overrides |
| Workouts.FloorDiv | homework.py:76 | Python's float `//` yields a whole number q with q <= a / b < q + 1 |
| Workouts.CacheSpeed | homework.py:96-99 | computing a swimming speed stores it on the object as `speed`; nothing else about the object changes, and non-swimming objects are untouched |
| Workouts.ShowTrainingInfo | homework.py:44-50 | over exact reals, fails with ZeroDivisionError exactly when the duration, or a walking height, is zero; otherwise gives the class name, the unchanged duration and the variant's own distance, speed and calories, and the object changes only by the swimming speed cache |
| Dispatch.Construct | homework.py:67-94 | calling a class with as many numbers as its constructor takes builds an object of that class whose fields are those numbers in order, with no cached speed |
| Dispatch.ReadPackage | homework.py:107-111 | KeyError for a code outside SWM/RUN/WLK; TypeError when the field count is not 5/3/4 respectively; otherwise success, and the object's code and constructor fields are exactly the package |
| Dispatch.TypeDictInvertsCodeOf | homework.py:108-110 | the dispatch table lists each of the three classes once, under its own code, and maps every listed code back to it |
| Dispatch.ReadPackageOfFields | homework.py:107-111 | every freshly constructed workout is what read_package returns for its own code and fields (round trip) |
| Properties.WalkSpeedTermBracket | homework.py:76 | for a positive height, the walking speed term is the whole number k with k * height <= (0.00065 * action / duration)^2 < k * height + height: km/h squared, no m/s conversion |
| Properties.FloorDivBounds | homework.py:76 | for a positive divisor b, the float floor quotient q of a satisfies q * b <= a < q * b + b |
| Properties.WalkingSlowSpeedTermVanishes | homework.py:74-79 | when the squared km/h speed is below the height, the speed term floors to 0 and a walk burns 2.1 kcal per kg and hour whatever its speed |
| Properties.SwimmingIgnoresAction | homework.py:96-99 | swimming speed and calories are unchanged by any change of the action count or of the cached speed |
| Properties.StrokeVersusStep | homework.py:82-83 | for equal action counts, swimming and running/walking distances stand in the ratio 1.38 : 0.65 |
| Properties.MeanSpeedNonNegative | homework.py:37-39 | with a positive duration and a non-negative count (or pool length times laps for swimming), mean speed is non-negative |
| Properties.InfoSpeedIsDistancePerHour | homework.py:44-50 | for running and walking, the info record's speed times its duration is its distance |
| Properties.ShowTrainingInfoStable | homework.py:44-50 | showing the info again on the object the first call left behind gives the same record and leaves the object as it is |
| Scenarios.Report | homework.py:126-128 | over exact reals, reading a package and showing it succeeds exactly when the package reads and no divisor is zero; a failed read passes on its KeyError or TypeError, a zero divisor gives ZeroDivisionError; a success is the shown info record, with the class name, the package's duration field and the workout's distance, speed and calories |
| Scenarios.DemoSwimming | homework.py:121 | the swimming demo package reports 0.9936 km, 1.0 km/h and 336 kcal |
| Scenarios.DemoRunning | homework.py:122 | the running demo package reports 9.75 km, 9.75 km/h and 781.695 kcal |
| Scenarios.DemoWalking | homework.py:123 | the walking demo package reports 5.85 km, 5.85 km/h and 157.5 kcal |
| Scenarios.UnknownCode | homework.py:107-111 | a package with code XYZ fails with KeyError whatever its fields |
| Scenarios.ZeroHeight | homework.py:67-79 | a walking package with height 0 is constructed, and showing it fails with ZeroDivisionError |

## Left out

- `InfoMessage.get_message` (homework.py:14-19) is not modelled. It formats Python floats as text, and as written it returns a tuple of strings, not one string.
- `main`, `print` and the `__main__` loop (homework.py:114-128) are output and driver code. `Scenarios.Report` models only their non-printing part: read, then show.
- IEEE-754 rounding is not modelled. Every quantity is an exact real, so the formulas hold exactly, not bit-for-bit as Python floats.
- Float range is not modelled. Python raises OverflowError when `get_mean_speed()**2` leaves the float range (homework.py:76), or when an int field too large for a float meets `self.action * self.LEN_STEP` (homework.py:34). Exact reals have no such bound, so the model has no OverflowError path.
- `self.__class__.__name__` reflection is replaced by a fixed name per variant (`Workouts.Name`).
- The base `Training` class is not a variant. Its `get_spent_calories` returns `None`, and `read_package` never constructs a bare `Training`.
- Non-numeric package fields are not modelled: a package is a sequence of reals. Python would fail on them only inside the arithmetic.
- Workouts.MeanSpeed, Workouts.Calories and its three per-variant functions require non-zero divisors instead of returning an error, because the source raises ZeroDivisionError there. The error path is modelled once, in `ShowTrainingInfo`.
- Workouts.CacheSpeed: only `show_training_info` updates the speed cache in the model. A direct call of `get_mean_speed` or `get_spent_calories` on a swimming object would set it too. The model's `MeanSpeed` and `Calories` are pure, and the cache is never read by the module.
