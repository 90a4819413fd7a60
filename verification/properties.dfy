/**
 Properties of the workout formulas: what the walking floor term counts,
 what the swimming speed does and does not depend on, signs, and the
 stability of show_training_info under its own side effect.
 */
module Properties {
  import opened Results
  import opened Workouts

  /**
   The walking speed term, over the raw fields: for a positive height it is the
   whole number k with k * height <= v^2 < k * height + height, where
   v = 0.00065 * action / duration is the km/h speed, with no conversion to m/s.
   */
  lemma WalkSpeedTermBracket(w: Workout)
    requires w.SportsWalking? && w.duration != 0.0 && w.height > 0.0
    ensures var sq, k := Square(KmhOverFields(w)), WalkSpeedTerm(w);
            && k == k.Floor as real
            && k * w.height <= sq < k * w.height + w.height
  {
    MeanSpeedOverFields(w);
    FloorDivBounds(Square(KmhOverFields(w)), w.height);
  }

  /**
   Python's `//` by a positive divisor: the quotient is the whole number q with
   q * b <= a < q * b + b, so the walking speed term counts the whole times the
   height fits into the squared km/h speed.
   */
  lemma FloorDivBounds(a: real, b: real)
    requires b > 0.0
    ensures FloorDiv(a, b) * b <= a
    ensures a < FloorDiv(a, b) * b + b
  {
    ScaleBracket(FloorDiv(a, b), a, b);
  }

  /** A quotient inside a unit bracket, multiplied back by its positive divisor. */
  lemma ScaleBracket(q: real, a: real, b: real)
    requires b > 0.0 && q <= a / b < q + 1.0
    ensures q * b <= a < q * b + b
  {
    QuotientAtLeast(q, a, b);
    QuotientBelow(q + 1.0, a, b);
    assert (q + 1.0) * b == q * b + b;
  }

  /** A quotient of at least q means a dividend of at least q times the positive divisor. */
  lemma QuotientAtLeast(q: real, a: real, b: real)
    requires b > 0.0 && q <= a / b
    ensures q * b <= a
  {
  }

  /** A quotient below p means a dividend below p times the positive divisor. */
  lemma QuotientBelow(p: real, a: real, b: real)
    requires b > 0.0 && a / b < p
    ensures a < p * b
  {
  }

  /**
   When the squared km/h speed is below the height the floor term is zero,
   so a walk burns 0.035 * 60 = 2.1 kcal per kilogram and hour, whatever its speed.
   */
  lemma WalkingSlowSpeedTermVanishes(w: Workout)
    requires w.SportsWalking? && w.duration != 0.0 && w.height > 0.0
    requires Square(KmhOverFields(w)) < w.height
    ensures Calories(w) == 2.1 * w.weight * w.duration
  {
  }

  /** Swimming speed and calories do not depend on the action count or on the cached speed. */
  lemma SwimmingIgnoresAction(w: Workout, action: real, cached: Option<real>)
    requires w.Swimming? && w.duration != 0.0
    ensures MeanSpeed(w.(action := action, speed := cached)) == MeanSpeed(w)
    ensures Calories(w.(action := action, speed := cached)) == Calories(w)
  {
  }

  /**
   Swimming distance uses the 1.38 m stroke while running and walking use the
   0.65 m step: for the same action count the distances stand in that ratio.
   */
  lemma StrokeVersusStep(s: Workout, r: Workout)
    requires s.Swimming? && !r.Swimming? && s.action == r.action
    ensures Distance(s) * 0.65 == Distance(r) * 1.38
  {
  }

  /** With a non-negative count and a positive duration, mean speed is non-negative. */
  lemma MeanSpeedNonNegative(w: Workout)
    requires w.duration > 0.0
    requires !w.Swimming? ==> w.action >= 0.0
    requires w.Swimming? ==> w.lengthPool * w.countPool >= 0.0
    ensures MeanSpeed(w) >= 0.0
  {
  }

  /**
   Running or walking speed, and thus the info record's speed, is the distance
   per hour: speed times duration gives the info record's distance back.
   */
  lemma InfoSpeedIsDistancePerHour(w: Workout)
    requires !w.Swimming? && ShowTrainingInfo(w).Success?
    ensures var info := ShowTrainingInfo(w).value.info;
            info.speed * info.duration == info.distance
  {
  }

  /**
   Showing the info again on the object the first call left behind reports the
   same record and leaves the object as it was: the speed cache changes nothing.
   */
  lemma ShowTrainingInfoStable(w: Workout)
    requires ShowTrainingInfo(w).Success?
    ensures var first := ShowTrainingInfo(w).value;
            var second := ShowTrainingInfo(first.training);
            && second.Success?
            && second.value.info == first.info
            && second.value.training == first.training
  {
  }
}
