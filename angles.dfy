/** Angle arithmetic of the free-flight camera: the modulo normalisation that
    keeps yaw, pitch and roll in degrees, the pitch clamp that keeps the camera
    from looking past vertical, and the damping that settles roll back to level.
    Java `float` values are modelled as exact `real`s. */
module Angles {

  /** Java truncates a quotient toward zero when it takes the remainder of two
      floating-point values; Dafny's `Floor` rounds down, so negative quotients
      are rounded up here. */
  function TruncateTowardZero(q: real): (t: int)
    ensures q >= 0.0 ==> t as real <= q < t as real + 1.0
    ensures q < 0.0 ==> t as real - 1.0 < q <= t as real
  {
    if q >= 0.0 then q.Floor else -((-q).Floor)
  }

  /** Java's `a % 360.0f`: the remainder keeps the sign of the dividend. */
  function Rem360(a: real): real
  {
    a - 360.0 * (TruncateTowardZero(a / 360.0) as real)
  }

  /** `(360.0f + v) % 360.0f`, the normalisation applied to every angle. */
  function Normalise(v: real): real
  {
    Rem360(360.0 + v)
  }

  /** A difference of angles that is a whole number of turns. */
  predicate WholeTurns(d: real)
  {
    (d / 360.0).Floor as real == d / 360.0
  }

  lemma WholeTurnsOf(turns: int)
    ensures WholeTurns(360.0 * turns as real)
  {
    assert (360.0 * turns as real) / 360.0 == turns as real;
  }

  /** Normalisation only ever moves an angle by a whole number of turns, and
      its result is always strictly less than one turn away from 0. A value
      already above -360 lands in [0, 360). */
  lemma NormaliseRange(v: real)
    ensures -360.0 < Normalise(v) < 360.0
    ensures v > -360.0 ==> 0.0 <= Normalise(v) < 360.0
    ensures v <= -360.0 ==> Normalise(v) <= 0.0
    ensures WholeTurns(Normalise(v) - v)
  {
    var t := TruncateTowardZero((360.0 + v) / 360.0);
    assert Normalise(v) - v == 360.0 * (1 - t) as real;
    WholeTurnsOf(1 - t);
  }

  /** An angle already in [0, 360) is left as it is. */
  lemma NormaliseIdentity(v: real)
    requires 0.0 <= v < 360.0
    ensures Normalise(v) == v
  {
    assert TruncateTowardZero((360.0 + v) / 360.0) == 1;
  }

  /** Normalising twice is the same as normalising once, for any angle that
      the first normalisation brings into [0, 360). */
  lemma NormaliseIdempotent(v: real)
    requires v > -360.0
    ensures Normalise(Normalise(v)) == Normalise(v)
  {
    NormaliseRange(v);
    NormaliseIdentity(Normalise(v));
  }

  /** Angles in (-720, -360] lie outside the bound of NormaliseRange and come
      out one turn up, in (-360, 0]: Java's `%` keeps the dividend's sign, so
      -370 becomes -10 rather than 350. */
  lemma NormaliseBelowOneTurn(v: real)
    requires -720.0 < v <= -360.0
    ensures Normalise(v) == v + 360.0
    ensures v == -370.0 ==> Normalise(v) == -10.0
  {
    assert TruncateTowardZero((360.0 + v) / 360.0) == 0;
  }

  /** The band of pitch values that would turn the camera past vertical. */
  predicate PastVertical(pitch: real)
  {
    90.0 < pitch < 270.0
  }

  /** The pitch clamp applied when free-look is off: inside (90, 180] the
      pitch becomes 90, inside (180, 270) it becomes 270. */
  function ClampPitch(pitch: real): real
  {
    if pitch > 90.0 && pitch <= 180.0 then 90.0
    else if pitch < 270.0 && pitch > 180.0 then 270.0
    else pitch
  }

  /** The clamp never leaves the pitch past vertical, keeps every pitch that
      is not past vertical, and moves a pitch that is to whichever of 90 and
      270 is nearer (a tie at 180 goes to 90). */
  lemma ClampPitchSpec(pitch: real)
    ensures !PastVertical(ClampPitch(pitch))
    ensures !PastVertical(pitch) ==> ClampPitch(pitch) == pitch
    ensures PastVertical(pitch) ==>
      (ClampPitch(pitch) == 90.0 || ClampPitch(pitch) == 270.0) &&
      Abs(ClampPitch(pitch) - pitch) <= Abs(360.0 - ClampPitch(pitch) - pitch)
    ensures 90.0 < pitch <= 180.0 ==> ClampPitch(pitch) == 90.0
    ensures 180.0 < pitch < 270.0 ==> ClampPitch(pitch) == 270.0
  {
  }

  /** Clamping an already clamped pitch changes nothing. */
  lemma ClampPitchIdempotent(pitch: real)
    ensures ClampPitch(ClampPitch(pitch)) == ClampPitch(pitch)
  {
    ClampPitchSpec(pitch);
  }

  function Abs(v: real): real
  {
    if v < 0.0 then -v else v
  }

  /** The factor by which roll decays toward level on every tick. */
  const RollDamping: real := 0.95

  /** Distance of an angle in [0, 360) from level, i.e. from the nearer of 0
      and 360. */
  function DistanceFromLevel(roll: real): real
  {
    if roll <= 180.0 then Abs(roll) else 360.0 - roll
  }

  /** The roll settle step applied when free-look is off: a roll above 180 is
      damped toward 360, any other toward 0, the result normalised again, and
      a result within 0.01 of 0 or 360 snapped to exactly 0. */
  function DampRoll(roll: real): real
  {
    var damped := if roll > 180.0 then (roll - 360.0) * RollDamping + 360.0
                  else roll * RollDamping;
    var r := Normalise(damped);
    if Abs(r) < 0.01 || Abs(r) > 359.99 then 0.0 else r
  }

  /** For every normalised roll, the settle step yields a roll in [0, 360)
      that is either exactly level or at least 0.01 away from it. */
  lemma DampRollRange(roll: real)
    requires -360.0 < roll < 360.0
    ensures 0.0 <= DampRoll(roll) < 360.0
    ensures DampRoll(roll) == 0.0 || 0.01 <= DampRoll(roll) <= 359.99
  {
    var damped := if roll > 180.0 then (roll - 360.0) * RollDamping + 360.0
                  else roll * RollDamping;
    assert damped > -360.0;
    NormaliseRange(damped);
  }

  /** For a roll in [0, 360), the settle step shrinks the distance from level
      by at least the damping factor. */
  lemma DampRollApproachesLevel(roll: real)
    requires 0.0 <= roll < 360.0
    ensures DistanceFromLevel(DampRoll(roll)) <= RollDamping * DistanceFromLevel(roll)
  {
    var damped := if roll > 180.0 then (roll - 360.0) * RollDamping + 360.0
                  else roll * RollDamping;
    assert 0.0 <= damped < 360.0;
    NormaliseIdentity(damped);
  }

  /** A roll whose damped distance from level falls below 0.01 settles to
      exactly 0 on this tick. */
  lemma DampRollSnapsToLevel(roll: real)
    requires 0.0 <= roll < 360.0
    requires RollDamping * DistanceFromLevel(roll) < 0.01
    ensures DampRoll(roll) == 0.0
  {
    var damped := if roll > 180.0 then (roll - 360.0) * RollDamping + 360.0
                  else roll * RollDamping;
    assert 0.0 <= damped < 360.0;
    NormaliseIdentity(damped);
  }

  /** Level is a fixed point of the settle step. */
  lemma DampRollKeepsLevel()
    ensures DampRoll(0.0) == 0.0
  {
    NormaliseIdentity(0.0);
  }

  /** Roll after `ticks` settle steps without roll input. */
  function SettleRoll(roll: real, ticks: nat): real
  {
    if ticks == 0 then roll else DampRoll(SettleRoll(roll, ticks - 1))
  }

  /** `distance` scaled by the damping factor `ticks` times, i.e.
      0.95^ticks * distance. */
  function Decayed(distance: real, ticks: nat): real
  {
    if ticks == 0 then distance else RollDamping * Decayed(distance, ticks - 1)
  }

  /** Geometric decay: after `ticks` settle steps the distance from level is
      at most 0.95^ticks times the starting distance, and the roll stays in
      [0, 360) throughout. */
  lemma {:induction false} SettleRollDecays(roll: real, ticks: nat)
    requires 0.0 <= roll < 360.0
    ensures 0.0 <= SettleRoll(roll, ticks) < 360.0
    ensures DistanceFromLevel(SettleRoll(roll, ticks))
         <= Decayed(DistanceFromLevel(roll), ticks)
  {
    if ticks > 0 {
      SettleRollDecays(roll, ticks - 1);
      var prev := SettleRoll(roll, ticks - 1);
      DampRollRange(prev);
      DampRollApproachesLevel(prev);
    }
  }

  /** Once level, the roll stays level however many ticks follow. */
  lemma {:induction false} SettleRollStaysLevel(ticks: nat)
    ensures SettleRoll(0.0, ticks) == 0.0
  {
    if ticks > 0 {
      SettleRollStaysLevel(ticks - 1);
      DampRollKeepsLevel();
    }
  }

  /** Damping first and then settling `ticks` more times is settling
      `ticks + 1` times. */
  lemma {:induction false} SettleRollShift(roll: real, ticks: nat)
    ensures SettleRoll(DampRoll(roll), ticks) == SettleRoll(roll, ticks + 1)
  {
    if ticks > 0 {
      SettleRollShift(roll, ticks - 1);
    }
  }

  /** Settling `a + b` times is settling `a` times and then `b` times. */
  lemma {:induction false} SettleRollSplit(roll: real, a: nat, b: nat)
    ensures SettleRoll(roll, a + b) == SettleRoll(SettleRoll(roll, a), b)
  {
    if b > 0 {
      SettleRollSplit(roll, a, b - 1);
    }
  }

  /** `distance` halved `k` times. */
  function Halved(distance: real, k: nat): real
  {
    if k == 0 then distance else Halved(distance, k - 1) / 2.0
  }

  lemma {:induction false} HalvedMonotone(d: real, e: real, k: nat)
    requires d <= e
    ensures Halved(d, k) <= Halved(e, k)
  {
    if k > 0 {
      HalvedMonotone(d, e, k - 1);
    }
  }

  lemma {:induction false} DecayedScales(distance: real, ticks: nat)
    ensures Decayed(distance, ticks) == Decayed(1.0, ticks) * distance
  {
    if ticks > 0 {
      DecayedScales(distance, ticks - 1);
    }
  }

  /** Fourteen ticks of damping at least halve the distance from level
      (0.95^14 is about 0.488). */
  lemma FourteenTicksHalve(roll: real)
    requires 0.0 <= roll < 360.0
    ensures 0.0 <= SettleRoll(roll, 14) < 360.0
    ensures DistanceFromLevel(SettleRoll(roll, 14)) <= DistanceFromLevel(roll) / 2.0
  {
    var d := DistanceFromLevel(roll);
    SettleRollDecays(roll, 14);
    DecayedScales(d, 14);
    DecayedFourteen();
    ScaleBelowHalf(Decayed(1.0, 14), d);
  }

  lemma ScaleBelowHalf(factor: real, d: real)
    requires 0.0 <= factor < 0.5 && 0.0 <= d
    ensures factor * d <= d / 2.0
  {
  }

  lemma DecayedFourteen()
    ensures 0.0 <= Decayed(1.0, 14) < 0.5
  {
  }

  /** After 14k ticks the distance from level has been halved k times. */
  lemma {:induction false} SettleRollHalves(roll: real, k: nat)
    requires 0.0 <= roll < 360.0
    ensures 0.0 <= SettleRoll(roll, 14 * k) < 360.0
    ensures DistanceFromLevel(SettleRoll(roll, 14 * k)) <= Halved(DistanceFromLevel(roll), k)
  {
    if k > 0 {
      SettleRollHalves(roll, k - 1);
      var before := SettleRoll(roll, 14 * (k - 1));
      SettleRollSplit(roll, 14 * (k - 1), 14);
      assert 14 * (k - 1) + 14 == 14 * k;
      FourteenTicksHalve(before);
    }
  }

  /** Convergence in bounded time: from any roll in [0, 360), at most 211
      ticks of damping without roll input bring the roll to exactly 0, where
      it then stays. */
  lemma SettleRollReachesLevel(roll: real, ticks: nat)
    requires 0.0 <= roll < 360.0 && ticks >= 211
    ensures SettleRoll(roll, ticks) == 0.0
  {
    SettleRollHalves(roll, 15);
    var r := SettleRoll(roll, 210);
    assert 14 * 15 == 210;
    HalvedMonotone(DistanceFromLevel(roll), 180.0, 15);
    assert Halved(180.0, 15) < 0.01;
    DampRollSnapsToLevel(r);
    SettleRollStaysLevel(ticks - 211);
    SettleRollSplit(roll, 211, ticks - 211);
  }
}
