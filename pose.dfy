/** Limb angles chosen each tick: a walk cycle while moving, an idle sway when standing
    with the ball at hand, and nothing while the ball is in the air. */
module Pose {

  /** Rotation about x of each limb of the character's skin. */
  datatype Limbs = Limbs(leftArm: real, rightArm: real, leftLeg: real, rightLeg: real)

  const WalkAmplitude: real := 0.8
  const LegRatio: real := 0.7
  const IdleAmplitude: real := 0.15

  /** The limb angles after the pose step, given whether the character moved this tick,
      whether the ball is in flight, and the two sinusoid values of the wall clock
      (`walkSin` drives the walk, `idleSin` the sway). */
  function PoseAfter(current: Limbs, moving: bool, thrown: bool, walkSin: real, idleSin: real): (r: Limbs)
    ensures !moving && thrown ==> r == current
    ensures moving || !thrown ==> r.rightArm == -r.leftArm && r.rightLeg == -r.leftLeg
    ensures !moving && !thrown ==> r.leftLeg == 0.0
  {
    if moving then
      var step := walkSin * WalkAmplitude;
      Limbs(step, -step, -step * LegRatio, step * LegRatio)
    else if !thrown then
      var idle := idleSin * IdleAmplitude;
      Limbs(idle, -idle, 0.0, 0.0)
    else
      current
  }

  /** Standing still while the ball flies leaves every limb where it was. */
  lemma StillDuringFlight(current: Limbs, thrown: bool, walkSin: real, idleSin: real)
    ensures thrown ==> PoseAfter(current, false, thrown, walkSin, idleSin) == current
  {
  }

  /** Whenever the pose step acts, the arms swing in opposite phase; the legs swing
      opposite to each other, against the arm on their side, at 0.7 of its angle
      while walking and flat while idle. */
  lemma PoseSymmetry(current: Limbs, moving: bool, thrown: bool, walkSin: real, idleSin: real)
    requires moving || !thrown
    ensures var r := PoseAfter(current, moving, thrown, walkSin, idleSin);
      r.rightArm == -r.leftArm && r.rightLeg == -r.leftLeg &&
      (moving ==> r.leftArm == walkSin * WalkAmplitude && r.leftLeg == -LegRatio * r.leftArm) &&
      (!moving ==> r.leftArm == idleSin * IdleAmplitude && r.leftLeg == 0.0)
  {
  }

  /** For sinusoid values in [-1, 1] the arms swing within 0.8 and the legs within 0.56
      while walking, and the arms within 0.15 while idle. */
  lemma PoseAmplitudes(current: Limbs, moving: bool, thrown: bool, walkSin: real, idleSin: real)
    requires -1.0 <= walkSin <= 1.0 && -1.0 <= idleSin <= 1.0
    ensures var r := PoseAfter(current, moving, thrown, walkSin, idleSin);
      (moving ==> -0.8 <= r.leftArm <= 0.8 && -0.56 <= r.leftLeg <= 0.56) &&
      (!moving && !thrown ==> -0.15 <= r.leftArm <= 0.15)
  {
  }
}
