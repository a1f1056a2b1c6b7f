/** The camera rig's fixed data: the home pose, the follow offsets and smoothing factors
    of the three dynamic modes, and what the camera looks at. */
module CameraRig {
  import opened Geometry

  /** Mode numbers: 0 default, 1 in front of the player, 2 behind the player, 3 the ball. */
  const DefaultMode: int := 0
  const FrontMode: int := 1
  const BackMode: int := 2
  const BallMode: int := 3

  /** The startup camera position, kept as the permanent home pose. */
  const InitialCameraPos: Vec3 := Vec3(0.0, 30.0, 40.0)

  /** An orientation produced by `lookAt`: a camera at `eye` turned toward `at`. */
  datatype Aim = LookAt(eye: Vec3, at: Vec3)

  /** The startup orientation: from the home position toward the origin. */
  const InitialCameraAim: Aim := LookAt(InitialCameraPos, Origin)

  const PlayerFollowAlpha: real := 0.08
  const BallFollowAlpha: real := 0.15

  /** The follow offset of a dynamic mode; it exists only for modes 1 to 3. */
  function GtaOffset(mode: int): (o: Vec3)
    requires FrontMode <= mode <= BallMode
    ensures o.x == 0.0 && o.y > 0.0
    ensures (mode == FrontMode) == (o.z > 0.0)
  {
    if mode == BackMode then Vec3(0.0, 6.0, -14.0)
    else if mode == FrontMode then Vec3(0.0, 6.0, 14.0)
    else Vec3(0.0, 3.0, -6.0)
  }

  /** Where a dynamic mode wants the camera: the ball plus its offset in mode 3, otherwise
      the player plus the offset turned by the facing. */
  function FollowTarget(mode: int, player: Vec3, ball: Vec3, sinY: real, cosY: real): (p: Vec3)
    requires FrontMode <= mode <= BallMode
    ensures mode == BallMode ==> p.y == ball.y + 3.0
    ensures mode != BallMode ==> p.y == player.y + 6.0
  {
    if mode == BallMode then Add(ball, GtaOffset(mode))
    else Add(player, RotateY(GtaOffset(mode), sinY, cosY))
  }

  /** What a dynamic mode looks at: the ball, or a point 4 above the player. */
  function FollowFocus(mode: int, player: Vec3, ball: Vec3): (p: Vec3)
    ensures mode == BallMode ==> p == ball
    ensures mode != BallMode ==> p.x == player.x && p.y == player.y + 4.0 && p.z == player.z
  {
    if mode == BallMode then ball else Add(player, Vec3(0.0, 4.0, 0.0))
  }

  function FollowAlpha(mode: int): (alpha: real)
    ensures 0.0 < alpha < 1.0
    ensures mode == BallMode ==> alpha > PlayerFollowAlpha
  {
    if mode == BallMode then BallFollowAlpha else PlayerFollowAlpha
  }

  /** The front and back cameras sit on opposite sides of the player at the same height,
      14 away horizontally for a genuine angle; the ball camera is never turned. */
  lemma FollowTargetPlacement(player: Vec3, ball: Vec3, sinY: real, cosY: real)
    requires sinY * sinY + cosY * cosY == 1.0
    ensures var f := FollowTarget(FrontMode, player, ball, sinY, cosY);
      var b := FollowTarget(BackMode, player, ball, sinY, cosY);
      f.y == b.y == player.y + 6.0 &&
      f.x - player.x == player.x - b.x && f.z - player.z == player.z - b.z &&
      (f.x - player.x) * (f.x - player.x) + (f.z - player.z) * (f.z - player.z) == 196.0
    ensures FollowTarget(BallMode, player, ball, sinY, cosY) == Vec3(ball.x, ball.y + 3.0, ball.z - 6.0)
  {
  }
}
