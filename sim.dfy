/** The simulation state of the demo: the character, its keys, the ball and the camera,
    updated by key presses, clicks and the per-frame tick. */
module Simulation {
  import opened Geometry
  import opened Wrappers
  import opened Input
  import opened Pose
  import opened CameraRig
  import opened Flight
  import opened Movement
  import Collision

  /** The ball's state: whether it is in flight, the start, target and peak of the
      current throw, the flight parameter `t` and the ball's position. */
  datatype Ball = Ball(thrown: bool, start: Vec3, target: Vec3, t: real, peak: real, pos: Vec3)

  /** The facing animation started by the last rotation: it eases the displayed facing
      from `from` to `to` (both in eighths of a turn) over 250 ms. */
  datatype Tween = Tween(from: int, to: int)

  class Sim {
    /** The character's position. */
    var position: Vec3
    /** The facing target `rotationY`, in steps of π/4. */
    var rotationSteps: int
    /** The facing animation last started, if any. */
    var rotationTween: Option<Tween>
    /** Held keys, by lower-cased name. */
    var keys: map<string, bool>
    var limbs: Limbs

    var cameraMode: int
    var cameraActive: bool
    var cameraPos: Vec3
    var cameraAim: Aim

    var ball: Ball
    /** Ticks elapsed in the current flight. */
    ghost var flightTicks: nat

    /** The camera is dynamic exactly in modes 1 to 3, so a follow offset exists whenever
        the follow branch runs; the flight parameter stays in [0, 1]; during a flight it
        is the value reached after `flightTicks` fixed steps, fewer than 48 of them, and
        the peak lies 5 above the higher end. */
    ghost predicate Valid()
      reads this
    {
      DefaultMode <= cameraMode <= BallMode &&
      cameraActive == (cameraMode != DefaultMode) &&
      0.0 <= ball.t <= 1.0 &&
      (ball.thrown ==>
         flightTicks < FlightTicks && ball.t == TAfter(flightTicks) &&
         ball.peak == PeakFor(ball.start, ball.target))
    }

    /** The state at page load: the character at (0, 7, 0) facing 0, the camera at its
        home pose in the default mode, the ball at rest. */
    constructor ()
      ensures Valid()
      ensures position == Vec3(0.0, 7.0, 0.0) && rotationSteps == 0 && rotationTween == None
      ensures keys == map[] && limbs == Limbs(0.0, 0.0, 0.0, 0.0)
      ensures cameraMode == DefaultMode && !cameraActive
      ensures cameraPos == InitialCameraPos && cameraAim == InitialCameraAim
      ensures !ball.thrown && ball.t == 0.0 && ball.peak == 5.0
    {
      position := Vec3(0.0, 7.0, 0.0);
      rotationSteps := 0;
      rotationTween := None;
      keys := map[];
      limbs := Limbs(0.0, 0.0, 0.0, 0.0);
      cameraMode := DefaultMode;
      cameraActive := false;
      cameraPos := InitialCameraPos;
      cameraAim := InitialCameraAim;
      ball := Ball(false, Origin, Origin, 0.0, 5.0, Origin);
      flightTicks := 0;
    }

    /** `rotateCharacter(direction)`: the target moves by `direction` eighths of a turn
        and a new facing animation runs from the previous target to the new one. */
    method RotateCharacter(direction: int)
      modifies this`rotationSteps, this`rotationTween
      ensures rotationSteps == old(rotationSteps) + direction
      ensures rotationTween == Some(Tween(old(rotationSteps), rotationSteps))
    {
      var from := rotationSteps;
      rotationSteps := rotationSteps + direction;
      rotationTween := Some(Tween(from, rotationSteps));
    }

    /** Mode 0: the camera snaps back to its home position and orientation. */
    method ActivateDefaultCamera()
      modifies this`cameraMode, this`cameraActive, this`cameraPos, this`cameraAim
      ensures cameraMode == DefaultMode && !cameraActive
      ensures cameraPos == InitialCameraPos && cameraAim == InitialCameraAim
    {
      cameraActive := false;
      cameraMode := DefaultMode;
      cameraPos := InitialCameraPos;
      cameraAim := InitialCameraAim;
    }

    method ActivateGtaCameraFront()
      modifies this`cameraMode, this`cameraActive
      ensures cameraMode == FrontMode && cameraActive
    {
      cameraActive := true;
      cameraMode := FrontMode;
    }

    method ActivateGtaCameraBack()
      modifies this`cameraMode, this`cameraActive
      ensures cameraMode == BackMode && cameraActive
    {
      cameraActive := true;
      cameraMode := BackMode;
    }

    method ActivateBallCamera()
      modifies this`cameraMode, this`cameraActive
      ensures cameraMode == BallMode && cameraActive
    {
      cameraActive := true;
      cameraMode := BallMode;
    }

    /** A key goes down: it is recorded as held; keys 1 to 4 select camera modes 0 to 3
        from any state (1 also restores the home pose); `r` and `t` turn the target. */
    method KeyDown(key: string)
      requires Valid()
      modifies this`keys, this`cameraMode, this`cameraActive, this`cameraPos, this`cameraAim,
               this`rotationSteps, this`rotationTween
      ensures Valid()
      ensures keys == old(keys)[Lower(key) := true]
      ensures key == "1" ==> cameraMode == DefaultMode && cameraPos == InitialCameraPos && cameraAim == InitialCameraAim
      ensures key == "2" ==> cameraMode == FrontMode && cameraPos == old(cameraPos) && cameraAim == old(cameraAim)
      ensures key == "3" ==> cameraMode == BackMode && cameraPos == old(cameraPos) && cameraAim == old(cameraAim)
      ensures key == "4" ==> cameraMode == BallMode && cameraPos == old(cameraPos) && cameraAim == old(cameraAim)
      ensures key !in {"1", "2", "3", "4"} ==>
        cameraMode == old(cameraMode) && cameraPos == old(cameraPos) && cameraAim == old(cameraAim)
      ensures rotationSteps == old(rotationSteps) + RotationDelta(key)
      ensures RotationDelta(key) == 0 ==> rotationTween == old(rotationTween)
      ensures RotationDelta(key) != 0 ==> rotationTween == Some(Tween(old(rotationSteps), rotationSteps))
    {
      var lower := Lower(key);
      keys := keys[lower := true];
      if key == "1" { ActivateDefaultCamera(); }
      if key == "2" { ActivateGtaCameraFront(); }
      if key == "3" { ActivateGtaCameraBack(); }
      if key == "4" { ActivateBallCamera(); }
      ghost var steps := rotationSteps;
      assert "r"[0] != "t"[0];
      if lower == "r" { RotateCharacter(1); }
      if lower == "t" { RotateCharacter(-1); }
      assert rotationSteps == steps + RotationDelta(key);
    }

    /** A key goes up: it is recorded as released. */
    method KeyUp(key: string)
      modifies this`keys
      ensures keys == old(keys)[Lower(key) := false]
    {
      keys := keys[Lower(key) := false];
    }

    /** A click: ignored while the ball flies; otherwise it arms a throw from 2 above the
        player toward `ThrowTarget(hit, …)` with its peak 5 above the higher end, restarts
        the flight at t = 0 and switches to the ball camera. `hit` is the first point the
        click ray meets, if any; `viewDir` the camera's view direction. */
    method Click(hit: Option<Vec3>, viewDir: Vec3)
      requires Valid()
      modifies this`ball, this`flightTicks, this`cameraMode, this`cameraActive
      ensures Valid()
      ensures old(ball.thrown) ==>
        ball == old(ball) && flightTicks == old(flightTicks) &&
        cameraMode == old(cameraMode) && cameraActive == old(cameraActive)
      ensures !old(ball.thrown) ==>
        ball.thrown && ball.t == 0.0 && flightTicks == 0 &&
        ball.start == Vec3(position.x, position.y + 2.0, position.z) &&
        ball.target == ThrowTarget(hit, cameraPos, viewDir) &&
        ball.peak == Max(ball.start.y, ball.target.y) + 5.0 &&
        ball.peak > ball.start.y && ball.peak > ball.target.y &&
        ball.pos == old(ball.pos) &&
        cameraMode == BallMode && cameraActive
    {
      if ball.thrown {
        return;
      }
      var target := ThrowTarget(hit, cameraPos, viewDir);
      var start := Vec3(position.x, position.y + 2.0, position.z);
      ball := ball.(target := target, start := start, t := 0.0, thrown := true, peak := PeakFor(start, target));
      flightTicks := 0;
      ActivateBallCamera();
    }

    /** The movement step: tries w, s, a, d in order, each from the position reached so
        far, and reports whether any was applied. `sinY`, `cosY` are the sine and cosine
        of the facing target; `obstacles` and `overall` the loaded court boxes, if any. */
    method Move(sinY: real, cosY: real, obstacles: seq<Box>, overall: Option<Box>) returns (moving: bool)
      modifies this`position
      ensures position == Walk(old(position), Moves(sinY, cosY), keys, obstacles, overall).pos
      ensures moving == (true in Walk(old(position), Moves(sinY, cosY), keys, obstacles, overall).applied)
      ensures position.y == old(position).y
      ensures !Held(keys, "w") && !Held(keys, "s") && !Held(keys, "a") && !Held(keys, "d") ==>
        position == old(position) && !moving
    {
      var moves := Moves(sinY, cosY);
      ghost var from := position;
      moving := false;
      for i := 0 to |moves|
        invariant position == Walk(from, moves[..i], keys, obstacles, overall).pos
        invariant moving == (true in Walk(from, moves[..i], keys, obstacles, overall).applied)
      {
        var m := moves[i];
        assert moves[..i + 1][..i] == moves[..i];
        if Held(keys, m.key) {
          var ok := Collision.CanMove(position, m.dx, m.dz, obstacles, overall);
          if ok {
            position := Shift(position, m);
            moving := true;
          }
        }
      }
      assert moves[..|moves|] == moves;
      WalkKeepsHeight(from, moves, keys, obstacles, overall);
      if !Held(keys, "w") && !Held(keys, "s") && !Held(keys, "a") && !Held(keys, "d") {
        WalkIdle(from, moves, keys, obstacles, overall);
      }
    }

    /** The pose step: walk cycle while moving, idle sway while standing with the ball at
        hand, limbs untouched while standing during a flight. */
    method UpdatePose(moving: bool, walkSin: real, idleSin: real)
      modifies this`limbs
      ensures limbs == PoseAfter(old(limbs), moving, ball.thrown, walkSin, idleSin)
    {
      limbs := PoseAfter(limbs, moving, ball.thrown, walkSin, idleSin);
    }

    /** The camera step: in a dynamic mode the camera closes the given fraction of its gap
        to the mode's target and looks at the mode's focus; in mode 0 it stays put. */
    method UpdateCamera(sinY: real, cosY: real)
      requires Valid()
      modifies this`cameraPos, this`cameraAim
      ensures cameraActive ==>
        cameraPos == Approach(old(cameraPos), FollowTarget(cameraMode, position, ball.pos, sinY, cosY), FollowAlpha(cameraMode)) &&
        cameraAim == LookAt(cameraPos, FollowFocus(cameraMode, position, ball.pos))
      ensures !cameraActive ==> cameraPos == old(cameraPos) && cameraAim == old(cameraAim)
    {
      if cameraActive {
        var camTarget := FollowTarget(cameraMode, position, ball.pos, sinY, cosY);
        cameraPos := Approach(cameraPos, camTarget, FollowAlpha(cameraMode));
        cameraAim := LookAt(cameraPos, FollowFocus(cameraMode, position, ball.pos));
      }
    }

    /** The ball step. In flight: `t` advances by the fixed step and clamps at 1, the
        ball sits on the flight curve, and on the 48th tick the flight ends at the target
        and the camera switches to mode 1. At rest: the ball follows the player. */
    method UpdateBall(sinY: real, cosY: real, clockSin: real)
      requires Valid()
      modifies this`ball, this`flightTicks, this`cameraMode, this`cameraActive
      ensures Valid()
      ensures old(ball.thrown) ==>
        ball.start == old(ball.start) && ball.target == old(ball.target) && ball.peak == old(ball.peak) &&
        ball.t == NextT(old(ball.t)) && old(ball.t) < ball.t <= 1.0 &&
        flightTicks == old(flightTicks) + 1 &&
        (ball.thrown <==> flightTicks < FlightTicks) &&
        ball.pos == BallAt(ball.start, ball.target, ball.peak, ball.t) &&
        Min(ball.start.y, ball.target.y) <= ball.pos.y < ball.peak
      ensures old(ball.thrown) && ball.thrown ==>
        cameraMode == old(cameraMode) && cameraActive == old(cameraActive)
      ensures old(ball.thrown) && !ball.thrown ==>
        ball.t == 1.0 && ball.pos == ball.target && cameraMode == FrontMode && cameraActive
      ensures !old(ball.thrown) ==>
        ball == old(ball).(pos := GroundedBall(position, sinY, cosY, clockSin)) &&
        flightTicks == old(flightTicks) &&
        cameraMode == old(cameraMode) && cameraActive == old(cameraActive)
    {
      if ball.thrown {
        var t := ball.t + FrameDt / BallDuration;
        var thrown := true;
        TAfterTicks(flightTicks);
        TAfterTicks(flightTicks + 1);
        if t >= 1.0 {
          t := 1.0;
          thrown := false;
          ActivateGtaCameraFront();
        }
        ball := ball.(t := t, thrown := thrown, pos := BallAt(ball.start, ball.target, ball.peak, t));
        flightTicks := flightTicks + 1;
        BallEndpoints(ball.start, ball.target, ball.peak);
        BezierBounds(ball.start.y, ball.peak, ball.target.y, t);
      } else {
        ball := ball.(pos := GroundedBall(position, sinY, cosY, clockSin));
      }
    }

    /** One frame: movement, pose, camera, ball, in that order. The camera follows the
        ball's position from the previous frame, since the ball moves after it. */
    method Tick(sinY: real, cosY: real, walkSin: real, idleSin: real, clockSin: real,
                obstacles: seq<Box>, overall: Option<Box>)
      requires Valid()
      modifies this
      ensures Valid()
      ensures keys == old(keys) && rotationSteps == old(rotationSteps) && rotationTween == old(rotationTween)
      ensures ball.start == old(ball.start) && ball.target == old(ball.target) && ball.peak == old(ball.peak)
      ensures position == Walk(old(position), Moves(sinY, cosY), keys, obstacles, overall).pos
      ensures position.y == old(position).y
      ensures limbs == PoseAfter(old(limbs), true in Walk(old(position), Moves(sinY, cosY), keys, obstacles, overall).applied,
                                 old(ball.thrown), walkSin, idleSin)
      ensures old(cameraActive) ==>
        cameraPos == Approach(old(cameraPos), FollowTarget(old(cameraMode), position, old(ball.pos), sinY, cosY), FollowAlpha(old(cameraMode))) &&
        cameraAim == LookAt(cameraPos, FollowFocus(old(cameraMode), position, old(ball.pos)))
      ensures !old(cameraActive) ==> cameraPos == old(cameraPos) && cameraAim == old(cameraAim)
      ensures old(ball.thrown) ==>
        ball.t == NextT(old(ball.t)) && flightTicks == old(flightTicks) + 1 &&
        (ball.thrown <==> flightTicks < FlightTicks) &&
        ball.pos == BallAt(ball.start, ball.target, ball.peak, ball.t) &&
        (ball.thrown ==> cameraMode == old(cameraMode)) &&
        (!ball.thrown ==> ball.pos == ball.target && cameraMode == FrontMode)
      ensures !old(ball.thrown) ==>
        !ball.thrown && ball.t == old(ball.t) && flightTicks == old(flightTicks) &&
        ball.pos == GroundedBall(position, sinY, cosY, clockSin) && cameraMode == old(cameraMode)
    {
      var moving := Move(sinY, cosY, obstacles, overall);
      UpdatePose(moving, walkSin, idleSin);
      UpdateCamera(sinY, cosY);
      UpdateBall(sinY, cosY, clockSin);
    }
  }

  /** Pressing `r` and then `t` brings the facing target back to where it was, whatever
      the animation is doing. */
  method RotateRoundTrip(s: Sim)
    requires s.Valid()
    modifies s
    ensures s.Valid()
    ensures s.rotationSteps == old(s.rotationSteps)
    ensures s.rotationTween == Some(Tween(old(s.rotationSteps) + 1, old(s.rotationSteps)))
  {
    RotationKeysCancel("r", "t");
    s.KeyDown("r");
    s.KeyDown("t");
  }
}
