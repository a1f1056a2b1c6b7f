# Basketball court demo: simulation core in Dafny

The demo (`src/basketball.js`) puts a character in a 3D basketball court. Each frame it
moves the character with the w/s/a/d keys, tests each step against the court's
bounding boxes, poses the limbs, steers a four-mode camera, and flies a thrown ball
along a scripted arc. This project models that simulation over exact reals and proves
what it promises. Rendering and asset loading are left out.

Modules, following the parts of the frame loop:

- `Geometry`: points, `Box3` boxes, `Vector3.lerp` and `MathUtils.lerp`, and rotation about the vertical axis.
- `Collision`: `canMove`, as a read-only method with an early exit, specified by the predicate `Permitted`.
- `Movement`: the table of the four directions and `Walk`, the specification of the movement loop.
- `Flight`: the fixed-step flight parameter, the lerp/Bezier flight curve, the throw target and peak, and the held ball.
- `Pose`: the walk / idle / untouched choice of limb angles.
- `CameraRig`: camera modes, home pose, follow offsets, smoothing factors, and `lookAt` as a value.
- `Input`: lower-casing of key names, and the rotation asked for by a key.
- `Simulation`: class `Sim`. It holds the module-level state that the handlers and `animate` update in place. Its methods are the key handlers, the click handler and the per-frame steps. `Sim.Valid()` is the invariant they all keep.

Trigonometry, the wall clock and raycasting are inputs to the model:

- `sinY`, `cosY`: the sine and cosine of the facing target.
- `walkSin`, `idleSin`, `clockSin`: the values of the clock-driven sinusoids.
- `hit`: the first point the click ray meets, if any.
- `viewDir`: the camera's view direction.
- `obstacles` and `overall`: the court's boxes, each of which may be absent.

Behaviour as the code has it:

- The facing target `rotationY` is an integer number of eighths of a turn (`rotationSteps`). Every press of `r` or `t` changes it by exactly one.
- The facing animation starts from the previous target, not from the angle currently shown.
- Movement and the follow cameras read the target, not the animated angle.
- Each direction is tested at the position already reached by the earlier directions in the same tick.
- Only standing still spares the limbs during a flight: walking while the ball flies still writes the walk cycle into all four limbs. While the 400 ms arm gesture of a throw runs, the `TWEEN.update()` call at the end of the frame then overwrites both arm angles, so on screen the gesture wins on the arms and the legs keep the walk cycle. The model's `limbs` are the values written by the pose step, before `TWEEN.update()`.
- The camera block runs before the ball block, so a ball-following camera chases the ball's position from the previous frame.
- In the `a`/`d` rows, `sin(θ ∓ π/2)` and `cos(θ ∓ π/2)` are rewritten as `∓cos θ` and `±sin θ`. These identities hold exactly over the reals.

## Model

| member | source | states |
|---|---|---|
| Geometry.Lerp | src/basketball.js:291-292 | `MathUtils.lerp` gives the first value at t = 0 and the second at t = 1 |
| Geometry.Approach | src/basketball.js:271 | `Vector3.lerp` stays put for alpha = 0, lands on the target for alpha = 1, and leaves a point already at the target there |
| Geometry.RotateY | src/basketball.js:274 | turning about the vertical axis keeps the height; angle 0 changes nothing and a quarter turn maps (x, y, z) to (z, y, −x) |
| Geometry.FromCenterAndSize | src/basketball.js:104 | the box has the requested size on each axis and is centred on the given point |
| Geometry.Intersects | src/basketball.js:107 | `Box3.intersectsBox`: two boxes intersect exactly when no strict gap separates them on any axis (touching boxes intersect) |
| Geometry.ContainsBox | src/basketball.js:109 | `Box3.containsBox`: every box contains itself, and a non-empty box inside another one intersects it |
| Geometry.ApproachGap | src/basketball.js:269-278 | one camera lerp step leaves `1 - alpha` of the gap to the target on every axis (exponential smoothing, not a jump) |
| Geometry.RotateYKeepsLength | src/basketball.js:274 | turning an offset about the vertical axis keeps its height and, for a genuine angle, its horizontal length |
| Collision.CanMove | src/basketball.js:102-111 | the result is true exactly when the 2×5×2 box centred at the stepped position meets no obstacle box and, if the overall box is loaded, lies inside it |
| Collision.NothingLoadedPermitsAll | src/basketball.js:106-110 | with no obstacle boxes and no overall box every step is permitted |
| Collision.ObstacleBlocks | src/basketball.js:106-108 | a step whose box meets any obstacle box is rejected, whatever the overall box |
| Collision.PermittedStaysInside | src/basketball.js:109 | an accepted step keeps the centre at least 1, 2.5, 1 from the faces of the overall box |
| Movement.Moves | src/basketball.js:228-233 | the table has four rows, keyed w, s, a, d in that order |
| Movement.MovesGeometry | src/basketball.js:228-233 | s undoes w, d undoes a, a is w turned a quarter turn, (dx, dz) = (w.dz, −w.dx), and every direction covers exactly the speed 0.3 for a genuine angle |
| Movement.Walk | src/basketball.js:235-242 | trying the directions left to right yields one decision per direction |
| Movement.WalkPrefix | src/basketball.js:236-242 | trying the first i directions makes the same first i decisions as trying all of them |
| Movement.WalkStep | src/basketball.js:236-242 | direction i is applied if and only if its key is held and the step passes the collision test at the position reached by the earlier directions; an applied direction shifts that position by its (dx, dz), a rejected one leaves it unchanged |
| Movement.WalkKeepsHeight | src/basketball.js:238-239 | movement never changes y |
| Movement.WalkIdle | src/basketball.js:235-242 | with no direction key held the position is unchanged and no direction is applied |
| Flight.NextT | src/basketball.js:283-289 | from t in [0, 1] one tick keeps t at most 1; below 1 it strictly increases t; while a full step remains below 1 it adds exactly 1/48 |
| Flight.TAfter | src/basketball.js:283-289 | the flight parameter after any number of fixed ticks from 0 stays in [0, 1] |
| Flight.TAfterTicks | src/basketball.js:283-289 | after n ticks from 0 the parameter is n/48 for n < 48 and exactly 1 from the 48th tick on |
| Flight.LandsAfterFlightTicks | src/basketball.js:284-287 | the parameter reaches 1 exactly when 48 ticks have passed, and stays in [0, 1] |
| Flight.Bezier | src/basketball.js:293-296 | the quadratic Bezier height is the start height at t = 0, the target height at t = 1, and (a + 2·peak + b)/4 half way |
| Flight.BallAt | src/basketball.js:291-296 | the ball's height is the Bezier height, and x (or z) stays fixed when start and target share it |
| Flight.BallEndpoints | src/basketball.js:291-296 | the curve starts at the start point at t = 0 and ends at the target at t = 1 |
| Flight.BezierBounds | src/basketball.js:293-296 | for t in [0, 1] and a peak above both ends, the height is at least the lower end and strictly below the peak |
| Flight.HalfwayExample | src/basketball.js:291-296 | from (0, 2, 0) to (10, 1, 0) with peak 7, at t = 0.5 the ball is at (5, 4.25, 0) |
| Flight.ThrowTarget | src/basketball.js:176-184 | the target is the ray's hit point if there is one, otherwise 15 along the view direction from the camera at height 1 |
| Flight.PeakFor | src/basketball.js:189 | the peak is 5 above the higher of start and target |
| Flight.GroundedBall | src/basketball.js:298-305 | the held ball bobs between 3 and 1 below the player's height |
| Pose.PoseAfter | src/basketball.js:245-259 | standing during a flight keeps the limbs; otherwise arms and legs are set in opposite phase, with flat legs when idle |
| Pose.StillDuringFlight | src/basketball.js:247-259 | standing still while the ball flies leaves every limb angle unchanged |
| Pose.PoseSymmetry | src/basketball.js:247-259 | walking sets the arms to (s, −s) and the legs to (−0.7s, 0.7s) for step s = 0.8·walkSin; idling sets the arms to (i, −i) with i = 0.15·idleSin and both legs to 0 |
| Pose.PoseAmplitudes | src/basketball.js:246-256 | for sinusoid values in [−1, 1] the walking arms stay within 0.8, the legs within 0.56, and the idle arms within 0.15 |
| CameraRig.GtaOffset | src/basketball.js:264-267 | the follow offset exists only for modes 1–3; before turning it points straight up and along z (x = 0, height above 0), and it is in front (z > 0) exactly in mode 1 |
| CameraRig.FollowTarget | src/basketball.js:269-275 | the ball camera aims 3 above the ball, the player cameras 6 above the player |
| CameraRig.FollowFocus | src/basketball.js:272-277 | the ball camera looks at the ball, the player cameras at the point 4 above the player |
| CameraRig.FollowAlpha | src/basketball.js:271-276 | the smoothing factor lies strictly between 0 and 1, and the ball camera's is the larger |
| CameraRig.FollowTargetPlacement | src/basketball.js:263-278 | front and back cameras sit 6 up and 14 out on opposite sides of the player; the ball camera is the ball plus (0, 3, −6), never turned |
| Input.Lower | src/basketball.js:40 | key names are lower-cased character by character, keep their length, and contain no upper-case ASCII letter afterwards |
| Input.LowerIdempotent | src/basketball.js:47-50 | lower-casing an already lower-cased key changes nothing |
| Input.RotationDelta | src/basketball.js:47-48 | a key asks for +1 exactly when its lower-cased name is `r`, −1 exactly when it is `t`, and 0 otherwise |
| Input.RotationKeysCancel | src/basketball.js:47-48 | any key whose lower-cased name is `r` and any whose lower-cased name is `t` ask for opposite rotations |
| Simulation.Sim.constructor | src/basketball.js:17-24 | the start state: player at (0, 7, 0) facing 0, camera at its home pose in mode 0, ball at rest with t = 0 and peak 5 |
| Simulation.Sim.RotateCharacter | src/basketball.js:130-140 | the target changes by exactly `direction` eighths of a turn and the new facing animation runs from the previous target to the new one |
| Simulation.Sim.ActivateDefaultCamera | src/basketball.js:143-148 | mode 0, inactive, camera back at its home position and orientation |
| Simulation.Sim.ActivateGtaCameraFront | src/basketball.js:150-153 | mode 1, active |
| Simulation.Sim.ActivateGtaCameraBack | src/basketball.js:155-158 | mode 2, active |
| Simulation.Sim.ActivateBallCamera | src/basketball.js:160-163 | mode 3, active |
| Simulation.Sim.KeyDown | src/basketball.js:39-49 | the key is recorded as held; keys 1–4 set modes 0–3 from any state (1 restoring the home pose, the others leaving the camera where it is); r/t change the target by ±1; the invariant (active iff mode ≠ 0) is kept |
| Simulation.Sim.KeyUp | src/basketball.js:50 | the key is recorded as released |
| Simulation.Sim.Click | src/basketball.js:169-191 | during a flight nothing changes; otherwise t = 0, in flight, start 2 above the player, target from the ray, peak 5 above the higher end and so strictly above both, camera mode 3 |
| Simulation.Sim.Move | src/basketball.js:227-242 | the new position and the `moving` flag are those of `Walk` on the w/s/a/d table; y is unchanged; with no direction key held nothing moves and `moving` is false |
| Simulation.Sim.UpdatePose | src/basketball.js:244-260 | the limbs become the pose chosen from `moving` and the flight state |
| Simulation.Sim.UpdateCamera | src/basketball.js:262-279 | in modes 1–3 the camera closes 8% (player modes) or 15% (ball mode) of its gap to the mode's target and looks at the mode's focus; in mode 0 it is untouched |
| Simulation.Sim.UpdateBall | src/basketball.js:281-306 | in flight t advances by the fixed step without decreasing, the ball lies on the curve between the lower end and the peak, the flight ends exactly on its 48th tick at the target with camera mode 1; at rest the ball follows the player |
| Simulation.Sim.Tick | src/basketball.js:224-310 | one frame composes movement, pose, camera and ball in the source's order, the camera chasing the ball's previous position; a throw's start, target and peak are kept, a flight tick adds one to the tick count, a resting ball keeps its t, and the invariant is kept |
| Simulation.RotateRoundTrip | src/basketball.js:47-48 | pressing r then t restores the facing target |

## Left out

- Scene, renderer, lights and texture loading (src/basketball.js:7-35, 78-95): rendering and asynchronous asset I/O.
- Court loading (src/basketball.js:54-76): the obstacle boxes and the overall box are inputs that may be absent. The model does not compute the overall box as the union of the mesh boxes. It does not model three.js's empty box either.
- Raycasting and the screen-to-ray mapping (src/basketball.js:172-178): the first hit point is the input `hit`. The camera's view direction is the input `viewDir`.
- TWEEN easing: the facing animation is recorded only by its endpoints (`rotationTween`), and the displayed `player.rotation.y` is not modelled. A new rotation does not stop the previous animation in the source; the model keeps only the latest. The arm gesture started by a click (src/basketball.js:192-220) is not modelled, so `Click` leaves the limbs alone. While the character stands during a flight, only that gesture writes the arms: `Pose.StillDuringFlight` shows the pose step keeps off them.
- Trigonometry: `sin`/`cos` of the facing target are the inputs `sinY`, `cosY`. Nothing ties them to `rotationSteps`. `camera.lookAt` becomes the value `LookAt(eye, at)`.
- `Date.now()` sinusoids (src/basketball.js:246, 248, 254, 303): their values are the inputs `walkSin`, `idleSin`, `clockSin`.
- The `player.skin` guard (src/basketball.js:193, 245): the skin is taken to be present, as the character object always creates one.
- Event-listener wiring, `requestAnimationFrame`, `TWEEN.update`, rendering and the resize handler (src/basketball.js:39, 50, 169, 225, 308-319): the handlers are the methods `KeyDown`, `KeyUp`, `Click` and `Tick`.
- Non-ASCII case folding in `toLowerCase`: `Input.Lower` folds only A–Z.
- IEEE-754 rounding: all arithmetic is over exact reals. The 48-tick flight length holds for exact arithmetic; in floating point, 48 additions of 1/48 need not reach exactly 1.
- Aliasing of three.js vector objects: the source copies or clones every vector it stores, so each field is modelled as a value.
