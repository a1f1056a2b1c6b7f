/** The scripted flight of the ball: a fixed-step parameter `t`, linear in x and z,
    a quadratic Bezier curve in y. */
module Flight {
  import opened Geometry
  import opened Wrappers

  /** Length of a flight, in seconds. */
  const BallDuration: real := 0.8

  /** The fixed frame time the flight assumes, whatever the real frame interval. */
  const FrameDt: real := 1.0 / 60.0

  /** How far `t` advances per tick: 1/60 divided by 0.8, i.e. 1/48. */
  const BallStep: real := FrameDt / BallDuration

  /** Number of ticks a flight lasts. */
  const FlightTicks: nat := 48

  /** Advance the flight parameter by one tick, clamping at 1. */
  function NextT(t: real): (r: real)
    ensures 0.0 <= t <= 1.0 ==> t <= r <= 1.0
    ensures t < 1.0 ==> r > t
    ensures t + BallStep < 1.0 ==> r == t + BallStep
  {
    if t + BallStep >= 1.0 then 1.0 else t + BallStep
  }

  /** The flight parameter after `n` ticks of a flight started at 0 (ticks continue
      past landing only in this function; the ball stops being in flight at 1). */
  function TAfter(n: nat): (r: real)
    ensures 0.0 <= r <= 1.0
  {
    if n == 0 then 0.0 else NextT(TAfter(n - 1))
  }

  /** Each tick adds exactly 1/48 until the 48th tick, which lands exactly on 1. */
  lemma {:induction false} TAfterTicks(n: nat)
    ensures TAfter(n) == if n < FlightTicks then n as real / 48.0 else 1.0
  {
    assert BallStep == 1.0 / 48.0;
    if n > 0 {
      TAfterTicks(n - 1);
      var prev := TAfter(n - 1);
      assert TAfter(n) == NextT(prev);
      if n < FlightTicks {
        assert prev + BallStep == n as real / 48.0;
      } else if n == FlightTicks {
        assert prev + BallStep == 1.0;
      } else {
        assert prev == 1.0;
      }
    }
  }

  /** A flight is over after exactly 48 ticks, and not before. */
  lemma LandsAfterFlightTicks(n: nat)
    ensures TAfter(n) == 1.0 <==> n >= FlightTicks
    ensures 0.0 <= TAfter(n) <= 1.0
  {
    TAfterTicks(n);
  }

  /** The quadratic Bezier curve through `a`, control value `peak` and `b`. */
  function Bezier(a: real, peak: real, b: real, t: real): (y: real)
    ensures t == 0.0 ==> y == a
    ensures t == 1.0 ==> y == b
    ensures t == 0.5 ==> y == (a + 2.0 * peak + b) / 4.0
  {
    (1.0 - t) * (1.0 - t) * a + 2.0 * (1.0 - t) * t * peak + t * t * b
  }

  /** The ball's position at parameter `t`. */
  function BallAt(start: Vec3, target: Vec3, peak: real, t: real): (p: Vec3)
    ensures p.y == Bezier(start.y, peak, target.y, t)
    ensures start.x == target.x ==> p.x == start.x
    ensures start.z == target.z ==> p.z == start.z
  {
    Vec3(Lerp(start.x, target.x, t), Bezier(start.y, peak, target.y, t), Lerp(start.z, target.z, t))
  }

  /** The flight begins at the start point and ends at the target. */
  lemma BallEndpoints(start: Vec3, target: Vec3, peak: real)
    ensures BallAt(start, target, peak, 0.0) == start
    ensures BallAt(start, target, peak, 1.0) == target
  {
  }

  /** With the control value above both ends, the height during the flight never drops
      below the lower end and stays strictly under the control value: the Bezier weights
      are nonnegative, sum to 1, and the end weights never both vanish. */
  lemma BezierBounds(a: real, peak: real, b: real, t: real)
    requires 0.0 <= t <= 1.0
    requires a < peak && b < peak
    ensures Min(a, b) <= Bezier(a, peak, b, t) < peak
  {
    var u := 1.0 - t;
    var w0, w1, w2 := u * u, 2.0 * (u * t), t * t;
    BezierWeights(t);
    var y := Bezier(a, peak, b, t);
    assert y == w0 * a + w1 * peak + w2 * b;
    var m := Min(a, b);
    Recentre(w0, w1, w2, a, peak, b, m);
    NonnegProduct(w0, a - m);
    NonnegProduct(w1, peak - m);
    NonnegProduct(w2, b - m);
    Recentre(w0, w1, w2, a, peak, b, peak);
    WeightedPositive(w0, w2, peak - a, peak - b);
  }

  /** The Bezier weights (1 - t)², 2(1 - t)t and t² are nonnegative on [0, 1], sum to 1,
      and the two end weights never vanish together. */
  lemma BezierWeights(t: real)
    requires 0.0 <= t <= 1.0
    ensures var u := 1.0 - t;
      0.0 <= u * u && 0.0 <= 2.0 * (u * t) && 0.0 <= t * t &&
      u * u + 2.0 * (u * t) + t * t == 1.0 &&
      u * u + t * t > 0.0
  {
    var u := 1.0 - t;
    assert u * u + 2.0 * (u * t) + t * t == (u + t) * (u + t);
    NonnegProduct(u, u);
    NonnegProduct(t, t);
    NonnegProduct(u, t);
    if t <= 0.5 {
      ScaleMonotone(u, 0.5, u);
    } else {
      ScaleMonotone(t, 0.5, t);
    }
  }

  /** A combination whose weights sum to 1, seen from the value `m`. */
  lemma Recentre(w0: real, w1: real, w2: real, a: real, p: real, b: real, m: real)
    requires w0 + w1 + w2 == 1.0
    ensures w0 * a + w1 * p + w2 * b - m == w0 * (a - m) + w1 * (p - m) + w2 * (b - m)
  {
    assert m == w0 * m + w1 * m + w2 * m;
  }

  /** A nonnegative combination, not all of whose weights vanish, of positive values is positive. */
  lemma WeightedPositive(w0: real, w2: real, p: real, q: real)
    requires 0.0 <= w0 && 0.0 <= w2 && w0 + w2 > 0.0
    requires p > 0.0 && q > 0.0
    ensures w0 * p + w2 * q > 0.0
  {
    var d := Min(p, q);
    ScaleMonotone(w0, d, p);
    ScaleMonotone(w2, d, q);
    MulPositive(w0 + w2, d);
    assert w0 * d + w2 * d == (w0 + w2) * d;
  }

  lemma NonnegProduct(x: real, y: real)
    requires 0.0 <= x && 0.0 <= y
    ensures 0.0 <= x * y
  {
  }

  lemma ScaleMonotone(w: real, lo: real, hi: real)
    requires 0.0 <= w && lo <= hi
    ensures w * lo <= w * hi
  {
    assert w * hi - w * lo == w * (hi - lo);
  }

  lemma MulPositive(x: real, y: real)
    requires x > 0.0 && y > 0.0
    ensures x * y > 0.0
  {
  }

  /** The worked example: from (0, 2, 0) to (10, 1, 0) with control height 7, half way
      the ball is at (5, 4.25, 0). */
  lemma HalfwayExample()
    ensures BallAt(Vec3(0.0, 2.0, 0.0), Vec3(10.0, 1.0, 0.0), 7.0, 0.5) == Vec3(5.0, 4.25, 0.0)
  {
  }

  /** Where a throw aims: the first hit of the click ray if there is one, otherwise the
      point 15 along the camera's view direction, lowered to height 1. */
  function ThrowTarget(hit: Option<Vec3>, cameraPos: Vec3, viewDir: Vec3): (r: Vec3)
    ensures hit.Some? ==> r == hit.value
    ensures hit.None? ==> r.y == 1.0 && r.x - cameraPos.x == 15.0 * viewDir.x && r.z - cameraPos.z == 15.0 * viewDir.z
  {
    match hit
    case Some(p) => p
    case None => Vec3(cameraPos.x + viewDir.x * 15.0, 1.0, cameraPos.z + viewDir.z * 15.0)
  }

  /** The peak of a throw: 5 above the higher of its two ends. */
  function PeakFor(start: Vec3, target: Vec3): (peak: real)
    ensures peak >= start.y + 5.0 && peak >= target.y + 5.0
    ensures peak == start.y + 5.0 || peak == target.y + 5.0
  {
    Max(start.y, target.y) + 5.0
  }

  /** Offset of the ball from the player while it is held, before turning by the facing. */
  const GroundOffset: Vec3 := Vec3(1.4, -3.0, 1.4)

  /** The held ball: beside the player, turned with the facing, bobbing by up to 2
      with the magnitude of the clock sinusoid `clockSin`. */
  function GroundedBall(player: Vec3, sinY: real, cosY: real, clockSin: real): (r: Vec3)
    ensures -1.0 <= clockSin <= 1.0 ==> player.y - 3.0 <= r.y <= player.y - 1.0
  {
    var follow := RotateY(GroundOffset, sinY, cosY);
    Vec3(player.x + follow.x, player.y + follow.y + Abs(clockSin) * 2.0, player.z + follow.z)
  }
}
