/** The movement step of each tick: the four directions w, s, a, d are tried in order,
    each against the position already reached in the same tick. */
module Movement {
  import opened Geometry
  import opened Wrappers
  import Collision

  /** Distance covered per tick by one held direction. */
  const Speed: real := 0.3

  /** One row of the per-tick table: the key that drives it and its displacement. */
  datatype Move = Move(key: string, dx: real, dz: real)

  /** The table of the four directions for a facing with sine `sinY` and cosine `cosY`.
      Strafing uses sin(θ - π/2) = -cos θ, cos(θ - π/2) = sin θ and their mirror images. */
  function Moves(sinY: real, cosY: real): (ms: seq<Move>)
    ensures |ms| == 4
    ensures ms[0].key == "w" && ms[1].key == "s" && ms[2].key == "a" && ms[3].key == "d"
  {
    [ Move("w", sinY * Speed, cosY * Speed),
      Move("s", -sinY * Speed, -cosY * Speed),
      Move("a", cosY * Speed, -sinY * Speed),
      Move("d", -cosY * Speed, sinY * Speed) ]
  }

  /** Backward undoes forward and right undoes left; strafing is perpendicular to walking;
      for a genuine angle every direction covers exactly `Speed`. */
  lemma MovesGeometry(sinY: real, cosY: real)
    ensures var ms := Moves(sinY, cosY);
      ms[1].dx == -ms[0].dx && ms[1].dz == -ms[0].dz &&
      ms[3].dx == -ms[2].dx && ms[3].dz == -ms[2].dz &&
      ms[0].dx * ms[2].dx + ms[0].dz * ms[2].dz == 0.0 &&
      ms[2].dx == ms[0].dz && ms[2].dz == -ms[0].dx
    ensures sinY * sinY + cosY * cosY == 1.0 ==>
      forall k :: 0 <= k < 4 ==>
        Moves(sinY, cosY)[k].dx * Moves(sinY, cosY)[k].dx + Moves(sinY, cosY)[k].dz * Moves(sinY, cosY)[k].dz == Speed * Speed
  {
  }

  /** `keys[k]` is truthy: the key was pressed and not yet released. */
  predicate Held(keys: map<string, bool>, k: string) {
    k in keys && keys[k]
  }

  /** The position after applying one direction: only x and z change. */
  function Shift(p: Vec3, m: Move): Vec3 {
    Vec3(p.x + m.dx, p.y, p.z + m.dz)
  }

  /** The outcome of trying a list of directions: the final position and, per direction,
      whether it was applied. */
  datatype Trail = Trail(pos: Vec3, applied: seq<bool>)

  /** Tries the directions of `ms` left to right from `p`; a direction is applied when its
      key is held and the collision test accepts it at the position reached so far. */
  function Walk(p: Vec3, ms: seq<Move>, keys: map<string, bool>, obstacles: seq<Box>, overall: Option<Box>): (t: Trail)
    ensures |t.applied| == |ms|
    decreases |ms|
  {
    if ms == [] then Trail(p, [])
    else
      var prev := Walk(p, ms[..|ms| - 1], keys, obstacles, overall);
      var m := ms[|ms| - 1];
      var ok := Held(keys, m.key) && Collision.Permitted(Collision.Candidate(prev.pos, m.dx, m.dz), obstacles, overall);
      Trail(if ok then Shift(prev.pos, m) else prev.pos, prev.applied + [ok])
  }

  /** Trying a prefix of the directions gives a prefix of the decisions. */
  lemma {:induction false} WalkPrefix(p: Vec3, ms: seq<Move>, keys: map<string, bool>, obstacles: seq<Box>, overall: Option<Box>, i: nat)
    requires i <= |ms|
    ensures Walk(p, ms[..i], keys, obstacles, overall).applied == Walk(p, ms, keys, obstacles, overall).applied[..i]
    decreases |ms|
  {
    if i < |ms| {
      var init := ms[..|ms| - 1];
      assert init[..i] == ms[..i];
      WalkPrefix(p, init, keys, obstacles, overall, i);
    } else {
      assert ms[..i] == ms;
    }
  }

  /** Direction `i` is applied exactly when its key is held and the candidate box at the
      position reached by the earlier directions passes the collision test; an applied
      direction moves that position by its (dx, dz), a rejected one leaves it unchanged. */
  lemma WalkStep(p: Vec3, ms: seq<Move>, keys: map<string, bool>, obstacles: seq<Box>, overall: Option<Box>, i: nat)
    requires i < |ms|
    ensures var before := Walk(p, ms[..i], keys, obstacles, overall).pos;
      var after := Walk(p, ms[..i + 1], keys, obstacles, overall).pos;
      (Walk(p, ms, keys, obstacles, overall).applied[i] <==>
         Held(keys, ms[i].key) && Collision.Permitted(Collision.Candidate(before, ms[i].dx, ms[i].dz), obstacles, overall)) &&
      after == (if Walk(p, ms, keys, obstacles, overall).applied[i] then Shift(before, ms[i]) else before)
  {
    var pre := ms[..i + 1];
    assert pre[..|pre| - 1] == ms[..i];
    WalkPrefix(p, ms, keys, obstacles, overall, i + 1);
  }

  /** Movement never changes the height. */
  lemma {:induction false} WalkKeepsHeight(p: Vec3, ms: seq<Move>, keys: map<string, bool>, obstacles: seq<Box>, overall: Option<Box>)
    ensures Walk(p, ms, keys, obstacles, overall).pos.y == p.y
    decreases |ms|
  {
    if ms != [] {
      WalkKeepsHeight(p, ms[..|ms| - 1], keys, obstacles, overall);
    }
  }

  /** With none of the keys held nothing is applied and the position stays put. */
  lemma {:induction false} WalkIdle(p: Vec3, ms: seq<Move>, keys: map<string, bool>, obstacles: seq<Box>, overall: Option<Box>)
    requires forall k :: 0 <= k < |ms| ==> !Held(keys, ms[k].key)
    ensures Walk(p, ms, keys, obstacles, overall).pos == p
    ensures true !in Walk(p, ms, keys, obstacles, overall).applied
    decreases |ms|
  {
    if ms != [] {
      WalkIdle(p, ms[..|ms| - 1], keys, obstacles, overall);
    }
  }
}
