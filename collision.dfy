/** The collision test `canMove`: may the character step by (dx, 0, dz)? */
module Collision {
  import opened Geometry
  import opened Wrappers

  /** Size of the character's collision box: width 2, height 5, depth 2. */
  const PlayerSize: Vec3 := Vec3(2.0, 5.0, 2.0)

  /** The box the character would occupy after stepping by (dx, 0, dz) from `pos`. */
  function Candidate(pos: Vec3, dx: real, dz: real): Box {
    FromCenterAndSize(Vec3(pos.x + dx, pos.y, pos.z + dz), PlayerSize)
  }

  /** A candidate box is acceptable when it touches no obstacle box and, once the
      overall court box is known, lies entirely inside it. */
  predicate Permitted(candidate: Box, obstacles: seq<Box>, overall: Option<Box>) {
    (forall i :: 0 <= i < |obstacles| ==> !Intersects(candidate, obstacles[i])) &&
    (overall.Some? ==> ContainsBox(overall.value, candidate))
  }

  /** `canMove(dx, dz)`: scans the obstacle boxes in order and rejects at the first one
      the candidate box meets, then checks the overall box if there is one. */
  method CanMove(pos: Vec3, dx: real, dz: real, obstacles: seq<Box>, overall: Option<Box>)
    returns (ok: bool)
    ensures ok <==> Permitted(Candidate(pos, dx, dz), obstacles, overall)
  {
    var next := Vec3(pos.x + dx, pos.y, pos.z + dz);
    var playerBox := FromCenterAndSize(next, PlayerSize);
    for i := 0 to |obstacles|
      invariant forall j :: 0 <= j < i ==> !Intersects(playerBox, obstacles[j])
    {
      if Intersects(playerBox, obstacles[i]) {
        return false;
      }
    }
    if overall.Some? && !ContainsBox(overall.value, playerBox) {
      return false;
    }
    return true;
  }

  /** Before the court is loaded there are no obstacles and no bound: every move is allowed. */
  lemma NothingLoadedPermitsAll(pos: Vec3, dx: real, dz: real)
    ensures Permitted(Candidate(pos, dx, dz), [], None)
  {
  }

  /** A candidate that meets any obstacle box is rejected, whatever the overall box. */
  lemma ObstacleBlocks(pos: Vec3, dx: real, dz: real, obstacles: seq<Box>, overall: Option<Box>, k: nat)
    requires k < |obstacles| && Intersects(Candidate(pos, dx, dz), obstacles[k])
    ensures !Permitted(Candidate(pos, dx, dz), obstacles, overall)
  {
  }

  /** An accepted step keeps the character's centre at least half its size away from
      every face of the overall box. */
  lemma PermittedStaysInside(pos: Vec3, dx: real, dz: real, obstacles: seq<Box>, o: Box)
    requires Permitted(Candidate(pos, dx, dz), obstacles, Some(o))
    ensures o.min.x + 1.0 <= pos.x + dx <= o.max.x - 1.0
    ensures o.min.y + 2.5 <= pos.y <= o.max.y - 2.5
    ensures o.min.z + 1.0 <= pos.z + dz <= o.max.z - 1.0
  {
  }
}
