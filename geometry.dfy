/** Ground-plane arithmetic of `CEconomyManager`: the facing a building is
    given from its position on the map, the small position offsets applied
    before move and patrol orders, the site of a caretaker next to a
    factory, and the random fallback site. Coordinates are elmos, as reals;
    `terWidth`/`terHeight` are the map size in elmos
    (`GetWidth() * SQUARE_SIZE`). */
module Geometry {
  import opened Common

  datatype Point = Point(x: real, z: real)

  /** `UNIT_FACING_*`. In the engine's frame, south is `+z` and east is `+x`. */
  datatype Facing = SOUTH | EAST | NORTH | WEST

  function AbsR(r: real): real { if r < 0.0 then -r else r }

  /** Squared ground distance (the `qdist` lambdas). */
  function QDistR(a: Point, b: Point): (d: real)
    ensures d >= 0.0
  {
    (a.x - b.x) * (a.x - b.x) + (a.z - b.z) * (a.z - b.z)
  }

  /** The `findFacing` lambda (and the same test in the commander's
      finished handler): along the axis on which the position is farther
      from the map centre, the building faces the centre. */
  function FindFacing(terWidth: real, terHeight: real, p: Point): Facing {
    if AbsR(terWidth - 2.0 * p.x) > AbsR(terHeight - 2.0 * p.z) then
      (if 2.0 * p.x > terWidth then WEST else EAST)
    else
      (if 2.0 * p.z > terHeight then NORTH else SOUTH)
  }

  /** The unit vector a facing points along. */
  function DirX(f: Facing): real {
    match f
    case EAST => 1.0
    case WEST => -1.0
    case _ => 0.0
  }

  function DirZ(f: Facing): real {
    match f
    case SOUTH => 1.0
    case NORTH => -1.0
    case _ => 0.0
  }

  /** The chosen facing never points away from the map centre, and it is
      along the axis of the larger offset from the centre. */
  lemma FacingTowardCentre(terWidth: real, terHeight: real, p: Point)
    ensures var f := FindFacing(terWidth, terHeight, p);
            var ox := 2.0 * p.x - terWidth;
            var oz := 2.0 * p.z - terHeight;
            && DirX(f) * ox + DirZ(f) * oz <= 0.0
            && (DirX(f) != 0.0 ==> AbsR(ox) > AbsR(oz))
            && (DirZ(f) != 0.0 ==> AbsR(oz) >= AbsR(ox))
  {
  }

  function MirrorX(f: Facing): Facing {
    match f
    case EAST => WEST
    case WEST => EAST
    case _ => f
  }

  /** Mirroring the position across the vertical centre line mirrors the
      facing: the rule depends only on the offset from the centre. */
  lemma FacingMirrorX(terWidth: real, terHeight: real, p: Point)
    ensures FindFacing(terWidth, terHeight, Point(terWidth - p.x, p.z)) == MirrorX(FindFacing(terWidth, terHeight, p))
  {
  }

  /** Moving the map and the position together changes nothing. */
  lemma FacingTranslate(terWidth: real, terHeight: real, p: Point, dx: real, dz: real)
    ensures FindFacing(terWidth + 2.0 * dx, terHeight + 2.0 * dz, Point(p.x + dx, p.z + dz))
            == FindFacing(terWidth, terHeight, p)
  {
  }

  /** `pos.x += (pos.x > centre) ? -size : size` on one axis: a step of
      `size` toward the centre `half` (the centre is computed in integer
      elmos, `GetWidth() * SQUARE_SIZE / 2`). */
  function Nudge(v: real, half: int, size: real): real {
    if v > half as real then v - size else v + size
  }

  function NudgePoint(p: Point, halfWidth: int, halfHeight: int, size: real): Point {
    Point(Nudge(p.x, halfWidth, size), Nudge(p.z, halfHeight, size))
  }

  /** A nudge no larger than half the map keeps a position on the map.
      Its direction is toward the centre. */
  lemma NudgeStaysOnMap(v: real, half: int, size: real)
    requires 0.0 <= v <= 2.0 * half as real
    requires 0.0 < size <= half as real
    ensures 0.0 <= Nudge(v, half, size) <= 2.0 * half as real
    ensures v > half as real <==> Nudge(v, half, size) < v
  {
  }

  /** Where a caretaker is placed for a factory at `p`: behind it, that is
      opposite to its facing, by `0.55` of the factory's footprint along
      that axis (`xSize`/`zSize` are footprint sizes in map squares). */
  function NanoSite(p: Point, f: Facing, xSize: int, zSize: int): Point {
    var offX := xSize as real * 0.55 * SQUARE_SIZE as real;
    var offZ := zSize as real * 0.55 * SQUARE_SIZE as real;
    match f
    case SOUTH => Point(p.x, p.z - offZ)
    case EAST => Point(p.x - offX, p.z)
    case NORTH => Point(p.x, p.z + offZ)
    case WEST => Point(p.x + offX, p.z)
  }

  /** The caretaker site lies straight behind the factory. */
  lemma NanoSiteBehind(p: Point, f: Facing, xSize: int, zSize: int)
    requires xSize > 0 && zSize > 0
    ensures var s := NanoSite(p, f, xSize, zSize);
            var along := (s.x - p.x) * DirX(f) + (s.z - p.z) * DirZ(f);
            && along < 0.0
            && (DirX(f) == 0.0 ==> s.x == p.x)
            && (DirZ(f) == 0.0 ==> s.z == p.z)
            && (DirX(f) != 0.0 ==> along == -(xSize as real * 4.4))
            && (DirZ(f) != 0.0 ==> along == -(zSize as real * 4.4))
  {
  }

  /** The fallback site drawn with `rand()` when no spot or cluster is
      available: `terWidth/4 + rand() % (terWidth/2 + 1)` on each axis, in
      integer arithmetic. `r1` and `r2` are the two draws. */
  function RandomSite(terWidth: nat, terHeight: nat, r1: nat, r2: nat): Point {
    Point((terWidth / 4 + r1 % (terWidth / 2 + 1)) as real, (terHeight / 4 + r2 % (terHeight / 2 + 1)) as real)
  }

  /** The fallback site lies in the central part of the map, between a
      quarter and three quarters of each side. */
  lemma RandomSiteCentral(terWidth: nat, terHeight: nat, r1: nat, r2: nat)
    ensures var s := RandomSite(terWidth, terHeight, r1, r2);
            && (terWidth / 4) as real <= s.x <= (terWidth / 4 + terWidth / 2) as real <= terWidth as real
            && (terHeight / 4) as real <= s.z <= (terHeight / 4 + terHeight / 2) as real <= terHeight as real
  {
  }
}
