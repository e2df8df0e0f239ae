/** `IReclaimTask`: a builder task that reclaims either one target unit or
    everything in an area. Assignment bookkeeping of the base classes is
    reduced to the assignee set and the summed build power; `AbortTask` of
    the manager is recorded as a flag. */
module Reclaim {
  import opened Common

  /** The radius of a reclaim-in-area order. When the whole map is to be
      reclaimed, the radius is the half-diagonal `sqrt(halfWidth² + halfHeight²)`,
      which is kept symbolic. */
  datatype Radius = HalfDiagonal(halfWidth: int, halfHeight: int) | Given(r: real)

  /** The orders `Execute` gives the unit, in order. */
  datatype Order =
    | SetPriority(p: Priority)
    | ReclaimUnit(target: UnitId, untilFrame: int)
    | ReclaimInArea(centre: Pos, radius: Radius, untilFrame: int)

  /** `CanAssignTo`: the unit can reclaim and the work left is more than the
      current build power finishes within `maxBuildSec` seconds. */
  predicate Assignable(ableToReclaim: bool, cost: real, buildPower: real, maxBuildSec: real)
  {
    ableToReclaim && cost > buildPower * maxBuildSec
  }

  /** Adding build power never makes a task assignable again once it stopped
      being assignable. */
  lemma AssignableAntitone(ableToReclaim: bool, cost: real, bp1: real, bp2: real, maxBuildSec: real)
    requires 0.0 <= maxBuildSec && bp1 <= bp2
    ensures Assignable(ableToReclaim, cost, bp2, maxBuildSec) ==> Assignable(ableToReclaim, cost, bp1, maxBuildSec)
  {
    assert bp1 * maxBuildSec <= bp2 * maxBuildSec;
  }

  /** A square of an integer between `0` and `2w` minus `w` is at most `w²`. */
  lemma CentredSquare(x: int, w: int)
    requires 0 <= x <= 2 * w
    ensures (x - w) * (x - w) <= w * w
  {
    assert (x - w) * (x - w) == w * w - x * (2 * w - x);
    assert x * (2 * w - x) >= 0;
  }

  class ReclaimTask {
    var priority: Priority
    /** `None` stands for the invalid position `-RgtVector`. */
    var position: Option<Pos>
    var radius: real
    var cost: real
    var isMetal: bool
    var timeout: int
    var target: Option<UnitId>
    var units: set<UnitId>
    var buildPower: real
    var lastTouched: int
    /** Units that were given a d-gun action on assignment, in order. */
    var dgunUnits: seq<UnitId>
    var aborted: bool

    /** The area constructor. */
    constructor InArea(priority: Priority, position: Option<Pos>, cost: real, timeout: int, radius: real, isMetal: bool)
      ensures this.priority == priority && this.position == position && this.cost == cost
      ensures this.timeout == timeout && this.radius == radius && this.isMetal == isMetal
      ensures target == None && units == {} && buildPower == 0.0 && dgunUnits == [] && !aborted
    {
      this.priority := priority;
      this.position := position;
      this.cost := cost;
      this.timeout := timeout;
      this.radius := radius;
      this.isMetal := isMetal;
      target := None;
      units := {};
      buildPower := 0.0;
      lastTouched := -1;
      dgunUnits := [];
      aborted := false;
    }

    /** The target constructor: no position, radius 0, cost 1000, not metal. */
    constructor OnTarget(priority: Priority, target: UnitId, timeout: int)
      ensures this.priority == priority && this.timeout == timeout
      ensures position == None && radius == 0.0 && cost == 1000.0 && !isMetal
      ensures this.target == Some(target)
      ensures units == {} && buildPower == 0.0 && dgunUnits == [] && !aborted
    {
      this.priority := priority;
      position := None;
      cost := 1000.0;
      this.timeout := timeout;
      radius := 0.0;
      isMetal := false;
      this.target := Some(target);
      units := {};
      buildPower := 0.0;
      lastTouched := -1;
      dgunUnits := [];
      aborted := false;
    }

    /** `ableToReclaim` is `IsAbleToReclaim()` of the unit's definition;
        `maxBuildSec` is the engine-wide `MAX_BUILD_SEC`. */
    predicate CanAssignTo(ableToReclaim: bool, maxBuildSec: real)
      reads this
    {
      Assignable(ableToReclaim, cost, buildPower, maxBuildSec)
    }

    /** The unit joins; an invalid position is replaced by the unit's own,
        a unit with a d-gun is given a d-gun action, and the task is touched
        at the current frame. */
    method AssignTo(unit: UnitId, unitPos: Pos, hasDGun: bool, frame: int)
      modifies this
      ensures units == old(units) + {unit}
      ensures position == (if old(position).None? then Some(unitPos) else old(position))
      ensures dgunUnits == old(dgunUnits) + (if hasDGun then [unit] else [])
      ensures lastTouched == frame
      ensures priority == old(priority) && radius == old(radius) && cost == old(cost) && isMetal == old(isMetal)
      ensures timeout == old(timeout) && target == old(target) && buildPower == old(buildPower) && aborted == old(aborted)
    {
      units := units + {unit};
      if position.None? {
        position := Some(unitPos);
      }
      if hasDGun {
        dgunUnits := dgunUnits + [unit];
      }
      lastTouched := frame;
    }

    /** The task aborts when its last assignee leaves. `basePower` is the
        build power `IBuilderTask::RemoveAssignee`, which runs first and is
        not part of this model, leaves. */
    method RemoveAssignee(unit: UnitId, basePower: real)
      modifies this
      ensures units == old(units) - {unit}
      ensures aborted == (old(aborted) || units == {})
      ensures priority == old(priority) && position == old(position) && radius == old(radius) && cost == old(cost)
      ensures isMetal == old(isMetal) && timeout == old(timeout) && target == old(target)
      ensures buildPower == basePower && lastTouched == old(lastTouched) && dgunUnits == old(dgunUnits)
    {
      units := units - {unit};
      buildPower := basePower;
      if units == {} {
        aborted := true;
      }
    }

    /** An idle assignee always aborts the task. */
    method OnUnitIdle(unit: UnitId)
      modifies this
      ensures aborted
      ensures units == old(units) && position == old(position) && lastTouched == old(lastTouched)
      ensures priority == old(priority) && radius == old(radius) && cost == old(cost) && isMetal == old(isMetal)
      ensures timeout == old(timeout) && target == old(target) && buildPower == old(buildPower) && dgunUnits == old(dgunUnits)
    {
      aborted := true;
    }

    /** The orders of `Execute` at `frame` on a map of `terrainWidth` by
        `terrainHeight` elmos. */
    function Execute(frame: int, terrainWidth: nat, terrainHeight: nat): (orders: seq<Order>)
      reads this
      ensures |orders| == 2 && orders[0] == SetPriority(priority)
      ensures target.Some? ==> orders[1] == ReclaimUnit(target.value, frame + FRAMES_PER_SEC * 60)
      ensures target.None? ==> orders[1].ReclaimInArea? && orders[1].untilFrame == frame + FRAMES_PER_SEC * 60
    {
      [SetPriority(priority)] + [ReclaimOrder(target, position, radius, frame, terrainWidth, terrainHeight)]
    }
  }

  /** The second order of `Execute`: the target when there is one, otherwise
      the given area, or the whole map when no area is given. */
  function ReclaimOrder(target: Option<UnitId>, position: Option<Pos>, radius: real,
                        frame: int, terrainWidth: nat, terrainHeight: nat): Order
  {
    var until := frame + FRAMES_PER_SEC * 60;
    if target.Some? then ReclaimUnit(target.value, until)
    else if radius == 0.0 || position.None? then
      ReclaimInArea(Pos(terrainWidth / 2, terrainHeight / 2), HalfDiagonal(terrainWidth / 2, terrainHeight / 2), until)
    else ReclaimInArea(position.value, Given(radius), until)
  }

  /** Without a target and without an area, the order is centred on the map
      and its radius reaches every point `0 <= p <= 2 * (size / 2)`. The
      engine's terrain sizes are multiples of `SQUARE_SIZE` (8 elmos), hence
      even, so that range is the whole map. */
  lemma {:induction false} WholeMapReclaim(position: Option<Pos>, radius: real, frame: int,
                                           terrainWidth: nat, terrainHeight: nat, p: Pos)
    requires radius == 0.0 || position.None?
    requires 0 <= p.x <= 2 * (terrainWidth / 2) && 0 <= p.z <= 2 * (terrainHeight / 2)
    ensures var o := ReclaimOrder(None, position, radius, frame, terrainWidth, terrainHeight);
            o.ReclaimInArea? && o.radius.HalfDiagonal?
            && QDist(p, o.centre) <= o.radius.halfWidth * o.radius.halfWidth + o.radius.halfHeight * o.radius.halfHeight
  {
    var w := terrainWidth / 2;
    var h := terrainHeight / 2;
    CentredSquare(p.x, w);
    CentredSquare(p.z, h);
  }

  /** With an area given, the order uses exactly that area. */
  lemma GivenAreaReclaim(pos: Pos, radius: real, frame: int, terrainWidth: nat, terrainHeight: nat)
    requires radius != 0.0
    ensures ReclaimOrder(None, Some(pos), radius, frame, terrainWidth, terrainHeight)
            == ReclaimInArea(pos, Given(radius), frame + FRAMES_PER_SEC * 60)
  {
  }
}
