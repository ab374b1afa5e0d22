/**
 * The player's drones. Every drone is a drone-like unit built from a
 * schematic, with the schematic's cost as its power; each tick it snaps to
 * its grid cell, drains one point of power (none while a boss pylon of its
 * floor is powered) and then acts by kind: turrets fire, trackers aim and
 * fire every other tick, punchers and strafers move along an axis and the
 * boomerang spins along a diagonal, bouncing off walls with a debounce.
 */
module Drones {
  import opened Constants
  import opened Helpers
  import opened Base
  import opened Schematics
  import opened Bullets

  /** `DroneBase.invulnPeriod`. */
  const DRONE_INVULN_PERIOD: real := 1.0

  /** The contact damage each drone class passes to `DroneBase`. */
  function ImpactDamage(kind: DroneKind): (d: int)
    ensures d >= 0
    ensures d > 0 <==> kind in {DroneHoverPunch, DroneSpinBoomerang, DroneDirectionalGun, DroneMultishot}
  {
    match kind
    case DroneGun => 0
    case DroneTracker => 0
    case DroneHoverPunch => 10
    case DroneSpinBoomerang => 15
    case DroneDirectionalGun => 5
    case DroneMultishot => 5
  }

  /** The kinds that keep a `subtick` and act on every other tick. */
  predicate Alternates(kind: DroneKind)
  {
    kind == DroneTracker || kind == DroneMultishot
  }

  /** The kinds that bounce off walls and count a `collisionDebounce` down every tick. */
  predicate Bounces(kind: DroneKind)
  {
    kind == DroneHoverPunch || kind == DroneSpinBoomerang || kind == DroneDirectionalGun
  }

  /** The facing a tick leaves: a tracker turns to the player's offset `aim`, the others keep theirs. */
  function TickedFacing(kind: DroneKind, facing: Facing4Way, aim: Point): Facing4Way
  {
    if kind == DroneTracker then Aim(aim.x, aim.y) else facing
  }

  function NextSubtick(kind: DroneKind, subtick: int): int
  {
    if Alternates(kind) then (subtick + 1) % 2 else subtick
  }

  /** The bullets a tick fires from position (x, y) with the (already turned) facing. */
  function DroneShots(kind: DroneKind, floorIndex: int, x: real, y: real, facing: Facing4Way, subtick: int): seq<Shot>
  {
    match kind
    case DroneGun => [PulseShot(floorIndex, x, y, facing, 512.0, true)]
    case DroneDirectionalGun => [PulseShot(floorIndex, x, y, facing, 512.0, true)]
    case DroneTracker =>
      if subtick == 1 then
        [TrackerShot(floorIndex, x + (8 * AxisX(facing)) as real, y + (8 * AxisY(facing)) as real,
                     AxisX(facing) as real, AxisY(facing) as real, true, 15)]
      else []
    case DroneMultishot => if subtick == 1 then FanShots(floorIndex, x, y, facing, true) else []
    case DroneHoverPunch => []
    case DroneSpinBoomerang => []
  }

  /** The velocity a tick sets: punchers at 128 and strafers at 64 along an axis, the boomerang at 64 diagonally. */
  function TickVelocity(kind: DroneKind, facing: Facing4Way, moveFacing: Facing4Way): Option<Point>
  {
    match kind
    case DroneHoverPunch => Some(AxisVelocity(facing, 128.0))
    case DroneSpinBoomerang => Some(SpinVelocity(facing, 64.0))
    case DroneDirectionalGun => Some(AxisVelocity(moveFacing, 64.0))
    case _ => None
  }

  /**
   * Every drone bullet is friendly, so it can only hurt enemies; turrets and
   * strafers fire one pulse of damage 5 along their facing every tick,
   * trackers one tracker bullet of damage 15 and multishots a volley of
   * three only on odd subticks, and punchers and boomerangs never shoot.
   */
  lemma DroneShotsAreFriendly(kind: DroneKind, floorIndex: int, x: real, y: real, facing: Facing4Way, subtick: int)
    ensures forall s :: s in DroneShots(kind, floorIndex, x, y, facing, subtick) ==>
      s.friendly && !Opposes(s.friendly, true) && s.floorIndex == floorIndex
    ensures kind in {DroneGun, DroneDirectionalGun} ==>
      var v := DroneShots(kind, floorIndex, x, y, facing, subtick);
      |v| == 1 && v[0].kind == Pulse && v[0].damage == 5 && v[0].speed == 512.0 &&
      v[0].dx == AxisX(facing) as real && v[0].dy == AxisY(facing) as real
    ensures kind == DroneTracker ==>
      var v := DroneShots(kind, floorIndex, x, y, facing, subtick);
      (|v| == 1 <==> subtick == 1) && (subtick != 1 ==> v == []) &&
      (subtick == 1 ==> v[0].kind == Tracker && v[0].damage == 15 && v[0].speed == 192.0)
    ensures kind == DroneMultishot ==>
      var v := DroneShots(kind, floorIndex, x, y, facing, subtick);
      (|v| == 3 <==> subtick == 1) && (subtick != 1 ==> v == [])
    ensures kind in {DroneHoverPunch, DroneSpinBoomerang} ==> DroneShots(kind, floorIndex, x, y, facing, subtick) == []
  {
    if kind == DroneMultishot && subtick == 1 {
      FanSpreadsAcrossTheFacing(floorIndex, x, y, facing, true);
    }
  }

  /** Trackers and multishots alternate between subticks 0 and 1; every other kind keeps its subtick. */
  lemma SubtickAlternates(kind: DroneKind, subtick: int)
    requires 0 <= subtick < 2
    ensures 0 <= NextSubtick(kind, subtick) < 2
    ensures Alternates(kind) ==> NextSubtick(kind, subtick) != subtick
    ensures NextSubtick(kind, NextSubtick(kind, subtick)) == subtick
    ensures !Alternates(kind) ==> NextSubtick(kind, subtick) == subtick
  {
  }

  /** A puncher moves at 128 along its facing and a strafer at 64 along its move facing. */
  lemma AxisMoversKeepTheirSpeed(facing: Facing4Way, moveFacing: Facing4Way)
    ensures var v := TickVelocity(DroneHoverPunch, facing, moveFacing).value;
      v.x * v.x + v.y * v.y == 128.0 * 128.0 && Reach(facing, v.x, v.y) == 128.0
    ensures var v := TickVelocity(DroneDirectionalGun, facing, moveFacing).value;
      v.x * v.x + v.y * v.y == 64.0 * 64.0 && Reach(moveFacing, v.x, v.y) == 64.0
  {
    AxisIsUnitVector(facing);
    AxisIsUnitVector(moveFacing);
  }

  /** `DroneBase` and its six subclasses: one class, with the subclass chosen by the schematic's kind. */
  class Drone {
    const unit: Unit
    const schematic: DroneSchematic
    const impactDamage: int
    /** Trackers and multishots: which half of the fire cycle comes next. */
    var subtick: int
    /** Punchers, boomerangs and strafers: ticks until the next wall bounce counts. */
    var collisionDebounce: int
    /** Strafers: the axis they move along, a quarter turn clockwise from where they aim. */
    var moveFacing: Facing4Way

    /** `schematic.create(player, schematic)`: a drone at the player's position and facing. */
    constructor (floorIndex: int, x: real, y: real, facing: Facing4Way, schematic: DroneSchematic)
      ensures fresh(unit) && fresh(unit.life)
      ensures unit.life.floorIndex == floorIndex && unit.life.State() == Flags(false, false, false)
      ensures unit.x == x && unit.y == y && unit.facing == facing
      ensures unit.power == schematic.cost && unit.maxPower == schematic.cost
      ensures unit.invulnPeriod == DRONE_INVULN_PERIOD && unit.hurtTime == 0.0 && !unit.dead
      ensures this.schematic == schematic && impactDamage == ImpactDamage(schematic.kind)
      ensures subtick == 0 && collisionDebounce == 0
      ensures moveFacing == if schematic.kind == DroneDirectionalGun then Clockwise(facing) else Up
    {
      unit := new Unit(floorIndex, x, y, schematic.cost, schematic.cost, DRONE_INVULN_PERIOD, facing);
      this.schematic := schematic;
      impactDamage := ImpactDamage(schematic.kind);
      subtick := 0;
      collisionDebounce := 0;
      moveFacing := if schematic.kind == DroneDirectionalGun then Clockwise(facing) else Up;
    }

    /** The overlap guard: only a living drone with power left deals contact damage. */
    predicate CanHurtOnContact()
      reads unit
    {
      !unit.dead && unit.power > 0
    }

    /** Contact with an enemy: hurts it by the impact damage when the guard holds. */
    method Contact(target: Unit, shielded: bool) returns (taken: int)
      modifies target`power, target`hurtTime
      ensures !old(CanHurtOnContact()) ==> taken == 0 && target.power == old(target.power) && target.hurtTime == old(target.hurtTime)
      ensures old(CanHurtOnContact()) ==>
        taken == HurtAmount(old(target.power), impactDamage, old(target.hurtTime) > 0.0 || shielded, target.dead) &&
        target.power == old(target.power) - taken &&
        target.hurtTime == (if taken > 0 then target.invulnPeriod else old(target.hurtTime))
    {
      taken := 0;
      if !unit.dead && unit.power > 0 {
        taken := target.Hurt(impactDamage, shielded);
      }
    }

    /**
     * `DroneBase.tick`: snap to the grid cell and drain one point of power
     * unless a boss pylon of this floor is powered.
     */
    method BaseTick(poweredBossPylonOnFloor: bool) returns (moveTo: Point)
      modifies unit`power
      ensures moveTo == old(unit.SnappedPosition())
      ensures unit.power == old(unit.power) - (if poweredBossPylonOnFloor then 0 else 1)
    {
      moveTo := unit.SnappedPosition();
      if !poweredBossPylonOnFloor {
        unit.power := unit.power - 1;
      }
    }

    /** `tick` of the drone's class; `aim` is the offset from the drone to the player. */
    method Tick(poweredBossPylonOnFloor: bool, aim: Point) returns (out: TickOutcome)
      modifies unit`power, unit`facing, this`subtick, this`collisionDebounce
      ensures unit.power == old(unit.power) - (if poweredBossPylonOnFloor then 0 else 1)
      ensures unit.facing == TickedFacing(schematic.kind, old(unit.facing), aim)
      ensures subtick == NextSubtick(schematic.kind, old(subtick))
      ensures collisionDebounce == old(collisionDebounce) - (if Bounces(schematic.kind) then 1 else 0)
      ensures out == TickOutcome(old(unit.SnappedPosition()),
                                 TickVelocity(schematic.kind, unit.facing, moveFacing),
                                 DroneShots(schematic.kind, unit.life.floorIndex, unit.x, unit.y, unit.facing, old(subtick)))
    {
      var moveTo := BaseTick(poweredBossPylonOnFloor);
      var shots: seq<Shot> := [];
      var velocity: Option<Point> := None;
      match schematic.kind {
        case DroneGun =>
          shots := [PulseShot(unit.life.floorIndex, unit.x, unit.y, unit.facing, 512.0, true)];
        case DroneTracker =>
          unit.facing := Aim(aim.x, aim.y);
          if subtick == 1 {
            var f := unit.facing;
            shots := [TrackerShot(unit.life.floorIndex, unit.x + (8 * AxisX(f)) as real, unit.y + (8 * AxisY(f)) as real,
                                  AxisX(f) as real, AxisY(f) as real, true, 15)];
          }
          subtick := (subtick + 1) % 2;
        case DroneHoverPunch =>
          velocity := Some(AxisVelocity(unit.facing, 128.0));
          collisionDebounce := collisionDebounce - 1;
        case DroneSpinBoomerang =>
          velocity := Some(SpinVelocity(unit.facing, 64.0));
          collisionDebounce := collisionDebounce - 1;
        case DroneDirectionalGun =>
          velocity := Some(AxisVelocity(moveFacing, 64.0));
          collisionDebounce := collisionDebounce - 1;
          shots := [PulseShot(unit.life.floorIndex, unit.x, unit.y, unit.facing, 512.0, true)];
        case DroneMultishot =>
          if subtick == 1 {
            shots := FanShots(unit.life.floorIndex, unit.x, unit.y, unit.facing, true);
          }
          subtick := (subtick + 1) % 2;
      }
      out := TickOutcome(moveTo, velocity, shots);
    }

    /**
     * `wallCollision` with the blocked sides `b`: a bouncing drone whose
     * debounce has run out sets it to 2 and turns (punchers reverse their
     * facing, strafers their move facing, boomerangs take the blocked-side
     * remap and then run a whole tick); punchers and strafers then run the
     * base tick. Otherwise nothing happens and the result is `None`.
     */
    method WallCollision(b: Blocked, poweredBossPylonOnFloor: bool) returns (out: Option<TickOutcome>)
      modifies unit`power, unit`facing, this`subtick, this`collisionDebounce, this`moveFacing
      ensures !Bounces(schematic.kind) || old(collisionDebounce) > 0 ==>
        out == None && unit.power == old(unit.power) && unit.facing == old(unit.facing) &&
        collisionDebounce == old(collisionDebounce) && moveFacing == old(moveFacing)
      ensures subtick == old(subtick)
      ensures Bounces(schematic.kind) && old(collisionDebounce) <= 0 ==>
        unit.power == old(unit.power) - (if poweredBossPylonOnFloor then 0 else 1) &&
        out.Some? && out.value.moveTo == old(unit.SnappedPosition()) && out.value.shots == [] &&
        out.value.velocity == TickVelocity(schematic.kind, unit.facing, moveFacing)
      ensures schematic.kind == DroneHoverPunch && old(collisionDebounce) <= 0 ==>
        unit.facing == Opposite(old(unit.facing)) && collisionDebounce == 2 && moveFacing == old(moveFacing)
      ensures schematic.kind == DroneSpinBoomerang && old(collisionDebounce) <= 0 ==>
        unit.facing == SpinRemap(old(unit.facing), b) && collisionDebounce == 1 && moveFacing == old(moveFacing)
      ensures schematic.kind == DroneDirectionalGun && old(collisionDebounce) <= 0 ==>
        moveFacing == Opposite(old(moveFacing)) && collisionDebounce == 2 && unit.facing == old(unit.facing)
    {
      out := None;
      if !Bounces(schematic.kind) || collisionDebounce > 0 {
        return;
      }
      collisionDebounce := 2;
      if schematic.kind == DroneHoverPunch {
        unit.facing := Opposite(unit.facing);
        var moveTo := BaseTick(poweredBossPylonOnFloor);
        out := Some(TickOutcome(moveTo, Some(AxisVelocity(unit.facing, 128.0)), []));
      } else if schematic.kind == DroneSpinBoomerang {
        unit.facing := SpinRemap(unit.facing, b);
        var o := Tick(poweredBossPylonOnFloor, Point(0.0, 0.0));
        out := Some(o);
      } else {
        moveFacing := Opposite(moveFacing);
        var moveTo := BaseTick(poweredBossPylonOnFloor);
        out := Some(TickOutcome(moveTo, Some(AxisVelocity(moveFacing, 64.0)), []));
      }
    }
  }
}
