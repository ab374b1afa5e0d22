/**
 * Bullets: straight pulses and player-seeking trackers. A bullet flies for
 * its lifetime, hurts the first opposing unit it overlaps and is consumed by
 * it; its sprite shows one of nine direction buckets.
 */
module Bullets {
  import opened Constants
  import opened Helpers
  import opened Base

  datatype BulletKind = Pulse | Tracker

  /** Everything a bullet is created from. */
  datatype Shot = Shot(kind: BulletKind, floorIndex: int, x: real, y: real, dx: real, dy: real,
                       speed: real, lifetime: real, friendly: bool, damage: int)

  /** What a drone-like unit's tick hands to physics and to the bullet list: the snapped position, a velocity, new bullets. */
  datatype TickOutcome = TickOutcome(moveTo: Point, velocity: Option<Point>, shots: seq<Shot>)

  /** `new BulletTracker(...)`: trackers always fly at 192 for 5 seconds. */
  function TrackerShot(floorIndex: int, x: real, y: real, dx: real, dy: real, friendly: bool, damage: int): (s: Shot)
    ensures s.kind == Tracker && s.speed == 192.0 && s.lifetime == 5.0
  {
    Shot(Tracker, floorIndex, x, y, dx, dy, 192.0, 5.0, friendly, damage)
  }

  /**
   * `new BulletPulse(...)` as the drones and enemies fire it along a facing:
   * from 8 pixels out of the shooter's position, for 2 seconds, dealing 5.
   */
  function PulseShot(floorIndex: int, x: real, y: real, f: Facing4Way, speed: real, friendly: bool): Shot
  {
    Shot(Pulse, floorIndex, x + (AxisX(f) * 8) as real, y + (AxisY(f) * 8) as real,
         AxisX(f) as real, AxisY(f) as real, speed, 2.0, friendly, 5)
  }

  /** The multishot side offset `(ox, oy)` of a facing. */
  function OffsetX(f: Facing4Way): int
  {
    if f == Up then -1 else if f == Down then 1 else 0
  }

  function OffsetY(f: Facing4Way): int
  {
    if f == Left then -1 else if f == Right then 1 else 0
  }

  /** A multishot volley: three pulses at 256, the facing plus, exactly, and minus the side offset. */
  function FanShots(floorIndex: int, x: real, y: real, f: Facing4Way, friendly: bool): seq<Shot>
  {
    var c := PulseShot(floorIndex, x, y, f, 256.0, friendly);
    [c.(dx := (AxisX(f) + OffsetX(f)) as real, dy := (AxisY(f) + OffsetY(f)) as real),
     c,
     c.(dx := (AxisX(f) - OffsetX(f)) as real, dy := (AxisY(f) - OffsetY(f)) as real)]
  }

  /**
   * A volley is three pulses of damage 5 from the same muzzle on one side;
   * the middle one flies along the facing and the outer ones add and
   * subtract a unit offset perpendicular to it.
   */
  lemma FanSpreadsAcrossTheFacing(floorIndex: int, x: real, y: real, f: Facing4Way, friendly: bool)
    ensures var v := FanShots(floorIndex, x, y, f, friendly);
      |v| == 3 &&
      (forall i :: 0 <= i < 3 ==>
        v[i].kind == Pulse && v[i].friendly == friendly && v[i].damage == 5 && v[i].speed == 256.0 &&
        v[i].lifetime == 2.0 && v[i].floorIndex == floorIndex &&
        v[i].x == x + (8 * AxisX(f)) as real && v[i].y == y + (8 * AxisY(f)) as real) &&
      v[1].dx == AxisX(f) as real && v[1].dy == AxisY(f) as real &&
      v[0].dx == v[1].dx + OffsetX(f) as real && v[0].dy == v[1].dy + OffsetY(f) as real &&
      v[2].dx == v[1].dx - OffsetX(f) as real && v[2].dy == v[1].dy - OffsetY(f) as real
    ensures OffsetX(f) * AxisX(f) + OffsetY(f) * AxisY(f) == 0
    ensures OffsetX(f) * OffsetX(f) + OffsetY(f) * OffsetY(f) == 1
  {
  }

  /**
   * `hit`'s allegiance test: a bullet affects a target only when the
   * bullet's side differs from the target's (player and drones are one side,
   * enemies the other).
   */
  predicate Opposes(friendly: bool, targetIsAlly: bool)
  {
    friendly != targetIsAlly
  }

  /** Friendly bullets only ever hurt enemies and hostile bullets only the player and drones. */
  lemma NoFriendlyFire(friendly: bool, targetIsAlly: bool)
    ensures Opposes(friendly, targetIsAlly) ==> (friendly <==> !targetIsAlly)
    ensures friendly && targetIsAlly ==> !Opposes(friendly, targetIsAlly)
    ensures !friendly && !targetIsAlly ==> !Opposes(friendly, targetIsAlly)
  {
  }

  /** The animation bucket of a direction: a component beyond 0.25 either way counts, else it is centred. */
  function Bucket(dx: real, dy: real): (f: Facing8Way)
    ensures f == CenterCenter <==> -0.25 <= dx <= 0.25 && -0.25 <= dy <= 0.25
    ensures f in {UpLeft, UpCenter, UpRight} <==> dy < -0.25
    ensures f in {DownLeft, DownCenter, DownRight} <==> dy > 0.25
    ensures f in {UpLeft, CenterLeft, DownLeft} <==> dx < -0.25
    ensures f in {UpRight, CenterRight, DownRight} <==> dx > 0.25
  {
    if dy < -0.25 then
      (if dx < -0.25 then UpLeft else if dx > 0.25 then UpRight else UpCenter)
    else if dy > 0.25 then
      (if dx < -0.25 then DownLeft else if dx > 0.25 then DownRight else DownCenter)
    else
      (if dx < -0.25 then CenterLeft else if dx > 0.25 then CenterRight else CenterCenter)
  }

  /** Every axis-aligned unit direction a pulse is fired in lands in a listed, non-centre bucket. */
  lemma AxisDirectionsHaveAnimations(f: Facing4Way)
    ensures Bucket(AxisX(f) as real, AxisY(f) as real) in FACING_8WAY
  {
    Facing8WayLeavesOutCentre();
  }

  /** `BulletBase` with its `BulletPulse` / `BulletTracker` subclass data. */
  class Bullet {
    const life: Lifecycle
    const kind: BulletKind
    const speed: real
    const friendly: bool
    const damage: int
    var x: real
    var y: real
    var dx: real
    var dy: real
    var lifetime: real
    /** Only trackers use it: the time left during which they re-aim at the player. */
    var trackingTime: real

    constructor (s: Shot)
      ensures fresh(life) && life.floorIndex == s.floorIndex && life.State() == Flags(false, false, false)
      ensures kind == s.kind && speed == s.speed && friendly == s.friendly && damage == s.damage
      ensures x == s.x && y == s.y && dx == s.dx && dy == s.dy && lifetime == s.lifetime
      ensures trackingTime == 0.125
    {
      life := new Lifecycle(s.floorIndex);
      kind := s.kind;
      speed := s.speed;
      friendly := s.friendly;
      damage := s.damage;
      x := s.x;
      y := s.y;
      dx := s.dx;
      dy := s.dy;
      lifetime := s.lifetime;
      trackingTime := 0.125;
    }

    /**
     * `update`: an active bullet moves at `speed` along its direction, loses
     * `dt` of lifetime and is destroyed once none is left; a tracker that
     * survives re-aims at the player (the unit vector `aim`) while its
     * tracking time lasts. Returns the velocity set and whether the bullet
     * expired (the caller then drops it from the bullet list).
     */
    method Update(dt: real, aim: Point) returns (velocity: Option<Point>, expired: bool)
      modifies this`lifetime, this`trackingTime, this`dx, this`dy, life`active, life`spawned
      ensures !old(life.active) ==>
        velocity == None && !expired && lifetime == old(lifetime) && trackingTime == old(trackingTime) &&
        dx == old(dx) && dy == old(dy) && life.State() == old(life.State())
      ensures old(life.active) ==>
        velocity == Some(Point(old(dx) * speed, old(dy) * speed)) &&
        lifetime == old(lifetime) - dt && expired == (lifetime <= 0.0)
      ensures expired ==>
        life.State() == DespawnFlags(old(life.State())) && trackingTime == old(trackingTime) &&
        dx == old(dx) && dy == old(dy)
      ensures old(life.active) && !expired ==> life.State() == old(life.State())
      ensures old(life.active) && !expired && kind == Tracker ==>
        trackingTime == old(trackingTime) - dt &&
        (if trackingTime > 0.0 then dx == aim.x && dy == aim.y else dx == old(dx) && dy == old(dy))
      ensures kind == Pulse ==> trackingTime == old(trackingTime) && dx == old(dx) && dy == old(dy)
    {
      velocity := None;
      expired := false;
      if !life.active {
        return;
      }
      velocity := Some(Point(dx * speed, dy * speed));
      lifetime := lifetime - dt;
      if lifetime <= 0.0 {
        life.Destroy();
        expired := true;
      }
      if kind == Tracker {
        if !life.active {
          return;
        }
        trackingTime := trackingTime - dt;
        if trackingTime > 0.0 {
          dx := aim.x;
          dy := aim.y;
        }
      }
    }

    /**
     * `hit`: a bullet that opposes the target hurts it by its damage and is
     * consumed, even when the target is invulnerable and takes nothing; one
     * on the target's side does nothing. `shielded` is the target's extra
     * invulnerability.
     */
    method Hit(target: Unit, targetIsAlly: bool, shielded: bool) returns (consumed: bool)
      modifies target`power, target`hurtTime
      ensures consumed == Opposes(friendly, targetIsAlly)
      ensures consumed ==>
        var taken := HurtAmount(old(target.power), damage, old(target.hurtTime) > 0.0 || shielded, target.dead);
        target.power == old(target.power) - taken &&
        target.hurtTime == (if taken > 0 then target.invulnPeriod else old(target.hurtTime))
      ensures !consumed ==> target.power == old(target.power) && target.hurtTime == old(target.hurtTime)
    {
      if friendly == targetIsAlly {
        return false;
      }
      var _ := target.Hurt(damage, shielded);
      consumed := true;
    }

    /** `postUpdate`: the animation bucket the sprite shows. */
    function Facing(): Facing8Way
      reads this
    {
      Bucket(dx, dy)
    }
  }
}
