/**
 * The entity and unit base classes: the lifecycle flags every entity
 * carries, the floor arithmetic, and the power/damage/invulnerability rules
 * shared by the player, the drones and the enemies.
 */
module Base {
  import opened Constants
  import opened Helpers

  /** `floorIndex % 5` with JavaScript's truncating remainder. */
  function FloorNumber(floorIndex: int): (n: int)
    ensures floorIndex >= 0 ==> 0 <= n < 5 && floorIndex == 5 * SectionNumber(floorIndex) + n
    ensures floorIndex < 0 ==> -5 < n <= 0 && n == -((-floorIndex) % 5)
  {
    if floorIndex >= 0 then floorIndex % 5 else -((-floorIndex) % 5)
  }

  /** `Math.floor(floorIndex / 5)`: the five-floor section a floor belongs to. */
  function SectionNumber(floorIndex: int): (s: int)
    ensures 5 * s <= floorIndex < 5 * s + 5
  {
    floorIndex / 5
  }

  /** Floors 0, 5, 10, ... are the top floors of their sections and 4, 9, 14, ... the boss floors. */
  lemma FloorNumberCycles(floorIndex: nat)
    ensures FloorNumber(floorIndex + 5) == FloorNumber(floorIndex)
    ensures SectionNumber(floorIndex + 5) == SectionNumber(floorIndex) + 1
    ensures FloorNumber(floorIndex) == 4 ==> FloorNumber(floorIndex + 1) == 0
    ensures FloorNumber(floorIndex) != 4 ==> SectionNumber(floorIndex + 1) == SectionNumber(floorIndex)
  {
  }

  /** The three lifecycle flags of an entity. */
  datatype Flags = Flags(active: bool, spawned: bool, initialized: bool)

  /** What `spawn` leaves behind: despawned, then active and spawned, and initialized. */
  function SpawnFlags(f: Flags): (g: Flags)
    ensures g.active && g.spawned && g.initialized
  {
    Flags(true, true, true)
  }

  /** What `despawn` (and the base `destroy`) leaves behind: inactive, not spawned, initialization kept. */
  function DespawnFlags(f: Flags): (g: Flags)
    ensures !g.active && !g.spawned && g.initialized == f.initialized
  {
    Flags(false, false, f.initialized)
  }

  /** `spawn` runs `initialize` exactly when the entity was never initialized. */
  function RunsInitialize(f: Flags): bool
  {
    !f.initialized
  }

  /**
   * Spawning twice leaves the same flags as spawning once, and initialization
   * runs only on the first spawn of an entity, even across despawns.
   */
  lemma SpawnIsIdempotent(f: Flags)
    ensures SpawnFlags(SpawnFlags(f)) == SpawnFlags(f)
    ensures !RunsInitialize(SpawnFlags(f))
    ensures !RunsInitialize(SpawnFlags(DespawnFlags(SpawnFlags(f))))
    ensures DespawnFlags(DespawnFlags(f)) == DespawnFlags(f)
  {
  }

  /** `EntityBase`: the floor an entity lives on and its lifecycle flags. */
  class Lifecycle {
    var floorIndex: int
    var active: bool
    var initialized: bool
    var spawned: bool

    function State(): Flags
      reads this
    {
      Flags(active, spawned, initialized)
    }

    constructor (floorIndex: int)
      ensures this.floorIndex == floorIndex
      ensures State() == Flags(false, false, false)
    {
      this.floorIndex := floorIndex;
      active := false;
      initialized := false;
      spawned := false;
    }

    /** `spawn`; the result says whether `initialize` ran. */
    method Spawn() returns (ranInitialize: bool)
      modifies this`active, this`spawned, this`initialized
      ensures State() == SpawnFlags(old(State()))
      ensures ranInitialize == RunsInitialize(old(State()))
    {
      Despawn();
      active := true;
      spawned := true;
      ranInitialize := !initialized;
      if !initialized {
        initialized := true;
      }
    }

    method Despawn()
      modifies this`active, this`spawned
      ensures State() == DespawnFlags(old(State()))
    {
      active := false;
      spawned := false;
    }

    /** The base `destroy` only despawns; subclasses also leave their list. */
    method Destroy()
      modifies this`active, this`spawned
      ensures State() == DespawnFlags(old(State()))
    {
      Despawn();
    }
  }

  /** The damage a `hurt(damage)` call takes off: nothing while invulnerable or dead, else at most the power left. */
  function HurtAmount(power: int, damage: int, invulnerable: bool, dead: bool): (d: int)
    ensures d >= 0
    ensures d <= damage || d == 0
    ensures power >= 0 ==> d <= power
    ensures (invulnerable || dead) ==> d == 0
    ensures !invulnerable && !dead && power > 0 && damage > 0 ==> d > 0 && (d == power || d == damage)
  {
    if invulnerable || dead then 0
    else
      var dmg := if power <= damage then power else damage;
      if dmg > 0 then dmg else 0
  }

  /** A unit that is hit again before its invulnerability period has run out loses no more power. */
  lemma InvulnerabilityWindow(power: int, d1: int, d2: int, period: real, elapsed: real)
    requires period > 0.0 && 0.0 <= elapsed < period
    requires HurtAmount(power, d1, false, false) > 0
    ensures HurtAmount(power - HurtAmount(power, d1, false, false), d2, period - elapsed > 0.0, false) == 0
  {
  }

  /** `postUpdate`'s death test: an active, living unit whose power has run out dies. */
  function DiesNow(active: bool, power: int, dead: bool): bool
  {
    active && power <= 0 && !dead
  }

  /** What `postUpdate` sees of a unit in one frame. */
  datatype Frame = Frame(active: bool, power: int)

  /** How many times `die` runs over a sequence of frames. */
  function DeathCount(dead: bool, frames: seq<Frame>): nat
    decreases |frames|
  {
    if |frames| == 0 then 0
    else
      var d := DiesNow(frames[0].active, frames[0].power, dead);
      (if d then 1 else 0) + DeathCount(dead || d, frames[1..])
  }

  /**
   * `die` runs at most once in a unit's life, and it runs exactly when some
   * frame finds the (not yet dead) unit active with no power left.
   */
  lemma {:induction false} DiesAtMostOnce(dead: bool, frames: seq<Frame>)
    ensures DeathCount(dead, frames) <= 1
    ensures dead ==> DeathCount(dead, frames) == 0
    ensures !dead ==> (DeathCount(dead, frames) == 1 <==>
                       exists i :: 0 <= i < |frames| && frames[i].active && frames[i].power <= 0)
    decreases |frames|
  {
    if |frames| > 0 {
      var d := DiesNow(frames[0].active, frames[0].power, dead);
      DiesAtMostOnce(dead || d, frames[1..]);
      if !dead && !d {
        if exists i :: 0 <= i < |frames| && frames[i].active && frames[i].power <= 0 {
          var i :| 0 <= i < |frames| && frames[i].active && frames[i].power <= 0;
          assert i > 0 && frames[1..][i - 1] == frames[i];
        }
        if exists i :: 0 <= i < |frames| - 1 && frames[1..][i].active && frames[1..][i].power <= 0 {
          var i :| 0 <= i < |frames| - 1 && frames[1..][i].active && frames[1..][i].power <= 0;
          assert frames[i + 1] == frames[1..][i];
        }
      }
    }
  }

  /**
   * The drone-like tick test: `tick` is the latest multiple of the tick rate
   * not above `t`, and a tick runs when `t / rate >= tick` and the previous
   * frame time `t - dt` is not past it.
   */
  function TickBoundary(t: real, rate: real): real
    requires rate > 0.0
  {
    (t / rate).Floor as real * rate
  }

  function TickDue(t: real, dt: real, rate: real): bool
    requires rate > 0.0
  {
    t / rate >= TickBoundary(t, rate) && t - dt <= TickBoundary(t, rate)
  }

  /**
   * For a tick rate of at most a second and a non-negative clock the first
   * test always holds, so a tick runs exactly when the latest boundary lies
   * in the frame's window [t - dt, t].
   */
  lemma TickDueWhenBoundaryInFrame(t: real, dt: real, rate: real)
    requires 0.0 < rate <= 1.0 && t >= 0.0
    ensures TickBoundary(t, rate) <= t
    ensures t - rate < TickBoundary(t, rate)
    ensures TickDue(t, dt, rate) <==> t - dt <= TickBoundary(t, rate)
  {
    var q := t / rate;
    var k := q.Floor as real;
    var b := TickBoundary(t, rate);
    DivisionBounds(t, rate, q, k, b);
  }

  lemma DivisionBounds(t: real, rate: real, q: real, k: real, b: real)
    requires 0.0 < rate <= 1.0 && t >= 0.0
    requires q == t / rate && k == q.Floor as real && b == k * rate
    ensures b <= t < b + rate && t <= q
  {
    assert q * rate == t;
    assert k <= q < k + 1.0;
    ScaleMonotone(k, q, rate, b, t);
    ScaleMonotone(q, k + 1.0, rate, t, b + rate);
    if q < 0.0 {
      ScaleMonotone(q, 0.0, rate, t, 0.0);
    }
    ScaleMonotone(rate, 1.0, q, t, q);
  }

  /** Multiplying by a non-negative factor keeps order: `x = a * c` and `y = b * c`. */
  lemma ScaleMonotone(a: real, b: real, c: real, x: real, y: real)
    requires a <= b && x == a * c && y == b * c
    requires c >= 0.0
    ensures x <= y
    ensures a < b && c > 0.0 ==> x < y
  {
    var p := (b - a) * c;
    assert y - x == p;
    NonnegMul(b - a, c);
    if a < b && c > 0.0 {
      PosMul(b - a, c);
      assert p > 0.0;
      assert y - x > 0.0;
    }
  }

  /**
   * The grid snap of a drone-like tick: `Math.round(x / 32 + 0.5) * 32 - 16`
   * moves a coordinate to the centre of the 32-pixel cell that holds it.
   */
  function SnapToGrid(x: real): (r: real)
    ensures r == ((x / 32.0).Floor as real) * 32.0 + 16.0
    ensures r - 16.0 <= x < r + 16.0
  {
    var tile := x / 32.0 + 0.5;
    var rounded := (tile + 0.5).Floor;
    assert rounded == (x / 32.0).Floor + 1;
    rounded as real * 32.0 - 16.0
  }

  /** Snapping a snapped coordinate leaves it where it is. */
  lemma SnapIsIdempotent(x: real)
    ensures SnapToGrid(SnapToGrid(x)) == SnapToGrid(x)
  {
    var k := (x / 32.0).Floor;
    var r := SnapToGrid(x);
    assert r / 32.0 == k as real + 0.5;
    assert (r / 32.0).Floor == k;
  }

  /** Where every floor's wall layer starts, in world coordinates: its tiles are 32 pixels square. */
  const LAYER_X: real := -384.0
  const LAYER_Y: real := -1152.0

  /** `mapX` / `getTileAtWorldXY(...).x`: the tile column holding world coordinate `x`. */
  function MapX(x: real): int
  {
    ((x - LAYER_X) / 32.0).Floor
  }

  function MapY(y: real): int
  {
    ((y - LAYER_Y) / 32.0).Floor
  }

  /** The tile's `getCenterX()` in world coordinates. */
  function TileCenterX(tx: int): real
  {
    LAYER_X + tx as real * 32.0 + 16.0
  }

  function TileCenterY(ty: int): real
  {
    LAYER_Y + ty as real * 32.0 + 16.0
  }

  /**
   * A tile's centre lies in that tile, and since the layer starts on the
   * 32-pixel grid a drone-like unit's snap is the centre of the tile it is
   * in.
   */
  lemma TileCentresMatchTheSnap(tx: int, ty: int, x: real)
    ensures MapX(TileCenterX(tx)) == tx && MapY(TileCenterY(ty)) == ty
    ensures SnapToGrid(x) == TileCenterX(MapX(x)) && SnapToGrid(x) == TileCenterY(MapY(x))
  {
    assert (TileCenterX(tx) - LAYER_X) / 32.0 == tx as real + 0.5;
    assert (TileCenterY(ty) - LAYER_Y) / 32.0 == ty as real + 0.5;
    var k := (x / 32.0).Floor;
    assert (x - LAYER_X) / 32.0 == x / 32.0 + 12.0;
    assert MapX(x) == k + 12;
    assert (x - LAYER_Y) / 32.0 == x / 32.0 + 36.0;
    assert MapY(x) == k + 36;
  }

  /** `UnitBase`: an entity with a position, power, a facing and a hurt timer. */
  class Unit {
    const life: Lifecycle
    /** The `invulnPeriod` of the concrete unit class. */
    const invulnPeriod: real
    var x: real
    var y: real
    var power: int
    var maxPower: int
    var hurtTime: real
    var facing: Facing4Way
    var dead: bool

    /** A unit of the given power (and maximum power); `facing` is `down` unless a subclass sets it. */
    constructor (floorIndex: int, x: real, y: real, power: int, maxPower: int, invulnPeriod: real, facing: Facing4Way)
      ensures fresh(life) && life.floorIndex == floorIndex && life.State() == Flags(false, false, false)
      ensures this.x == x && this.y == y && this.power == power && this.maxPower == maxPower
      ensures this.invulnPeriod == invulnPeriod && this.facing == facing
      ensures hurtTime == 0.0 && !dead
    {
      life := new Lifecycle(floorIndex);
      this.x := x;
      this.y := y;
      this.power := power;
      this.maxPower := maxPower;
      this.invulnPeriod := invulnPeriod;
      hurtTime := 0.0;
      this.facing := facing;
      dead := false;
    }

    predicate IsInvulnerable()
      reads this
    {
      hurtTime > 0.0
    }

    function Position(): Point
      reads this
    {
      Point(x, y)
    }

    /** `UnitBase.update`: an active unit's hurt timer runs down by the frame time. */
    method Update(dt: real)
      modifies this`hurtTime
      ensures hurtTime == if life.active then old(hurtTime) - dt else old(hurtTime)
    {
      if life.active {
        hurtTime := hurtTime - dt;
      }
    }

    /**
     * `hurt(damage)`; `shielded` is the extra invulnerability a subclass adds
     * (the boss while its pylons are down). Returns the power taken off.
     */
    method Hurt(damage: int, shielded: bool) returns (taken: int)
      modifies this`power, this`hurtTime
      ensures taken == HurtAmount(old(power), damage, old(hurtTime) > 0.0 || shielded, dead)
      ensures power == old(power) - taken
      ensures hurtTime == if taken > 0 then invulnPeriod else old(hurtTime)
    {
      taken := 0;
      if !(hurtTime > 0.0 || shielded) && !dead {
        var dmg := if power <= damage then power else damage;
        if dmg > 0 {
          power := power - dmg;
          hurtTime := invulnPeriod;
          taken := dmg;
        }
      }
    }

    /** `UnitBase.postUpdate`; the result says whether `die` ran. */
    method PostUpdate() returns (died: bool)
      modifies this`dead
      ensures died == DiesNow(life.active, power, old(dead))
      ensures dead == (old(dead) || died)
    {
      died := false;
      if !life.active {
        return;
      }
      if power <= 0 && !dead {
        Die();
        died := true;
      }
    }

    method Die()
      modifies this`dead
      ensures dead
    {
      dead := true;
    }

    /**
     * `DroneLikeBase.update`: the unit update, then a tick for a living,
     * active unit when the tick boundary falls in this frame.
     */
    method DroneLikeUpdate(t: real, dt: real, tickRate: real) returns (runTick: bool)
      requires tickRate > 0.0
      modifies this`hurtTime
      ensures hurtTime == if life.active then old(hurtTime) - dt else old(hurtTime)
      ensures runTick == (life.active && !dead && TickDue(t, dt, tickRate))
    {
      Update(dt);
      if !life.active || dead {
        return false;
      }
      runTick := TickDue(t, dt, tickRate);
    }

    /** `DroneLikeBase.tick`: where the sprite is snapped to, the centre of the unit's grid cell. */
    function SnappedPosition(): (p: Point)
      reads this
      ensures p.x - 16.0 <= x < p.x + 16.0 && p.y - 16.0 <= y < p.y + 16.0
    {
      Point(SnapToGrid(x), SnapToGrid(y))
    }
  }

  /*
   * Behaviour shared by the drones and the enemies: each drone and enemy
   * class spells these out inline; they are defined once here.
   */

  /** Which sides of a unit's body touch a wall in a collision. */
  datatype Blocked = Blocked(up: bool, right: bool, down: bool, left: bool)

  /** A velocity of `speed` along a facing. */
  function AxisVelocity(f: Facing4Way, speed: real): Point
  {
    Point(AxisX(f) as real * speed, AxisY(f) as real * speed)
  }

  /**
   * Dominant-axis aiming at a target offset (dx, dy): left or right when the
   * horizontal distance is strictly larger, otherwise up or down, by sign.
   */
  function Aim(dx: real, dy: real): (f: Facing4Way)
    ensures Abs(dx) > Abs(dy) ==> (f == Left <==> dx < 0.0) && (f == Right <==> dx >= 0.0)
    ensures Abs(dx) <= Abs(dy) ==> (f == Up <==> dy < 0.0) && (f == Down <==> dy >= 0.0)
  {
    if Abs(dx) > Abs(dy) then (if dx < 0.0 then Left else Right)
    else (if dy < 0.0 then Up else Down)
  }

  /** How far a facing's unit vector reaches towards (dx, dy). */
  function Reach(f: Facing4Way, dx: real, dy: real): real
  {
    AxisX(f) as real * dx + AxisY(f) as real * dy
  }

  /** The aimed facing points at the target at least as well as any other facing. */
  lemma AimPointsAtTarget(dx: real, dy: real)
    ensures Reach(Aim(dx, dy), dx, dy) == MaxReal(Abs(dx), Abs(dy))
    ensures forall g: Facing4Way :: Reach(g, dx, dy) <= Reach(Aim(dx, dy), dx, dy)
  {
  }

  /** The diagonal a spinning unit moves along: facing up means up-right, then clockwise. */
  function SpinX(f: Facing4Way): int
  {
    if f == Up || f == Right then 1 else -1
  }

  function SpinY(f: Facing4Way): int
  {
    if f == Down || f == Right then 1 else -1
  }

  function SpinVelocity(f: Facing4Way, speed: real): Point
  {
    Point(SpinX(f) as real * speed, SpinY(f) as real * speed)
  }

  /**
   * The spinning units' wall bounce: each facing checks the two sides it
   * moves towards, in a fixed order, and a later match overrides an earlier one.
   */
  function SpinRemap(f: Facing4Way, b: Blocked): Facing4Way
  {
    match f
    case Up => if b.right then Left else if b.up then Right else Up
    case Right => if b.down then Up else if b.right then Down else Right
    case Down => if b.left then Right else if b.down then Left else Down
    case Left => if b.up then Down else if b.left then Up else Left
  }

  /** The side in the horizontal direction of travel is blocked. */
  predicate BlockedAhead(f: Facing4Way, b: Blocked)
  {
    if SpinX(f) > 0 then b.right else b.left
  }

  /** The side in the vertical direction of travel is blocked. */
  predicate BlockedAbove(f: Facing4Way, b: Blocked)
  {
    if SpinY(f) > 0 then b.down else b.up
  }

  /**
   * A bounce reflects exactly one component of the diagonal, and only one
   * whose side is blocked; with neither side of travel blocked the facing
   * stays, and the two sides behind the unit are never looked at.
   */
  lemma SpinRemapReflects(f: Facing4Way, b: Blocked)
    ensures !BlockedAhead(f, b) && !BlockedAbove(f, b) ==> SpinRemap(f, b) == f
    ensures BlockedAhead(f, b) || BlockedAbove(f, b) ==>
      var r := SpinRemap(f, b);
      (BlockedAhead(f, b) && SpinX(r) == -SpinX(f) && SpinY(r) == SpinY(f)) ||
      (BlockedAbove(f, b) && SpinY(r) == -SpinY(f) && SpinX(r) == SpinX(f))
    ensures forall c: Blocked ::
              BlockedAhead(f, c) == BlockedAhead(f, b) && BlockedAbove(f, c) == BlockedAbove(f, b) ==>
              SpinRemap(f, c) == SpinRemap(f, b)
  {
  }
}
