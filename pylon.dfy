/**
 * Pylons: a player standing next to an unpowered pylon charges it. Charge
 * accumulates as fractional progress and every whole unit past 1 becomes one
 * point of power, up to nine. A powered boss pylon is what lets drones be
 * deployed without cost (and, all of them, what unshields the boss).
 */
module Pylon {
  import opened Helpers
  import opened Base
  import opened Elements

  const MAX_POWER: int := 9
  /** How close (on each axis) the player must stand to charge a pylon. */
  const REACH: real := 48.0
  const SURGE_MESSAGE: string := "Power Surge! Drones have no power cost!"

  /** Progress gained per second: boss pylons charge slower. */
  function ChargeRate(boss: bool): real
  {
    if boss then 1.5 else 2.0
  }

  /**
   * How many times the `while (progress > 1)` loop runs from `p`: the least
   * number of whole units whose removal brings the progress down to at most 1.
   */
  function Conversions(p: real): (n: nat)
    ensures p - n as real <= 1.0
    ensures n > 0 ==> p - (n - 1) as real > 1.0
    decreases p.Floor
  {
    if p > 1.0 then 1 + Conversions(p - 1.0) else 0
  }

  /**
   * How many of the first `n` loop rounds, starting at power `power`, end
   * with the pylon fully powered (each such round checks for a power surge).
   */
  function FullRounds(power: int, n: nat): nat
  {
    if n == 0 then 0
    else FullRounds(power, n - 1) + (if MinInt(MAX_POWER, power + n) == MAX_POWER then 1 else 0)
  }

  /**
   * A pylon that is not yet powered ends a round fully powered from the
   * round that brings it to nine on: that is `power + n - 8` rounds, or none.
   */
  lemma {:induction false} FullRoundsCount(power: int, n: nat)
    requires power < MAX_POWER
    ensures FullRounds(power, n) == if power + n >= MAX_POWER then power + n - (MAX_POWER - 1) else 0
  {
    if n > 0 {
      FullRoundsCount(power, n - 1);
    }
  }

  /** `Pylon`: a fixed actor with a charge `progress` and a `power` of 0 to 9. */
  class Pylon {
    const life: Lifecycle
    const x: real
    const y: real
    const boss: bool
    var progress: real
    var power: int

    ghost predicate Valid()
      reads this
    {
      0 <= power <= MAX_POWER && 0.0 <= progress <= 1.0
    }

    constructor (floorIndex: int, x: real, y: real, boss: bool)
      ensures fresh(life) && life.floorIndex == floorIndex && life.State() == Flags(false, false, false)
      ensures this.x == x && this.y == y && this.boss == boss
      ensures progress == 0.0 && power == 0
      ensures Valid()
    {
      life := new Lifecycle(floorIndex);
      this.x := x;
      this.y := y;
      this.boss := boss;
      progress := 0.0;
      power := 0;
    }

    predicate IsPowered()
      reads this
    {
      power >= MAX_POWER
    }

    /** The player is within 48 of the pylon on both axes. */
    predicate InReach(player: Point)
      reads this
    {
      Abs(player.x - x) < REACH && Abs(player.y - y) < REACH
    }

    /**
     * `update`: on the player's floor and within reach, an unpowered pylon
     * gains `dt * rate` of progress, and each whole unit above 1 is turned
     * into one point of power, capped at nine. Every round that ends with
     * the pylon full raises the surge alert when this is a boss pylon and no
     * other boss pylon of the floor is powered yet
     * (`poweredBossPylonsElsewhere` counts those). Returns the alerts raised.
     */
    method Update(playerFloor: int, player: Point, dt: real, poweredBossPylonsElsewhere: nat)
      returns (alerts: seq<Element>)
      requires Valid() && dt >= 0.0
      modifies this`progress, this`power
      ensures Valid()
      ensures !(life.active && playerFloor == life.floorIndex && InReach(player)) ==>
        progress == old(progress) && power == old(power) && alerts == []
      ensures life.active && playerFloor == life.floorIndex && InReach(player) ==>
        var p0 := if old(power) < MAX_POWER then old(progress) + dt * ChargeRate(boss) else old(progress);
        var n := Conversions(p0);
        progress == p0 - n as real &&
        power == MinInt(MAX_POWER, old(power) + n) &&
        alerts == seq(if boss && poweredBossPylonsElsewhere == 0 then FullRounds(old(power), n) else 0,
                      _ => Alert(SURGE_MESSAGE))
      ensures old(power) >= MAX_POWER ==> progress == old(progress) && power == old(power)
    {
      alerts := [];
      if !life.active || playerFloor != life.floorIndex {
        return;
      }
      if !InReach(player) {
        return;
      }
      if !IsPowered() {
        progress := progress + dt * ChargeRate(boss);
      }
      alerts := Discharge(boss && poweredBossPylonsElsewhere + 1 == 1);
    }

    /**
     * The `while (progress > 1)` loop of `update`: each round turns a unit
     * of progress into a point of power, capped at nine, and a round that
     * ends full raises the surge alert when `surging`.
     */
    method Discharge(surging: bool) returns (alerts: seq<Element>)
      requires 0 <= power <= MAX_POWER && progress >= 0.0
      modifies this`progress, this`power
      ensures progress == old(progress) - Conversions(old(progress)) as real
      ensures power == MinInt(MAX_POWER, old(power) + Conversions(old(progress)))
      ensures alerts == seq(if surging then FullRounds(old(power), Conversions(old(progress))) else 0, _ => Alert(SURGE_MESSAGE))
    {
      alerts := [];
      ghost var p0 := progress;
      ghost var power0 := power;
      ghost var k: nat := 0;
      while progress > 1.0
        invariant progress == p0 - k as real
        invariant k + Conversions(progress) == Conversions(p0)
        invariant power == MinInt(MAX_POWER, power0 + k)
        invariant alerts == seq(if surging then FullRounds(power0, k) else 0, _ => Alert(SURGE_MESSAGE))
        decreases progress.Floor
      {
        progress := progress - 1.0;
        power := MinInt(MAX_POWER, power + 1);
        k := k + 1;
        if power == MAX_POWER {
          if surging {
            alerts := alerts + [Alert(SURGE_MESSAGE)];
          }
        }
      }
    }
  }

  /**
   * One update turns each consumed unit of progress into at most one point
   * of power, never past nine, and a pylon reaches nine exactly when its
   * power plus the consumed units does.
   */
  lemma ChargingIsCapped(power: int, p0: real)
    requires 0 <= power <= MAX_POWER && p0 >= 0.0
    ensures 0 <= MinInt(MAX_POWER, power + Conversions(p0)) - power <= Conversions(p0)
    ensures MinInt(MAX_POWER, power + Conversions(p0)) <= MAX_POWER
    ensures MinInt(MAX_POWER, power + Conversions(p0)) == MAX_POWER <==> power + Conversions(p0) >= MAX_POWER
  {
  }

  /** After the conversion loop the progress left is positive-or-zero and at most 1. */
  lemma ProgressAfterLoop(p0: real)
    requires p0 >= 0.0
    ensures 0.0 <= p0 - Conversions(p0) as real <= 1.0
  {
  }

  /** Progress below or at 1 is never converted; otherwise every whole unit past 1 is. */
  lemma {:induction false} ConversionsOfWholeUnits(p: real, m: nat)
    requires 0.0 < p <= 1.0
    ensures Conversions(p + m as real) == m
    decreases m
  {
    if m > 0 {
      assert p + m as real > 1.0;
      assert (p + m as real) - 1.0 == p + (m - 1) as real;
      ConversionsOfWholeUnits(p, m - 1);
    }
  }
}
