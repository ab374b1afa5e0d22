/**
 * The player: a unit steered by the keyboard that deploys drones from the
 * schematics it owns, picks them up again for a refund and interacts with
 * what stands next to it. The action and schematic-cycling keys act once per
 * press: holding a key down does nothing further until it is released.
 */
module Player {
  import opened Constants
  import opened Helpers
  import opened Base
  import opened Schematics
  import opened Elements
  import opened Drones

  const PLAYER_INVULN_PERIOD: real := 1.0
  const PLAYER_MAX_POWER: int := 100
  /** How close a drone or an interactable must be for the action key to reach it. */
  const INTERACT_RANGE: real := 20.0

  /** The keys held this frame; `action` is space, `cycle` is shift or tab. */
  datatype Keys = Keys(left: bool, right: bool, up: bool, down: bool, action: bool, cycle: bool)

  /** One input axis: -1, 0 or 1. */
  function InputAxis(negative: bool, positive: bool): (v: int)
    ensures -1 <= v <= 1
    ensures v < 0 <==> negative && !positive
    ensures v > 0 <==> positive && !negative
  {
    (if positive then 1 else 0) - (if negative then 1 else 0)
  }

  /** The facing after steering: horizontal input first, then vertical input overrides it. */
  function SteeredFacing(facing: Facing4Way, vx: int, vy: int): Facing4Way
  {
    var f := if vx != 0 then (if vx > 0 then Right else Left) else facing;
    if vy != 0 then (if vy > 0 then Down else Up) else f
  }

  /**
   * With any input the player turns to a unit step along one input axis,
   * the vertical one when there is vertical input; without input it keeps
   * its facing.
   */
  lemma SteeringFollowsInput(facing: Facing4Way, vx: int, vy: int)
    requires -1 <= vx <= 1 && -1 <= vy <= 1
    ensures var r := SteeredFacing(facing, vx, vy);
      (vy != 0 ==> AxisY(r) == vy && AxisX(r) == 0) &&
      (vy == 0 && vx != 0 ==> AxisX(r) == vx && AxisY(r) == 0) &&
      (vx == 0 && vy == 0 ==> r == facing)
  {
  }

  /**
   * How many times a once-per-press key fires over successive frames'
   * key states, starting latched (`held`) or not.
   */
  function Fires(held: bool, keys: seq<bool>): nat
    decreases |keys|
  {
    if keys == [] then 0
    else (if keys[0] && !held then 1 else 0) + Fires(keys[0], keys[1..])
  }

  /** Between two firings the key must be released: at most every other frame fires. */
  lemma {:induction false} FiresAtMostEveryOtherFrame(held: bool, keys: seq<bool>)
    ensures Fires(held, keys) <= (|keys| + (if held then 0 else 1)) / 2
    decreases |keys|
  {
    if keys != [] {
      FiresAtMostEveryOtherFrame(keys[0], keys[1..]);
    }
  }

  /** Holding the key down for any number of frames fires once (none if it was already held). */
  lemma {:induction false} HoldingFiresOnce(held: bool, n: nat)
    ensures Fires(held, seq(n, _ => true)) == if n == 0 || held then 0 else 1
    decreases n
  {
    if n > 0 {
      assert seq(n, _ => true)[1..] == seq(n - 1, _ => true);
      HoldingFiresOnce(true, n - 1);
    }
  }

  /** What pressing action on a schematic does. */
  datatype DeployResult =
    | AlreadyDeployed(alert: Element)
    | Deployed(cost: int)
    | Insufficient(alert: Element)

  /**
   * A schematic is deployed unless a drone of it exists; it is free while a
   * boss pylon of the floor is powered and otherwise needs strictly more
   * power than it costs.
   */
  function DeployDecision(s: DroneSchematic, alreadyDeployed: bool, noCost: bool, power: int): DeployResult
  {
    if alreadyDeployed then AlreadyDeployed(Alert("Existing " + s.name + " must be picked up before redeploying"))
    else if noCost || power > s.cost then Deployed(if noCost then 0 else s.cost)
    else Insufficient(Alert("Insufficient power to deploy " + s.name + " drone"))
  }

  /**
   * Deploying never takes the player to zero power or below, costs the
   * schematic's cost or nothing, and is refused for lack of power exactly
   * when it is not free and the player has no more power than it costs.
   */
  lemma DeployKeepsThePlayerAlive(s: DroneSchematic, alreadyDeployed: bool, noCost: bool, power: int)
    requires power > 0
    ensures DeployDecision(s, alreadyDeployed, noCost, power).Deployed? ==>
      var c := DeployDecision(s, alreadyDeployed, noCost, power).cost;
      power - c > 0 && (c == 0 <==> noCost || s.cost == 0) && (c == 0 || c == s.cost)
    ensures DeployDecision(s, alreadyDeployed, noCost, power).Insufficient? <==>
      !alreadyDeployed && !noCost && power <= s.cost
    ensures DeployDecision(s, alreadyDeployed, noCost, power).AlreadyDeployed? <==> alreadyDeployed
  {
  }

  /** Whether a drone or interactable may be targeted: `eligible` is active and on the player's floor. */
  datatype Candidate = Candidate(eligible: bool, at: Point)

  predicate InRange(from: Point, c: Candidate)
  {
    c.eligible && Dist(from, c.at) < INTERACT_RANGE
  }

  /**
   * The filtered, distance-sorted list's head: the nearest candidate in range,
   * the earliest one on a tie (the sort is stable).
   */
  function Nearest(from: Point, cs: seq<Candidate>): (r: Option<nat>)
    ensures r.Some? ==> r.value < |cs| && InRange(from, cs[r.value])
    ensures r.Some? ==> forall j :: 0 <= j < |cs| && InRange(from, cs[j]) ==>
      Dist(from, cs[r.value].at) < Dist(from, cs[j].at) ||
      (Dist(from, cs[r.value].at) == Dist(from, cs[j].at) && r.value <= j)
    ensures r.None? <==> forall j :: 0 <= j < |cs| ==> !InRange(from, cs[j])
    decreases |cs|
  {
    if cs == [] then None
    else
      var r := Nearest(from, cs[..|cs| - 1]);
      var last := |cs| - 1;
      assert forall j :: 0 <= j < last ==> cs[..last][j] == cs[j];
      if !InRange(from, cs[last]) then r
      else if r.None? || Dist(from, cs[last].at) < Dist(from, cs[r.value].at) then Some(last)
      else r
  }

  /** What the action key acts on. */
  datatype Target =
    | DroneTarget(drone: nat)
    | InteractableTarget(interactable: nat)
    | SchematicTarget(schematic: DroneSchematic)
    | NoTarget

  /** `getTargetForInteract`: the nearest drone in range, else the nearest interactable, else the selected schematic. */
  function ChooseTarget(from: Point, drones: seq<Candidate>, interactables: seq<Candidate>,
                        schematics: seq<DroneSchematic>, index: int): (t: Target)
    ensures t.DroneTarget? <==> exists j :: 0 <= j < |drones| && InRange(from, drones[j])
    ensures t.DroneTarget? ==> t.drone < |drones| && InRange(from, drones[t.drone])
    ensures t.InteractableTarget? <==>
      (forall j :: 0 <= j < |drones| ==> !InRange(from, drones[j])) &&
      (exists j :: 0 <= j < |interactables| && InRange(from, interactables[j]))
    ensures t.InteractableTarget? ==> t.interactable < |interactables| && InRange(from, interactables[t.interactable])
    ensures t.SchematicTarget? ==> 0 <= index < |schematics| && t.schematic == schematics[index]
    ensures t == NoTarget ==> !(0 <= index < |schematics|)
  {
    var d := Nearest(from, drones);
    if d.Some? then DroneTarget(d.value)
    else
      var i := Nearest(from, interactables);
      if i.Some? then InteractableTarget(i.value)
      else if 0 <= index < |schematics| then SchematicTarget(schematics[index])
      else NoTarget
  }

  /** `Player`. */
  class Player {
    const unit: Unit
    /** The action key is latched down. */
    var placing: bool
    /** The cycle key is latched down. */
    var swapping: bool
    var schematics: seq<DroneSchematic>
    var schematicIndex: int

    /** The selection points into the owned schematics, which are distinct, and power never exceeds the maximum. */
    ghost predicate Valid()
      reads this, unit
    {
      0 <= schematicIndex < |schematics| &&
      (forall i, j :: 0 <= i < j < |schematics| ==> schematics[i] != schematics[j]) &&
      unit.power <= unit.maxPower
    }

    /** The player starts on floor 0 at the origin with 100 of 100 power, owning the turret schematic. */
    constructor ()
      ensures fresh(unit) && fresh(unit.life)
      ensures unit.life.floorIndex == 0 && unit.life.State() == Flags(false, false, false)
      ensures unit.x == 0.0 && unit.y == 0.0 && unit.facing == Down && !unit.dead && unit.hurtTime == 0.0
      ensures unit.power == PLAYER_MAX_POWER && unit.maxPower == PLAYER_MAX_POWER
      ensures unit.invulnPeriod == PLAYER_INVULN_PERIOD
      ensures !placing && !swapping && schematics == [DRONE_SCHEMATICS[0]] && schematicIndex == 0
      ensures Valid()
    {
      unit := new Unit(0, 0.0, 0.0, PLAYER_MAX_POWER, PLAYER_MAX_POWER, PLAYER_INVULN_PERIOD, Down);
      placing := false;
      swapping := false;
      schematics := [DRONE_SCHEMATICS[0]];
      schematicIndex := 0;
    }

    /**
     * The first part of `update`: the hurt timer runs down and, for an
     * active living player, the facing follows the arrow keys. Returns
     * whether to go on with the rest of the update.
     */
    method Steer(dt: real, keys: Keys) returns (going: bool)
      modifies unit`hurtTime, unit`facing
      ensures unit.hurtTime == if unit.life.active then old(unit.hurtTime) - dt else old(unit.hurtTime)
      ensures going == (unit.life.active && !unit.dead)
      ensures unit.facing == if going
        then SteeredFacing(old(unit.facing), InputAxis(keys.left, keys.right), InputAxis(keys.up, keys.down))
        else old(unit.facing)
    {
      unit.Update(dt);
      if !unit.life.active || unit.dead {
        return false;
      }
      var vx := InputAxis(keys.left, keys.right);
      var vy := InputAxis(keys.up, keys.down);
      if vx != 0 {
        unit.facing := if vx > 0 then Right else Left;
      }
      if vy != 0 {
        unit.facing := if vy > 0 then Down else Up;
      }
      going := true;
    }

    /** The action key's press detection: fires on a press, and the latch follows the key. */
    method ActionEdge(down: bool) returns (fire: bool)
      modifies this`placing
      ensures fire == (down && !old(placing))
      ensures placing == down
    {
      fire := false;
      if down && !placing {
        placing := true;
        fire := true;
      }
      if !down && placing {
        placing := false;
      }
    }

    /** The cycle key: each press selects the next owned schematic, wrapping around. */
    method CycleEdge(down: bool)
      requires Valid()
      modifies this`swapping, this`schematicIndex
      ensures Valid()
      ensures swapping == down
      ensures schematicIndex == if down && !old(swapping) then (old(schematicIndex) + 1) % |schematics| else old(schematicIndex)
    {
      if down && !swapping {
        swapping := true;
        schematicIndex := (schematicIndex + 1) % |schematics|;
      }
      if !down && swapping {
        swapping := false;
      }
    }

    /** Picking up a drone: the player gets the drone's power back, never past the maximum. */
    method PickUpDrone(d: Drone)
      requires d.unit != unit
      modifies unit`power
      ensures unit.power == old(unit.power) + MinInt(unit.maxPower - old(unit.power), d.unit.power)
      ensures unit.power <= unit.maxPower
      ensures d.unit.power >= 0 && old(unit.power) <= unit.maxPower ==> old(unit.power) <= unit.power
    {
      var refund := MinInt(unit.maxPower - unit.power, d.unit.power);
      unit.power := unit.power + refund;
    }

    /**
     * Pressing action on schematic `s`: refused while a drone of it exists
     * (`alreadyDeployed`), otherwise a drone is built at the player's position
     * and facing, paid for unless `noCost`, when there is enough power.
     */
    method Deploy(s: DroneSchematic, alreadyDeployed: bool, noCost: bool)
      returns (drone: Option<Drone>, alerts: seq<Element>)
      modifies unit`power
      ensures var r := DeployDecision(s, alreadyDeployed, noCost, old(unit.power));
        (r.Deployed? <==> drone.Some?) &&
        (r.Deployed? ==> unit.power == old(unit.power) - r.cost && alerts == []) &&
        (!r.Deployed? ==> unit.power == old(unit.power) && alerts == [r.alert])
      ensures drone.Some? ==>
        fresh(drone.value) && fresh(drone.value.unit) && fresh(drone.value.unit.life) &&
        drone.value.schematic == s && drone.value.unit.life.floorIndex == unit.life.floorIndex &&
        drone.value.unit.x == unit.x && drone.value.unit.y == unit.y && drone.value.unit.facing == unit.facing &&
        drone.value.unit.power == s.cost && drone.value.unit.life.State() == Flags(false, false, false)
    {
      drone := None;
      alerts := [];
      if alreadyDeployed {
        alerts := [Alert("Existing " + s.name + " must be picked up before redeploying")];
      } else if noCost || unit.power > s.cost {
        if !noCost {
          unit.power := unit.power - s.cost;
        }
        var d := new Drone(unit.life.floorIndex, unit.x, unit.y, unit.facing, s);
        drone := Some(d);
      } else {
        alerts := [Alert("Insufficient power to deploy " + s.name + " drone")];
      }
    }
  }
}
