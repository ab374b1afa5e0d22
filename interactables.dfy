/**
 * Interactables: power cores the player can absorb and the elevator buttons
 * that move the player between floors. A button is shown only when it may
 * be used: it must make sense on its floor and, going down, the floor's
 * elevator must be unlocked.
 */
module Interactables {
  import opened Helpers
  import opened Base
  import opened Elements

  /** `InteractablePowerCore.power`. */
  const CORE_POWER: int := 20

  datatype InteractableKind =
    | PowerCore
      /** `delta` is -1 for up and 1 for down; `main` buttons sit in the elevator hall. */
    | ElevatorButton(delta: int, main: bool)

  /** `isUnlocked`: going up is always allowed, going down only once the floor's elevator is unlocked. */
  predicate IsUnlocked(delta: int, hasUnlockedElevator: bool)
  {
    if delta == -1 then true else hasUnlockedElevator
  }

  /**
   * `isValidOnFloor`: a main up button is useless on a section's top floor
   * and a main down button on its boss floor; the other (boss room) button
   * only ever goes down.
   */
  predicate IsValidOnFloor(main: bool, delta: int, floorNumber: int)
  {
    if main then
      (if delta == -1 then floorNumber != 0 else if delta == 1 then floorNumber != 4 else false)
    else
      (if delta == -1 then false else delta == 1)
  }

  /** What pressing a button does: ride the elevator, or refuse with an alert. */
  datatype ButtonResult = Travel(delta: int) | Refused(alert: Element)

  /** `InteractableElevatorButton.interact`, with the ride itself left to the game state. */
  function Press(main: bool, delta: int, floorNumber: int, hasUnlockedElevator: bool): ButtonResult
  {
    if IsValidOnFloor(main, delta, floorNumber) && IsUnlocked(delta, hasUnlockedElevator) then Travel(delta)
    else if !IsValidOnFloor(main, delta, floorNumber) then
      Refused(Alert(if delta == 1 then "Cannot take elevator down" else "Cannot take elevator up"))
    else Refused(Alert("Cannot take elevator (locked by enemies)"))
  }

  /** `postUpdate`'s visibility rule. */
  predicate Visible(main: bool, delta: int, floorNumber: int, hasUnlockedElevator: bool)
  {
    IsValidOnFloor(main, delta, floorNumber) && IsUnlocked(delta, hasUnlockedElevator)
  }

  /**
   * A button moves the player exactly when it is visible, and then by its
   * own delta; a refusal says why. An up button is never locked, and no
   * button ever moves a player above floor 0.
   */
  lemma PressTravelsIffVisible(main: bool, delta: int, floorIndex: int, hasUnlockedElevator: bool)
    requires floorIndex >= 0
    ensures Press(main, delta, FloorNumber(floorIndex), hasUnlockedElevator).Travel? <==>
            Visible(main, delta, FloorNumber(floorIndex), hasUnlockedElevator)
    ensures Press(main, delta, FloorNumber(floorIndex), hasUnlockedElevator).Travel? ==>
            Press(main, delta, FloorNumber(floorIndex), hasUnlockedElevator).delta == delta &&
            (delta == -1 || delta == 1) && floorIndex + delta >= 0
    ensures delta == -1 ==> IsUnlocked(delta, hasUnlockedElevator)
    ensures delta == 1 && !hasUnlockedElevator ==>
            Press(main, delta, FloorNumber(floorIndex), hasUnlockedElevator) ==
            (if IsValidOnFloor(main, delta, FloorNumber(floorIndex))
             then Refused(Alert("Cannot take elevator (locked by enemies)"))
             else Refused(Alert("Cannot take elevator down")))
  {
  }

  /** `InteractableBase` and its two subclasses. */
  class Interactable {
    const life: Lifecycle
    const x: real
    const y: real
    const kind: InteractableKind

    constructor (floorIndex: int, x: real, y: real, kind: InteractableKind)
      ensures fresh(life) && life.floorIndex == floorIndex && life.State() == Flags(false, false, false)
      ensures this.x == x && this.y == y && this.kind == kind
    {
      life := new Lifecycle(floorIndex);
      this.x := x;
      this.y := y;
      this.kind := kind;
    }

    function Position(): Point
    {
      Point(x, y)
    }

    /**
     * `InteractablePowerCore.interact`: below maximum power the player gains
     * up to 20 (never past the maximum) and the core is destroyed (the
     * caller removes it from its list); at maximum only an alert is raised.
     */
    method AbsorbCore(player: Unit) returns (absorbed: bool, alerts: seq<Element>)
      requires kind == PowerCore
      modifies player`power, life`active, life`spawned
      ensures absorbed == (old(player.power) < player.maxPower)
      ensures absorbed ==>
        player.power == old(player.power) + MinInt(player.maxPower - old(player.power), CORE_POWER) &&
        life.State() == DespawnFlags(old(life.State())) && alerts == []
      ensures !absorbed ==>
        player.power == old(player.power) && life.State() == old(life.State()) &&
        alerts == [Alert("Cannot pick up power core (already at max power)")]
    {
      if player.power < player.maxPower {
        var delta := MinInt(player.maxPower - player.power, CORE_POWER);
        player.power := player.power + delta;
        life.Destroy();
        absorbed := true;
        alerts := [];
      } else {
        absorbed := false;
        alerts := [Alert("Cannot pick up power core (already at max power)")];
      }
    }
  }

  /** A core never takes the player past maximum power, and gives everything it can. */
  lemma CoreRefillIsClamped(power: int, maxPower: int)
    requires power < maxPower
    ensures power < power + MinInt(maxPower - power, CORE_POWER) <= maxPower
    ensures power + MinInt(maxPower - power, CORE_POWER) == maxPower || MinInt(maxPower - power, CORE_POWER) == CORE_POWER
  {
  }
}
