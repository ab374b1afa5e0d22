/**
 * Drops: pickups an enemy leaves behind. Touching one picks it up when it
 * helps: power while below the maximum, a schematic the player does not own,
 * the floor's elevator key while none has been found. A drop not picked up
 * stays where it is.
 */
module Drops {
  import opened Helpers
  import opened Base
  import opened Schematics
  import opened Elements
  import opened Player

  datatype DropKind =
    | PowerDrop(amount: int)
    | SchematicDrop(schematic: DroneSchematic)
    | KeyDrop

  /** `DropBase` and its three subclasses. */
  class Drop {
    const life: Lifecycle
    const x: real
    const y: real
    const kind: DropKind

    constructor (floorIndex: int, x: real, y: real, kind: DropKind)
      ensures fresh(life) && life.floorIndex == floorIndex && life.State() == Flags(false, false, false)
      ensures this.x == x && this.y == y && this.kind == kind
    {
      life := new Lifecycle(floorIndex);
      this.x := x;
      this.y := y;
      this.kind := kind;
    }

    /**
     * `pickup`, then the overlap handler's destroy: `floorHasKey` is the
     * drop's floor's `hasFoundElevatorKey`. Returns whether the drop was
     * taken (it is then destroyed and the caller removes it from the drop
     * list) and whether it was the floor's key (the caller records that).
     */
    method Pickup(player: Player, floorHasKey: bool) returns (taken: bool, foundKey: bool, alerts: seq<Element>)
      requires player.Valid()
      modifies player.unit`power, player`schematics, life`active, life`spawned
      ensures player.Valid()
      ensures player.schematicIndex == old(player.schematicIndex)
      ensures taken ==> life.State() == DespawnFlags(old(life.State()))
      ensures !taken ==> life.State() == old(life.State())
      ensures foundKey <==> taken && kind == KeyDrop
      ensures kind.PowerDrop? ==>
        taken == (old(player.unit.power) < player.unit.maxPower) &&
        player.unit.power == old(player.unit.power) +
          (if taken then MinInt(player.unit.maxPower - old(player.unit.power), kind.amount) else 0) &&
        player.schematics == old(player.schematics) && alerts == []
      ensures kind.SchematicDrop? ==>
        taken == (kind.schematic !in old(player.schematics)) &&
        player.schematics == old(player.schematics) + (if taken then [kind.schematic] else []) &&
        alerts == (if taken then [Alert("Acquired " + kind.schematic.name + " drone")] else []) &&
        player.unit.power == old(player.unit.power)
      ensures kind == KeyDrop ==>
        taken == !floorHasKey && alerts == (if taken then [Alert("Found an elevator key")] else []) &&
        player.unit.power == old(player.unit.power) && player.schematics == old(player.schematics)
    {
      taken := false;
      foundKey := false;
      alerts := [];
      match kind {
        case PowerDrop(amount) =>
          if player.unit.power < player.unit.maxPower {
            var delta := MinInt(player.unit.maxPower - player.unit.power, amount);
            player.unit.power := player.unit.power + delta;
            taken := true;
          }
        case SchematicDrop(s) =>
          if s !in player.schematics {
            player.schematics := player.schematics + [s];
            alerts := [Alert("Acquired " + s.name + " drone")];
            taken := true;
          }
        case KeyDrop =>
          if !floorHasKey {
            alerts := [Alert("Found an elevator key")];
            foundKey := true;
            taken := true;
          }
      }
      if taken {
        life.Destroy();
      }
    }
  }

  /** Power drops of positive amount only ever raise power, and never past the maximum. */
  lemma PowerPickupIsClamped(power: int, maxPower: int, amount: int)
    requires power < maxPower && amount > 0
    ensures power < power + MinInt(maxPower - power, amount) <= maxPower
  {
  }
}
