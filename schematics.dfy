/**
 * The drone and enemy catalogues: every schematic a player can build and
 * every enemy a room or the boss can field, with their power costs.
 */
module Schematics {
  import opened Constants

  /** Which drone class a drone schematic's factory builds. */
  datatype DroneKind =
    | DroneGun | DroneHoverPunch | DroneSpinBoomerang | DroneTracker | DroneDirectionalGun | DroneMultishot

  datatype DroneSchematic = DroneSchematic(name: string, cost: int, icon: IconType, kind: DroneKind)

  /** `DroneSchematic.all`, in catalogue order. */
  const DRONE_SCHEMATICS: seq<DroneSchematic> := [
    DroneSchematic("Turret", 10, Gun, DroneGun),
    DroneSchematic("Puncher", 15, Punch, DroneHoverPunch),
    DroneSchematic("Boomerang", 15, Boomerang, DroneSpinBoomerang),
    DroneSchematic("Tracker", 15, Tracking, DroneTracker),
    DroneSchematic("Strafer", 15, IconType.DirectionalGun, DroneDirectionalGun),
    DroneSchematic("Multishot", 20, IconType.Multishot, DroneMultishot)
  ]

  /** Which enemy class an enemy schematic's factory builds. */
  datatype EnemyKind =
    | EnemyGun | EnemyHoverGun | EnemySpinBoomerang | EnemyDirectionalGun
    | EnemyHoverPunch | EnemyMultishot | EnemyHoverMultishot | EnemyBoss

  /** A cost in power; the boss costs `Infinity`. */
  datatype Cost = Finite(amount: int) | Infinite

  datatype EnemySchematic = EnemySchematic(name: string, cost: Cost, kind: EnemyKind)

  /** `EnemySchematic.all`, in catalogue order. */
  const ENEMY_SCHEMATICS: seq<EnemySchematic> := [
    EnemySchematic("Turret", Finite(10), EnemyGun),
    EnemySchematic("Hover Turret", Finite(15), EnemyHoverGun),
    EnemySchematic("Spin Boomerang", Finite(15), EnemySpinBoomerang),
    EnemySchematic("Directional Turret", Finite(15), EnemyDirectionalGun),
    EnemySchematic("Hover Puncher", Finite(20), EnemyHoverPunch),
    EnemySchematic("Multishot Turret", Finite(20), EnemyMultishot),
    EnemySchematic("Hover Multishot", Finite(25), EnemyHoverMultishot)
  ]

  /** `EnemySchematic.boss`. */
  const BOSS_SCHEMATIC: EnemySchematic := EnemySchematic("Boss", Infinite, EnemyBoss)

  /** `schematic.cost <= budget`, where nothing is at most `Infinity` except `Infinity`. */
  predicate Affordable(s: EnemySchematic, budget: int)
  {
    s.cost.Finite? && s.cost.amount <= budget
  }

  /** `catalogue.filter(s => s.cost <= budget)`, keeping catalogue order. */
  function AffordableSchematics(catalogue: seq<EnemySchematic>, budget: int): (r: seq<EnemySchematic>)
    ensures |r| <= |catalogue|
  {
    if |catalogue| == 0 then []
    else if Affordable(catalogue[0], budget) then [catalogue[0]] + AffordableSchematics(catalogue[1..], budget)
    else AffordableSchematics(catalogue[1..], budget)
  }

  /** The filter keeps exactly the affordable schematics of the catalogue. */
  lemma {:induction false} AffordableMembers(catalogue: seq<EnemySchematic>, budget: int, s: EnemySchematic)
    ensures s in AffordableSchematics(catalogue, budget) <==> s in catalogue && Affordable(s, budget)
    decreases |catalogue|
  {
    if |catalogue| > 0 {
      AffordableMembers(catalogue[1..], budget, s);
      assert catalogue == [catalogue[0]] + catalogue[1..];
    }
  }

  /** A larger budget affords at least the same schematics, in the same order, as a smaller one. */
  lemma {:induction false} AffordableGrowsWithBudget(catalogue: seq<EnemySchematic>, b1: int, b2: int)
    requires b1 <= b2
    ensures |AffordableSchematics(catalogue, b1)| <= |AffordableSchematics(catalogue, b2)|
    decreases |catalogue|
  {
    if |catalogue| > 0 {
      AffordableGrowsWithBudget(catalogue[1..], b1, b2);
    }
  }

  /** Every drone schematic is a distinct catalogue entry with a positive cost; the first is the 10-power Turret. */
  lemma DroneCatalogue()
    ensures |DRONE_SCHEMATICS| == 6
    ensures forall i, j :: 0 <= i < j < |DRONE_SCHEMATICS| ==> DRONE_SCHEMATICS[i] != DRONE_SCHEMATICS[j]
    ensures forall s :: s in DRONE_SCHEMATICS ==> 10 <= s.cost <= 20
    ensures DRONE_SCHEMATICS[0].kind == DroneGun && DRONE_SCHEMATICS[0].cost == 10
  {
  }

  /** Filtering keeps everything when everything is affordable and nothing when nothing is. */
  lemma {:induction false} AffordableExtremes(catalogue: seq<EnemySchematic>, budget: int)
    ensures (forall s :: s in catalogue ==> Affordable(s, budget)) ==> AffordableSchematics(catalogue, budget) == catalogue
    ensures (forall s :: s in catalogue ==> !Affordable(s, budget)) ==> AffordableSchematics(catalogue, budget) == []
    decreases |catalogue|
  {
    if |catalogue| > 0 {
      AffordableExtremes(catalogue[1..], budget);
      assert forall s :: s in catalogue[1..] ==> s in catalogue;
    }
  }

  /** Every enemy schematic costs a finite multiple of 5 between 10 and 25; the boss's cost is infinite. */
  lemma EnemyCatalogueCosts()
    ensures forall i :: 0 <= i < |ENEMY_SCHEMATICS| ==>
      ENEMY_SCHEMATICS[i].cost.Finite? && ENEMY_SCHEMATICS[i].cost.amount % 5 == 0 &&
      10 <= ENEMY_SCHEMATICS[i].cost.amount <= 25 && ENEMY_SCHEMATICS[i].kind != EnemyBoss
    ensures forall budget :: !Affordable(BOSS_SCHEMATIC, budget)
  {
  }

  /** A budget below 10 affords no enemy at all, one of 25 or more affords all of them. */
  lemma EnemyCatalogueBudgets(budget: int)
    ensures budget < 10 ==> AffordableSchematics(ENEMY_SCHEMATICS, budget) == []
    ensures budget >= 25 ==> AffordableSchematics(ENEMY_SCHEMATICS, budget) == ENEMY_SCHEMATICS
  {
    EnemyCatalogueCosts();
    AffordableExtremes(ENEMY_SCHEMATICS, budget);
  }
}
