/**
 * The enemies: hostile drone-like units that tick without draining power,
 * and the boss, which moves at random and summons waves of enemies around
 * itself once its room is open. Waves (and the enemies of a room) are
 * filled from an enemy budget: take the last free tile, pick a random
 * affordable schematic, pay for it, repeat.
 */
module Enemies {
  import opened Constants
  import opened Helpers
  import opened Base
  import opened Schematics
  import opened Bullets

  /** `EnemyBase.invulnPeriod`. */
  const ENEMY_INVULN_PERIOD: real := 0.25
  /** The boss acts on subtick 16 and then starts over at 0. */
  const BOSS_WAVE_SUBTICK: int := 16

  /** The power each enemy class passes to `EnemyBase` (the boss's is replaced by `BossPower`). */
  function BasePower(kind: EnemyKind): int
  {
    match kind
    case EnemyGun => 15
    case EnemyMultishot => 20
    case EnemyHoverGun => 20
    case EnemyHoverMultishot => 25
    case EnemyHoverPunch => 20
    case EnemySpinBoomerang => 20
    case EnemyDirectionalGun => 10
    case EnemyBoss => 100
  }

  /** The contact damage each enemy class passes to `EnemyBase`. */
  function ImpactDamage(kind: EnemyKind): int
  {
    match kind
    case EnemyHoverPunch => 10
    case EnemySpinBoomerang => 10
    case EnemyBoss => 10
    case _ => 5
  }

  /** The boss's power: 100, and 50 more for every section below the first. */
  function BossPower(floorIndex: int): (p: int)
    ensures floorIndex >= 0 ==> p >= 100 && (p - 100) % 50 == 0
  {
    100 + SectionNumber(floorIndex) * 50
  }

  /** Every catalogue enemy starts with 10 to 25 power and deals 5 or 10 on contact; melee enemies deal 10. */
  lemma EnemyStats(s: EnemySchematic)
    requires s in ENEMY_SCHEMATICS
    ensures 10 <= BasePower(s.kind) <= 25
    ensures ImpactDamage(s.kind) == if s.kind in {EnemyHoverPunch, EnemySpinBoomerang} then 10 else 5
  {
  }

  /** Turrets and hover enemies alternate between turning (subtick 0) and acting (subtick 1). */
  predicate Alternates(kind: EnemyKind)
  {
    kind in {EnemyGun, EnemyMultishot, EnemyHoverGun, EnemyHoverMultishot, EnemyHoverPunch}
  }

  /** Boomerangs and directional turrets bounce off walls with a debounce. */
  predicate Bounces(kind: EnemyKind)
  {
    kind == EnemySpinBoomerang || kind == EnemyDirectionalGun
  }

  /**
   * The facing after a tick: turrets turn clockwise and hover shooters aim
   * at the player (offset `aim`) on subtick 0; punchers turn towards the
   * player horizontally on subtick 0 and vertically on subtick 1.
   */
  function TickedFacing(kind: EnemyKind, facing: Facing4Way, subtick: int, aim: Point): Facing4Way
  {
    match kind
    case EnemyGun => if subtick == 0 then Clockwise(facing) else facing
    case EnemyMultishot => if subtick == 0 then Clockwise(facing) else facing
    case EnemyHoverGun => if subtick == 0 then Aim(aim.x, aim.y) else facing
    case EnemyHoverMultishot => if subtick == 0 then Aim(aim.x, aim.y) else facing
    case EnemyHoverPunch =>
      if subtick == 0 then (if aim.x < 0.0 then Left else Right)
      else if subtick == 1 then (if aim.y < 0.0 then Up else Down)
      else facing
    case _ => facing
  }

  function NextSubtick(kind: EnemyKind, subtick: int): int
  {
    if Alternates(kind) then (subtick + 1) % 2 else subtick
  }

  /** The bullets a tick fires: all hostile, from (x, y) along the (already turned) facing. */
  function EnemyShots(kind: EnemyKind, floorIndex: int, x: real, y: real, facing: Facing4Way, subtick: int): seq<Shot>
  {
    match kind
    case EnemyGun => if subtick == 1 then [PulseShot(floorIndex, x, y, facing, 512.0, false)] else []
    case EnemyHoverGun => if subtick == 1 then [PulseShot(floorIndex, x, y, facing, 512.0, false)] else []
    case EnemyMultishot => if subtick == 1 then FanShots(floorIndex, x, y, facing, false) else []
    case EnemyHoverMultishot => if subtick == 1 then FanShots(floorIndex, x, y, facing, false) else []
    case EnemyDirectionalGun => [PulseShot(floorIndex, x, y, facing, 512.0, false)]
    case _ => []
  }

  /** The velocity a tick sets: punchers and strafing turrets at 64 along an axis, boomerangs diagonally. */
  function TickVelocity(kind: EnemyKind, facing: Facing4Way, moveFacing: Facing4Way): Option<Point>
  {
    match kind
    case EnemyHoverPunch => Some(AxisVelocity(facing, 64.0))
    case EnemySpinBoomerang => Some(SpinVelocity(facing, 64.0))
    case EnemyDirectionalGun => Some(AxisVelocity(moveFacing, 64.0))
    case _ => None
  }

  /**
   * Enemy bullets are hostile, so they hurt only the player and drones;
   * shooters fire on subtick 1 only, directional turrets on every tick.
   */
  lemma EnemyShotsAreHostile(kind: EnemyKind, floorIndex: int, x: real, y: real, facing: Facing4Way, subtick: int)
    ensures forall s :: s in EnemyShots(kind, floorIndex, x, y, facing, subtick) ==>
      !s.friendly && Opposes(s.friendly, true) && !Opposes(s.friendly, false) && s.floorIndex == floorIndex &&
      s.kind == Pulse && s.damage == 5
    ensures kind in {EnemyGun, EnemyHoverGun, EnemyMultishot, EnemyHoverMultishot} && subtick != 1 ==>
      EnemyShots(kind, floorIndex, x, y, facing, subtick) == []
    ensures kind in {EnemyGun, EnemyHoverGun} && subtick == 1 ==>
      |EnemyShots(kind, floorIndex, x, y, facing, subtick)| == 1
    ensures kind in {EnemyMultishot, EnemyHoverMultishot} && subtick == 1 ==>
      |EnemyShots(kind, floorIndex, x, y, facing, subtick)| == 3
    ensures kind == EnemyDirectionalGun ==> |EnemyShots(kind, floorIndex, x, y, facing, subtick)| == 1
    ensures kind in {EnemyHoverPunch, EnemySpinBoomerang, EnemyBoss} ==> EnemyShots(kind, floorIndex, x, y, facing, subtick) == []
  {
    if kind in {EnemyMultishot, EnemyHoverMultishot} && subtick == 1 {
      FanSpreadsAcrossTheFacing(floorIndex, x, y, facing, false);
    }
  }

  /**
   * A turret's two-tick cycle from subtick 0 turns it a quarter clockwise
   * and fires along the new facing, so four cycles sweep all four
   * directions and come back to the start.
   */
  lemma {:induction false} TurretsSweepClockwise(kind: EnemyKind, facing: Facing4Way)
    requires kind == EnemyGun || kind == EnemyMultishot
    ensures var f1 := TickedFacing(kind, facing, 0, Point(0.0, 0.0));
      f1 == Clockwise(facing) && TickedFacing(kind, f1, 1, Point(0.0, 0.0)) == f1 &&
      NextSubtick(kind, NextSubtick(kind, 0)) == 0 &&
      var v := EnemyShots(kind, 0, 0.0, 0.0, f1, 1);
      EnemyShots(kind, 0, 0.0, 0.0, f1, 0) == [] && |v| >= 1 &&
      v[|v| / 2].dx == AxisX(f1) as real && v[|v| / 2].dy == AxisY(f1) as real
    ensures Clockwise(Clockwise(Clockwise(Clockwise(facing)))) == facing
    ensures {facing, Clockwise(facing), Clockwise(Clockwise(facing)), Clockwise(Clockwise(Clockwise(facing)))} ==
            {Up, Right, Down, Left}
  {
    var f1 := TickedFacing(kind, facing, 0, Point(0.0, 0.0));
    if kind == EnemyMultishot {
      FanSpreadsAcrossTheFacing(0, 0.0, 0.0, f1, false);
    }
  }

  /** A puncher's facing always has a component pointing towards the player on the axis it just chose. */
  lemma PuncherChasesThePlayer(facing: Facing4Way, aim: Point)
    ensures var f := TickedFacing(EnemyHoverPunch, facing, 0, aim);
      AxisY(f) == 0 && AxisX(f) as real * aim.x >= 0.0 && (aim.x != 0.0 ==> AxisX(f) as real * aim.x > 0.0)
    ensures var f := TickedFacing(EnemyHoverPunch, facing, 1, aim);
      AxisX(f) == 0 && AxisY(f) as real * aim.y >= 0.0 && (aim.y != 0.0 ==> AxisY(f) as real * aim.y > 0.0)
  {
  }

  /** Where an enemy goes: a tile's world centre and its tile coordinates. */
  datatype Tile = Tile(x: real, y: real, tx: int, ty: int)

  /** An enemy to create: `schematic.create(floorIndex, x, y, facing, schematic)`. */
  datatype Placement = Placement(schematic: EnemySchematic, x: real, y: real, facing: Facing4Way)

  /**
   * Where a fill ends: the enemies placed, the tiles still free, the budget
   * left, and the number of the next draw.
   */
  datatype FillResult = FillResult(placements: seq<Placement>, tiles: seq<Tile>, budget: int, next: nat)

  /**
   * The `while (enemyBudget > 0 && tiles.length)` loop of rooms and boss
   * waves over `catalogue` (always `EnemySchematic.all`), from draw `k` of
   * `stream` with `placed` already placed: the last tile is taken, and if
   * some schematic is affordable one is picked at random (one draw), paid
   * for and placed with a random facing (one more draw); otherwise the loop
   * stops with that tile used up.
   */
  function FillFrom(catalogue: seq<EnemySchematic>, tiles: seq<Tile>, budget: int, stream: nat -> Draw, k: nat,
                    placed: seq<Placement>): FillResult
    decreases |tiles|
  {
    if budget <= 0 || |tiles| == 0 then FillResult(placed, tiles, budget, k)
    else
      var t := tiles[|tiles| - 1];
      var choices := AffordableSchematics(catalogue, budget);
      if |choices| == 0 then FillResult(placed, tiles[..|tiles| - 1], budget, k)
      else
        var s := Pick(choices, stream(k));
        AffordableMembers(catalogue, budget, s);
        var f := RandFacing(stream(k + 1));
        FillFrom(catalogue, tiles[..|tiles| - 1], budget - s.cost.amount, stream, k + 2,
                 placed + [Placement(s, t.x, t.y, f)])
  }

  /** A whole fill, from nothing placed. */
  function Fill(catalogue: seq<EnemySchematic>, tiles: seq<Tile>, budget: int, stream: nat -> Draw, k: nat): FillResult
  {
    FillFrom(catalogue, tiles, budget, stream, k, [])
  }

  /** What a list of placements costs. */
  function Spent(ps: seq<Placement>): int
  {
    if |ps| == 0 then 0
    else Spent(ps[..|ps| - 1]) + (if ps[|ps| - 1].schematic.cost.Finite? then ps[|ps| - 1].schematic.cost.amount else 0)
  }

  /** Every schematic of the catalogue has a finite cost of at least 10. */
  ghost predicate PricedFrom10(catalogue: seq<EnemySchematic>)
  {
    forall s :: s in catalogue ==> s.cost.Finite? && s.cost.amount >= 10
  }

  /** Filling spends exactly the difference between the budget and what is left. */
  lemma {:induction false} FillSpendsTheBudget(catalogue: seq<EnemySchematic>, tiles: seq<Tile>, budget: int,
                                               stream: nat -> Draw, k: nat, placed: seq<Placement>)
    ensures var r := FillFrom(catalogue, tiles, budget, stream, k, placed);
      Spent(r.placements) == Spent(placed) + budget - r.budget
    decreases |tiles|
  {
    if budget > 0 && |tiles| > 0 && |AffordableSchematics(catalogue, budget)| > 0 {
      var t := tiles[|tiles| - 1];
      var s := Pick(AffordableSchematics(catalogue, budget), stream(k));
      var f := RandFacing(stream(k + 1));
      AffordableMembers(catalogue, budget, s);
      var ps := placed + [Placement(s, t.x, t.y, f)];
      FillSpendsTheBudget(catalogue, tiles[..|tiles| - 1], budget - s.cost.amount, stream, k + 2, ps);
      assert ps[..|ps| - 1] == placed;
    }
  }

  /**
   * Over a catalogue priced from 10, filling never overspends a
   * non-negative budget; it places nothing on a budget of zero or less, and
   * uses two draws per enemy placed.
   */
  lemma {:induction false} FillStaysWithinBudget(catalogue: seq<EnemySchematic>, tiles: seq<Tile>, budget: int,
                                                 stream: nat -> Draw, k: nat, placed: seq<Placement>)
    requires PricedFrom10(catalogue)
    ensures var r := FillFrom(catalogue, tiles, budget, stream, k, placed);
      (budget >= 0 ==> 0 <= r.budget <= budget) &&
      (budget <= 0 ==> r == FillResult(placed, tiles, budget, k)) &&
      |placed| <= |r.placements| && r.next == k + 2 * (|r.placements| - |placed|)
    decreases |tiles|
  {
    if budget > 0 && |tiles| > 0 && |AffordableSchematics(catalogue, budget)| > 0 {
      var t := tiles[|tiles| - 1];
      var s := Pick(AffordableSchematics(catalogue, budget), stream(k));
      var f := RandFacing(stream(k + 1));
      AffordableMembers(catalogue, budget, s);
      FillStaysWithinBudget(catalogue, tiles[..|tiles| - 1], budget - s.cost.amount, stream, k + 2,
                            placed + [Placement(s, t.x, t.y, f)]);
    }
  }

  /** Each placement costs at least 10 when every schematic placed does. */
  lemma {:induction false} SpentAtLeast10Each(ps: seq<Placement>)
    requires forall i :: 0 <= i < |ps| ==> ps[i].schematic.cost.Finite? && ps[i].schematic.cost.amount >= 10
    ensures Spent(ps) >= 10 * |ps|
    decreases |ps|
  {
    if |ps| > 0 {
      SpentAtLeast10Each(ps[..|ps| - 1]);
    }
  }

  /**
   * The tiles a fill leaves are the front of the list, and it places at
   * most one enemy per tile it uses.
   */
  lemma {:induction false} FillUsesTilesFromTheEnd(catalogue: seq<EnemySchematic>, tiles: seq<Tile>, budget: int,
                                                   stream: nat -> Draw, k: nat, placed: seq<Placement>)
    ensures var r := FillFrom(catalogue, tiles, budget, stream, k, placed);
      |placed| <= |r.placements| && |r.tiles| + (|r.placements| - |placed|) <= |tiles| &&
      r.tiles == tiles[..|r.tiles|]
    decreases |tiles|
  {
    if budget > 0 && |tiles| > 0 && |AffordableSchematics(catalogue, budget)| > 0 {
      var t := tiles[|tiles| - 1];
      var rest := tiles[..|tiles| - 1];
      var s := Pick(AffordableSchematics(catalogue, budget), stream(k));
      var f := RandFacing(stream(k + 1));
      AffordableMembers(catalogue, budget, s);
      FillUsesTilesFromTheEnd(catalogue, rest, budget - s.cost.amount, stream, k + 2, placed + [Placement(s, t.x, t.y, f)]);
      var r := FillFrom(catalogue, rest, budget - s.cost.amount, stream, k + 2, placed + [Placement(s, t.x, t.y, f)]);
      assert rest[..|r.tiles|] == tiles[..|r.tiles|];
    }
  }

  /**
   * A fill keeps what was placed before it, and every enemy it adds is a
   * catalogue enemy on a tile taken from the end of the list: the i-th new
   * enemy on the i-th tile from the end.
   */
  lemma {:induction false} FillPlacesCatalogueEnemies(catalogue: seq<EnemySchematic>, tiles: seq<Tile>, budget: int,
                                                      stream: nat -> Draw, k: nat, placed: seq<Placement>)
    ensures var r := FillFrom(catalogue, tiles, budget, stream, k, placed);
      |placed| <= |r.placements| <= |placed| + |tiles| && r.placements[..|placed|] == placed &&
      forall i :: |placed| <= i < |r.placements| ==>
        r.placements[i].schematic in catalogue &&
        r.placements[i].x == tiles[|tiles| - 1 - (i - |placed|)].x &&
        r.placements[i].y == tiles[|tiles| - 1 - (i - |placed|)].y
    decreases |tiles|
  {
    if budget > 0 && |tiles| > 0 && |AffordableSchematics(catalogue, budget)| > 0 {
      var t := tiles[|tiles| - 1];
      var rest := tiles[..|tiles| - 1];
      var s := Pick(AffordableSchematics(catalogue, budget), stream(k));
      var f := RandFacing(stream(k + 1));
      AffordableMembers(catalogue, budget, s);
      var ps := placed + [Placement(s, t.x, t.y, f)];
      FillPlacesCatalogueEnemies(catalogue, rest, budget - s.cost.amount, stream, k + 2, ps);
      var r := FillFrom(catalogue, rest, budget - s.cost.amount, stream, k + 2, ps);
      assert r.placements[..|placed|] == ps[..|placed|] == placed;
      forall i | |placed| <= i < |r.placements|
        ensures r.placements[i].schematic in catalogue &&
          r.placements[i].x == tiles[|tiles| - 1 - (i - |placed|)].x &&
          r.placements[i].y == tiles[|tiles| - 1 - (i - |placed|)].y
      {
        if i == |placed| {
          assert r.placements[i] == ps[i];
        } else {
          assert rest[|rest| - 1 - (i - |ps|)] == tiles[|tiles| - 1 - (i - |placed|)];
        }
      }
    }
  }

  /** Over a catalogue priced from 10, a fill places at most one enemy per 10 of budget spent. */
  lemma FillPlacesAtMostOnePer10(catalogue: seq<EnemySchematic>, tiles: seq<Tile>, budget: int,
                                 stream: nat -> Draw, k: nat)
    requires PricedFrom10(catalogue)
    ensures var r := Fill(catalogue, tiles, budget, stream, k);
      10 * |r.placements| <= budget - r.budget
  {
    FillSpendsTheBudget(catalogue, tiles, budget, stream, k, []);
    FillPlacesCatalogueEnemies(catalogue, tiles, budget, stream, k, []);
    SpentAtLeast10Each(Fill(catalogue, tiles, budget, stream, k).placements);
  }

  /** Filling stops with budget left and a tile wasted only when the budget affords nothing. */
  lemma {:induction false} FillStopsOnlyWhenPoor(catalogue: seq<EnemySchematic>, tiles: seq<Tile>, budget: int,
                                                 stream: nat -> Draw, k: nat, placed: seq<Placement>)
    ensures var r := FillFrom(catalogue, tiles, budget, stream, k, placed);
      r.budget > 0 && |r.placements| + |r.tiles| < |placed| + |tiles| ==> AffordableSchematics(catalogue, r.budget) == []
    decreases |tiles|
  {
    if budget > 0 && |tiles| > 0 && |AffordableSchematics(catalogue, budget)| > 0 {
      var t := tiles[|tiles| - 1];
      var s := Pick(AffordableSchematics(catalogue, budget), stream(k));
      var f := RandFacing(stream(k + 1));
      AffordableMembers(catalogue, budget, s);
      FillStopsOnlyWhenPoor(catalogue, tiles[..|tiles| - 1], budget - s.cost.amount, stream, k + 2,
                            placed + [Placement(s, t.x, t.y, f)]);
    }
  }

  /** The enemy catalogue affords nothing exactly below a budget of 10 (its cheapest turret). */
  lemma NothingAffordableBelow10(budget: int)
    ensures AffordableSchematics(ENEMY_SCHEMATICS, budget) == [] <==> budget < 10
    ensures PricedFrom10(ENEMY_SCHEMATICS)
  {
    EnemyCatalogueCosts();
    EnemyCatalogueBudgets(budget);
    if budget >= 10 {
      assert Affordable(ENEMY_SCHEMATICS[0], budget);
      AffordableMembers(ENEMY_SCHEMATICS, budget, ENEMY_SCHEMATICS[0]);
    }
  }

  /** One round of the fill loop that places an enemy. */
  lemma FillRound(catalogue: seq<EnemySchematic>, tiles: seq<Tile>, budget: int, stream: nat -> Draw, k: nat,
                  placed: seq<Placement>)
    requires budget > 0 && |tiles| > 0 && |AffordableSchematics(catalogue, budget)| > 0
    ensures var s := Pick(AffordableSchematics(catalogue, budget), stream(k));
      var p := Placement(s, tiles[|tiles| - 1].x, tiles[|tiles| - 1].y, RandFacing(stream(k + 1)));
      s.cost.Finite? &&
      FillFrom(catalogue, tiles, budget, stream, k, placed) ==
      FillFrom(catalogue, tiles[..|tiles| - 1], budget - s.cost.amount, stream, k + 2, placed + [p])
  {
    AffordableMembers(catalogue, budget, Pick(AffordableSchematics(catalogue, budget), stream(k)));
  }

  /**
   * One round of the fill loop that places an enemy on the last free tile:
   * a random affordable schematic, then a random facing.
   */
  method DrawPlacement(rng: Rng, catalogue: seq<EnemySchematic>, rest: seq<Tile>, left: int, placed: seq<Placement>)
    returns (p: Placement)
    requires left > 0 && |rest| > 0 && |AffordableSchematics(catalogue, left)| > 0
    modifies rng`next
    ensures p.schematic.cost.Finite?
    ensures FillFrom(catalogue, rest, left, rng.stream, old(rng.next), placed) ==
      FillFrom(catalogue, rest[..|rest| - 1], left - p.schematic.cost.amount, rng.stream, rng.next, placed + [p])
  {
    FillRound(catalogue, rest, left, rng.stream, rng.next, placed);
    var d1 := rng.Random();
    var d2 := rng.Random();
    p := Placement(Pick(AffordableSchematics(catalogue, left), d1), rest[|rest| - 1].x, rest[|rest| - 1].y, RandFacing(d2));
  }

  /**
   * The fill loop of rooms and boss waves (run over the enemy catalogue),
   * drawing from the oracle.
   */
  method PlanFill(rng: Rng, catalogue: seq<EnemySchematic>, tiles: seq<Tile>, budget: int)
    returns (placements: seq<Placement>, rest: seq<Tile>, left: int)
    modifies rng`next
    ensures Fill(catalogue, tiles, budget, rng.stream, old(rng.next)) == FillResult(placements, rest, left, rng.next)
  {
    rest := tiles;
    left := budget;
    placements := [];
    while left > 0 && |rest| > 0
      invariant Fill(catalogue, tiles, budget, rng.stream, old(rng.next)) ==
        FillFrom(catalogue, rest, left, rng.stream, rng.next, placements)
      decreases |rest|
    {
      if |AffordableSchematics(catalogue, left)| == 0 {
        FillSkipsTheTile(catalogue, rest, left, rng.stream, rng.next, placements);
        rest := rest[..|rest| - 1];
        break;
      }
      var p := DrawPlacement(rng, catalogue, rest, left, placements);
      placements, rest, left := placements + [p], rest[..|rest| - 1], left - p.schematic.cost.amount;
    }
    if left <= 0 || |rest| == 0 {
      FillStopsHere(catalogue, rest, left, rng.stream, rng.next, placements);
    }
  }

  /** The fill stops when the budget is spent or the tiles run out. */
  lemma FillStopsHere(catalogue: seq<EnemySchematic>, tiles: seq<Tile>, budget: int, stream: nat -> Draw, k: nat,
                      placed: seq<Placement>)
    requires budget <= 0 || |tiles| == 0
    ensures FillFrom(catalogue, tiles, budget, stream, k, placed) == FillResult(placed, tiles, budget, k)
  {
  }

  /** With budget and tiles left but nothing affordable, the fill gives up the last tile and stops. */
  lemma FillSkipsTheTile(catalogue: seq<EnemySchematic>, tiles: seq<Tile>, budget: int, stream: nat -> Draw, k: nat,
                         placed: seq<Placement>)
    requires budget > 0 && |tiles| > 0 && |AffordableSchematics(catalogue, budget)| == 0
    ensures FillFrom(catalogue, tiles, budget, stream, k, placed) == FillResult(placed, tiles[..|tiles| - 1], budget, k)
  {
  }

  /** What an enemy leaves when it dies. */
  datatype Loot = KeyLoot | SchematicLoot(schematic: DroneSchematic) | PowerLoot(amount: int) | NoLoot

  /** The drone schematics the player does not own yet, in catalogue order. */
  function Unowned(owned: seq<DroneSchematic>): (r: seq<DroneSchematic>)
    ensures forall s :: s in r <==> s in DRONE_SCHEMATICS && s !in owned
    ensures |r| <= |DRONE_SCHEMATICS|
  {
    UnownedOf(DRONE_SCHEMATICS, owned)
  }

  function UnownedOf(catalogue: seq<DroneSchematic>, owned: seq<DroneSchematic>): (r: seq<DroneSchematic>)
    ensures forall s :: s in r <==> s in catalogue && s !in owned
    ensures |r| <= |catalogue|
  {
    if |catalogue| == 0 then []
    else (if catalogue[0] in owned then [] else [catalogue[0]]) + UnownedOf(catalogue[1..], owned)
  }

  /**
   * `EnemyBase.die`'s drop on the draws from `stream(k)`: a key with chance
   * 0.1 when the floor can still drop one (drawn only then), else a
   * schematic the player lacks with chance 0.1 (nothing at all when the
   * player owns them all), else 10 power. Returns the drop and the draws used.
   */
  function LootFor(canDropKey: bool, owned: seq<DroneSchematic>, stream: nat -> Draw, k: nat): (Loot, nat)
  {
    if canDropKey && stream(k) < 0.1 then (KeyLoot, 1)
    else
      var j := if canDropKey then k + 1 else k;
      if stream(j) < 0.1 then
        (if |Unowned(owned)| == 0 then (NoLoot, j + 1 - k)
         else (SchematicLoot(Pick(Unowned(owned), stream(j + 1))), j + 2 - k))
      else (PowerLoot(10), j + 1 - k)
  }

  /**
   * A key drops only where one can, a schematic drop is always one the
   * player lacks (so picking it up adds a new schematic), nothing drops
   * only when the player owns every schematic, and otherwise it is 10 power.
   */
  lemma LootIsNeverADuplicate(canDropKey: bool, owned: seq<DroneSchematic>, stream: nat -> Draw, k: nat)
    ensures var (loot, draws) := LootFor(canDropKey, owned, stream, k);
      (loot == KeyLoot ==> canDropKey) &&
      (loot.SchematicLoot? ==> loot.schematic in DRONE_SCHEMATICS && loot.schematic !in owned) &&
      (loot == NoLoot ==> forall s :: s in DRONE_SCHEMATICS ==> s in owned) &&
      (loot.PowerLoot? ==> loot.amount == 10) &&
      1 <= draws <= 3
  {
    var (loot, _) := LootFor(canDropKey, owned, stream, k);
    if loot == NoLoot {
      assert |Unowned(owned)| == 0;
    }
  }

  /** Draws an enemy's drop from the oracle, as `EnemyBase.die` does. */
  method DrawLoot(rng: Rng, canDropKey: bool, owned: seq<DroneSchematic>) returns (loot: Loot)
    modifies rng`next
    ensures (loot, rng.next - old(rng.next)) == LootFor(canDropKey, owned, rng.stream, old(rng.next))
    ensures rng.next > old(rng.next)
  {
    if canDropKey {
      var d := rng.Random();
      if d < 0.1 {
        return KeyLoot;
      }
    }
    var d := rng.Random();
    if d < 0.1 {
      var choices := Unowned(owned);
      var s := DrawItem(rng, choices);
      loot := if s.Some? then SchematicLoot(s.value) else NoLoot;
    } else {
      loot := PowerLoot(10);
    }
  }

  /**
   * The wave a boss fills from `tiles` on the draws from `stream(k)`: the
   * budget is ten times its section number plus the wave roll, then the
   * fill spends it.
   */
  function BossWaveFill(tiles: seq<Tile>, poweredBossPylons: nat, floorIndex: int, stream: nat -> Draw, k: nat): FillResult
  {
    Fill(ENEMY_SCHEMATICS, tiles, (WaveRoll(poweredBossPylons, stream(k)) + SectionNumber(floorIndex)) * 10, stream, k + 1)
  }

  /** Every enemy of a boss wave is a catalogue enemy standing on one of the tiles, one per tile at most. */
  lemma BossWaveIsFromTheCatalogue(tiles: seq<Tile>, poweredBossPylons: nat, floorIndex: int, stream: nat -> Draw, k: nat)
    ensures var w := BossWaveFill(tiles, poweredBossPylons, floorIndex, stream, k).placements;
      |w| <= |tiles| &&
      forall p :: p in w ==> p.schematic in ENEMY_SCHEMATICS && exists t :: t in tiles && t.x == p.x && t.y == p.y
  {
    var budget := (WaveRoll(poweredBossPylons, stream(k)) + SectionNumber(floorIndex)) * 10;
    FillPlacesCatalogueEnemies(ENEMY_SCHEMATICS, tiles, budget, stream, k + 1, []);
    var w := BossWaveFill(tiles, poweredBossPylons, floorIndex, stream, k).placements;
    forall p | p in w
      ensures exists t :: t in tiles && t.x == p.x && t.y == p.y
    {
      var i :| 0 <= i < |w| && w[i] == p;
      assert tiles[|tiles| - 1 - i] in tiles;
    }
  }

  /** What a boss tick does besides snapping: a velocity, and a wave of enemies to place. */
  datatype BossAction = BossAction(velocity: Option<Point>, wave: seq<Placement>)

  /** `EnemyBase` and its subclasses, including the boss. */
  class Enemy {
    const unit: Unit
    const schematic: EnemySchematic
    const impactDamage: int
    /** Alternating enemies: which half of the cycle comes next; the boss: where it is in its 17-tick cycle. */
    var subtick: int
    var collisionDebounce: int
    /** Directional turrets: the axis they strafe along. */
    var moveFacing: Facing4Way

    /** `schematic.create(floorIndex, x, y, facing, schematic)` for a catalogue enemy. */
    constructor (floorIndex: int, x: real, y: real, facing: Facing4Way, schematic: EnemySchematic)
      requires schematic.kind != EnemyBoss
      ensures fresh(unit) && fresh(unit.life)
      ensures unit.life.floorIndex == floorIndex && unit.life.State() == Flags(false, false, false)
      ensures unit.x == x && unit.y == y && unit.facing == facing && !unit.dead && unit.hurtTime == 0.0
      ensures unit.power == BasePower(schematic.kind) && unit.maxPower == BasePower(schematic.kind)
      ensures unit.invulnPeriod == ENEMY_INVULN_PERIOD
      ensures this.schematic == schematic && impactDamage == ImpactDamage(schematic.kind)
      ensures subtick == 0 && collisionDebounce == 0
      ensures moveFacing == if schematic.kind == EnemyDirectionalGun then Clockwise(facing) else Up
    {
      unit := new Unit(floorIndex, x, y, BasePower(schematic.kind), BasePower(schematic.kind), ENEMY_INVULN_PERIOD, facing);
      this.schematic := schematic;
      impactDamage := ImpactDamage(schematic.kind);
      subtick := 0;
      collisionDebounce := 0;
      moveFacing := if schematic.kind == EnemyDirectionalGun then Clockwise(facing) else Up;
    }

    /** `new EnemyBoss(floorIndex, x, y)`: facing down, with the section's boss power. */
    constructor Boss(floorIndex: int, x: real, y: real)
      ensures fresh(unit) && fresh(unit.life)
      ensures unit.life.floorIndex == floorIndex && unit.life.State() == Flags(false, false, false)
      ensures unit.x == x && unit.y == y && unit.facing == Down && !unit.dead && unit.hurtTime == 0.0
      ensures unit.power == BossPower(floorIndex) && unit.maxPower == BossPower(floorIndex)
      ensures unit.invulnPeriod == ENEMY_INVULN_PERIOD
      ensures schematic == BOSS_SCHEMATIC && impactDamage == ImpactDamage(EnemyBoss)
      ensures subtick == 0 && collisionDebounce == 0 && moveFacing == Up
    {
      unit := new Unit(floorIndex, x, y, BossPower(floorIndex), BossPower(floorIndex), ENEMY_INVULN_PERIOD, Down);
      schematic := BOSS_SCHEMATIC;
      impactDamage := ImpactDamage(EnemyBoss);
      subtick := 0;
      collisionDebounce := 0;
      moveFacing := Up;
    }

    predicate IsBoss()
    {
      schematic.kind == EnemyBoss
    }

    /**
     * The boss's extra invulnerability: while any boss pylon of its floor is
     * unpowered it takes no damage.
     */
    predicate Shielded(allBossPylonsPowered: bool)
    {
      IsBoss() && !allBossPylonsPowered
    }

    /**
     * The overlap handler: an enemy hurts the player or a drone it touches
     * by its contact damage, with no check of its own state.
     */
    method Contact(target: Unit) returns (taken: int)
      modifies target`power, target`hurtTime
      ensures taken == HurtAmount(old(target.power), impactDamage, old(target.hurtTime) > 0.0, target.dead)
      ensures target.power == old(target.power) - taken
      ensures target.hurtTime == if taken > 0 then target.invulnPeriod else old(target.hurtTime)
    {
      taken := target.Hurt(impactDamage, false);
    }

    /** `tick` of a catalogue enemy; `aim` is the offset from the enemy to the player. */
    method Tick(aim: Point) returns (out: TickOutcome)
      requires !IsBoss()
      modifies unit`facing, this`subtick, this`collisionDebounce
      ensures unit.facing == TickedFacing(schematic.kind, old(unit.facing), old(subtick), aim)
      ensures subtick == NextSubtick(schematic.kind, old(subtick))
      ensures collisionDebounce == old(collisionDebounce) - (if Bounces(schematic.kind) then 1 else 0)
      ensures out == TickOutcome(old(unit.SnappedPosition()),
                                 TickVelocity(schematic.kind, unit.facing, moveFacing),
                                 EnemyShots(schematic.kind, unit.life.floorIndex, unit.x, unit.y, unit.facing, old(subtick)))
    {
      var moveTo := unit.SnappedPosition();
      var shots: seq<Shot> := [];
      var velocity: Option<Point> := None;
      match schematic.kind {
        case EnemyGun =>
          if subtick == 0 {
            unit.facing := Clockwise(unit.facing);
          } else if subtick == 1 {
            shots := [PulseShot(unit.life.floorIndex, unit.x, unit.y, unit.facing, 512.0, false)];
          }
          subtick := (subtick + 1) % 2;
        case EnemyMultishot =>
          if subtick == 0 {
            unit.facing := Clockwise(unit.facing);
          } else if subtick == 1 {
            shots := FanShots(unit.life.floorIndex, unit.x, unit.y, unit.facing, false);
          }
          subtick := (subtick + 1) % 2;
        case EnemyHoverGun =>
          if subtick == 0 {
            unit.facing := Aim(aim.x, aim.y);
          } else if subtick == 1 {
            shots := [PulseShot(unit.life.floorIndex, unit.x, unit.y, unit.facing, 512.0, false)];
          }
          subtick := (subtick + 1) % 2;
        case EnemyHoverMultishot =>
          if subtick == 0 {
            unit.facing := Aim(aim.x, aim.y);
          } else if subtick == 1 {
            shots := FanShots(unit.life.floorIndex, unit.x, unit.y, unit.facing, false);
          }
          subtick := (subtick + 1) % 2;
        case EnemyHoverPunch =>
          if subtick == 0 {
            unit.facing := if aim.x < 0.0 then Left else Right;
          } else if subtick == 1 {
            unit.facing := if aim.y < 0.0 then Up else Down;
          }
          velocity := Some(AxisVelocity(unit.facing, 64.0));
          subtick := (subtick + 1) % 2;
        case EnemySpinBoomerang =>
          velocity := Some(SpinVelocity(unit.facing, 64.0));
          collisionDebounce := collisionDebounce - 1;
        case EnemyDirectionalGun =>
          velocity := Some(AxisVelocity(moveFacing, 64.0));
          collisionDebounce := collisionDebounce - 1;
          shots := [PulseShot(unit.life.floorIndex, unit.x, unit.y, unit.facing, 512.0, false)];
      }
      out := TickOutcome(moveTo, velocity, shots);
    }

    /**
     * `wallCollision` with the blocked sides `b`: a bouncing enemy whose
     * debounce has run out sets it to 2 and turns; a boomerang takes the
     * blocked-side remap and runs a whole tick, a directional turret reverses
     * its move facing and only snaps. Other enemies ignore walls.
     */
    method WallCollision(b: Blocked) returns (out: Option<TickOutcome>)
      modifies unit`facing, this`subtick, this`collisionDebounce, this`moveFacing
      ensures subtick == old(subtick)
      ensures !Bounces(schematic.kind) || old(collisionDebounce) > 0 ==>
        out == None && unit.facing == old(unit.facing) &&
        collisionDebounce == old(collisionDebounce) && moveFacing == old(moveFacing)
      ensures Bounces(schematic.kind) && old(collisionDebounce) <= 0 ==>
        out.Some? && out.value.moveTo == old(unit.SnappedPosition()) &&
        out.value.velocity == TickVelocity(schematic.kind, unit.facing, moveFacing)
      ensures schematic.kind == EnemySpinBoomerang && old(collisionDebounce) <= 0 ==>
        unit.facing == SpinRemap(old(unit.facing), b) && collisionDebounce == 1 &&
        moveFacing == old(moveFacing) && out.value.shots == []
      ensures schematic.kind == EnemyDirectionalGun && old(collisionDebounce) <= 0 ==>
        moveFacing == Opposite(old(moveFacing)) && collisionDebounce == 2 &&
        unit.facing == old(unit.facing) && out.value.shots == []
    {
      out := None;
      if !Bounces(schematic.kind) || collisionDebounce > 0 {
        return;
      }
      collisionDebounce := 2;
      if schematic.kind == EnemySpinBoomerang {
        unit.facing := SpinRemap(unit.facing, b);
        var o := Tick(Point(0.0, 0.0));
        out := Some(o);
      } else {
        moveFacing := Opposite(moveFacing);
        out := Some(TickOutcome(unit.SnappedPosition(), Some(AxisVelocity(moveFacing, 64.0)), []));
      }
    }

    /**
     * `EnemyBoss.tick`: after the snap, an active boss whose room is open and
     * that has power left moves on every fourth subtick (two draws of -1, 0
     * or 1, times 64) and stands still otherwise; on subtick 16 it fills a
     * wave from the `tiles` around it with a budget of 10 times its section
     * plus a random 1 to `1 + poweredBossPylons`, and starts over.
     */
    method BossTick(rng: Rng, hasOpenedBossRoom: bool, poweredBossPylons: nat, tiles: seq<Tile>)
      returns (moveTo: Point, action: Option<BossAction>)
      requires IsBoss()
      modifies this`subtick, rng`next
      ensures moveTo == unit.SnappedPosition()
      ensures !unit.life.active || !hasOpenedBossRoom || unit.power == 0 ==>
        action == None && subtick == old(subtick) && rng.next == old(rng.next)
      ensures unit.life.active && hasOpenedBossRoom && unit.power != 0 ==>
        action.Some? && subtick == (if old(subtick) == BOSS_WAVE_SUBTICK then 0 else old(subtick) + 1)
      ensures action.Some? && old(subtick) % 4 == 0 ==>
        action.value.velocity ==
          Some(Point((RandInt(1, -1, rng.stream(old(rng.next))) * 64) as real, (RandInt(1, -1, rng.stream(old(rng.next) + 1)) * 64) as real))
      ensures action.Some? && old(subtick) % 4 != 0 ==> action.value.velocity == Some(Point(0.0, 0.0))
      ensures action.Some? && old(subtick) != BOSS_WAVE_SUBTICK ==>
        action.value.wave == [] && rng.next == (if old(subtick) % 4 == 0 then old(rng.next) + 2 else old(rng.next))
      ensures action.Some? && old(subtick) == BOSS_WAVE_SUBTICK ==>
        var r := BossWaveFill(tiles, poweredBossPylons, unit.life.floorIndex, rng.stream, old(rng.next) + 2);
        action.value.wave == r.placements && rng.next == r.next
      ensures action.Some? ==> forall p :: p in action.value.wave ==>
        p.schematic in ENEMY_SCHEMATICS && exists t :: t in tiles && t.x == p.x && t.y == p.y
    {
      moveTo := unit.SnappedPosition();
      action := None;
      if !unit.life.active || !hasOpenedBossRoom || unit.power == 0 {
        return;
      }
      var velocity := Point(0.0, 0.0);
      if subtick % 4 == 0 {
        velocity := BossStep(rng);
      }
      var wave: seq<Placement> := [];
      if subtick == BOSS_WAVE_SUBTICK {
        assert rng.next == old(rng.next) + 2;
        wave := BossWave(rng, poweredBossPylons, tiles);
        subtick := 0;
      } else {
        subtick := subtick + 1;
      }
      action := Some(BossAction(Some(velocity), wave));
    }

    /** The move of every fourth subtick: two draws of -1, 0 or 1, each times 64. */
    method BossStep(rng: Rng) returns (velocity: Point)
      modifies rng`next
      ensures velocity == Point((RandInt(1, -1, rng.stream(old(rng.next))) * 64) as real, (RandInt(1, -1, rng.stream(old(rng.next) + 1)) * 64) as real)
      ensures rng.next == old(rng.next) + 2
    {
      var vx := DrawInt(rng, 1, -1);
      var vy := DrawInt(rng, 1, -1);
      velocity := Point((vx * 64) as real, (vy * 64) as real);
    }

    /** The wave of subtick 16: one draw for the budget, then the fill. */
    method BossWave(rng: Rng, poweredBossPylons: nat, tiles: seq<Tile>) returns (wave: seq<Placement>)
      modifies rng`next
      ensures var r := BossWaveFill(tiles, poweredBossPylons, unit.life.floorIndex, rng.stream, old(rng.next));
        wave == r.placements && rng.next == r.next
      ensures forall p :: p in wave ==>
        p.schematic in ENEMY_SCHEMATICS && exists t :: t in tiles && t.x == p.x && t.y == p.y
    {
      ghost var k := rng.next;
      ghost var fi := unit.life.floorIndex;
      BossWaveIsFromTheCatalogue(tiles, poweredBossPylons, fi, rng.stream, k);
      var d := rng.Random();
      var budget := (WaveRoll(poweredBossPylons, d) + SectionNumber(unit.life.floorIndex)) * 10;
      var placements, rest, left := PlanFill(rng, ENEMY_SCHEMATICS, tiles, budget);
      assert FillResult(placements, rest, left, rng.next) == BossWaveFill(tiles, poweredBossPylons, fi, rng.stream, k);
      wave := placements;
    }
  }

  /**
   * The corrected wave roll: a random 1 to `1 + poweredBossPylons`, so every
   * powered boss pylon can add one more tenth.
   */
  function WaveRoll(poweredBossPylons: nat, draw: Draw): (r: int)
    ensures 1 <= r <= 1 + poweredBossPylons
  {
    RandInt(1 + poweredBossPylons, 1, draw)
  }

  /** The wave roll as the boss writes it, `randInt(1, 1 + poweredBossPylons)`, with its bounds in the wrong order. */
  function WaveRollAsWritten(poweredBossPylons: nat, draw: Draw): (r: int)
    ensures poweredBossPylons == 0 ==> r == 1
    ensures poweredBossPylons >= 1 ==> 2 <= r <= 1 + poweredBossPylons
  {
    RandInt(1, 1 + poweredBossPylons, draw)
  }

  /**
   * With two or more boss pylons powered, the written roll yields its top
   * value `1 + poweredBossPylons` only on a draw of exactly 0.
   */
  lemma WaveRollAsWrittenTopOnlyAtZero(poweredBossPylons: nat, draw: Draw)
    requires poweredBossPylons >= 2 && draw > 0.0
    ensures 2 <= WaveRollAsWritten(poweredBossPylons, draw) <= poweredBossPylons
  {
    var n := 1 - poweredBossPylons;
    ScaleIsProduct(n, draw);
    assert (n as real) * draw < 0.0;
  }

  /**
   * One powered boss pylon: the written roll is always 2, where the
   * corrected one is 1 or 2 on an even split of the draws.
   */
  lemma WaveRollAsWrittenSkipsOne(draw: Draw)
    ensures WaveRollAsWritten(1, draw) == 2
    ensures WaveRoll(1, draw) == (if draw < 0.5 then 1 else 2)
  {
    ScaleIsProduct(2, draw);
  }

  /** The corrected roll reaches every value from 1 to `1 + poweredBossPylons`. */
  lemma WaveRollReachesEveryValue(poweredBossPylons: nat, v: int)
    requires 1 <= v <= 1 + poweredBossPylons
    ensures WaveRoll(poweredBossPylons, (v - 1) as real / (1 + poweredBossPylons) as real) == v
  {
    RandIntReachesEveryValue(poweredBossPylons, v - 1);
  }
}
