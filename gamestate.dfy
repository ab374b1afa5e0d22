/**
 * The game state: the entity lists, the score, and the per-frame update
 * that grows the floor list to cover the player's floor, spawns what is on
 * that floor, despawns everything else and selects the entities to update.
 * The effects other entities have on the lists through the global state
 * (deaths, pickups, the elevator ride) are methods of the state too.
 */
module GameStates {
  import opened Helpers
  import opened Base
  import opened Schematics
  import opened Elements
  import opened Drones
  import opened Enemies
  import opened Drops
  import opened Bullets
  import opened Interactables
  import opened Pylon
  import opened Player
  import opened Floors

  /** The lifecycle of every member of a list, in list order. */
  function LivesOf<T>(s: seq<T>, life: T -> Lifecycle): (r: seq<Lifecycle>)
    ensures |r| == |s|
    ensures forall i :: 0 <= i < |s| ==> r[i] == life(s[i])
  {
    seq(|s|, i requires 0 <= i < |s| => life(s[i]))
  }

  lemma LivesOfAppend<T>(a: seq<T>, b: seq<T>, life: T -> Lifecycle)
    ensures LivesOf(a + b, life) == LivesOf(a, life) + LivesOf(b, life)
  {
    assert forall i :: 0 <= i < |a + b| ==> LivesOf(a + b, life)[i] == (LivesOf(a, life) + LivesOf(b, life))[i];
  }

  /** The lifecycles of an extended list: those of the old list, then those of the new members. */
  lemma LivesOfExtended<T>(a: seq<T>, b: seq<T>, life: T -> Lifecycle)
    requires |a| <= |b| && b[..|a|] == a
    ensures LivesOf(b, life) == LivesOf(a, life) + LivesOf(b[|a|..], life)
    ensures forall l :: l in LivesOf(a, life) ==> l in LivesOf(b, life)
  {
    assert b == a + b[|a|..];
    LivesOfAppend(a, b[|a|..], life);
  }

  function DroneLife(d: Drone): Lifecycle { d.unit.life }
  function EnemyLife(e: Enemy): Lifecycle { e.unit.life }
  function DropLife(d: Drop): Lifecycle { d.life }
  function BulletLife(b: Bullet): Lifecycle { b.life }
  function InteractableLife(i: Interactable): Lifecycle { i.life }
  function PylonLife(p: Pylon): Lifecycle { p.life }
  function FloorLife(f: Floor): Lifecycle { f.life }

  /** The spawn pass's selection: the entities on the current floor that are not spawned, in order. */
  function Arrivals(ls: seq<Lifecycle>, here: int): (r: seq<Lifecycle>)
    reads ls
    ensures forall i :: 0 <= i < |r| ==> r[i] in ls && r[i].floorIndex == here && !r[i].spawned
    ensures forall i :: 0 <= i < |ls| && ls[i].floorIndex == here && !ls[i].spawned ==> ls[i] in r
  {
    if |ls| == 0 then []
    else (if ls[0].floorIndex == here && !ls[0].spawned then [ls[0]] else []) + Arrivals(ls[1..], here)
  }

  /** The despawn pass's selection: the spawned entities on other floors, in order. */
  function Departures(ls: seq<Lifecycle>, here: int): (r: seq<Lifecycle>)
    reads ls
    ensures forall i :: 0 <= i < |r| ==> r[i] in ls && r[i].floorIndex != here && r[i].spawned
    ensures forall i :: 0 <= i < |ls| && ls[i].floorIndex != here && ls[i].spawned ==> ls[i] in r
  {
    if |ls| == 0 then []
    else (if ls[0].floorIndex != here && ls[0].spawned then [ls[0]] else []) + Departures(ls[1..], here)
  }

  /** The update and post-update passes' selection: the spawned, active entities, in order. */
  function Awake(ls: seq<Lifecycle>): (r: seq<Lifecycle>)
    reads ls
    ensures forall i :: 0 <= i < |r| ==> r[i] in ls && r[i].spawned && r[i].active
    ensures forall i :: 0 <= i < |ls| && ls[i].spawned && ls[i].active ==> ls[i] in r
  {
    if |ls| == 0 then []
    else (if ls[0].spawned && ls[0].active then [ls[0]] else []) + Awake(ls[1..])
  }

  /** An entity's flags after the spawn pass. */
  function Arrived(f: Flags, here: bool): Flags
  {
    if here && !f.spawned then SpawnFlags(f) else f
  }

  /** An entity's flags after the despawn pass. */
  function Departed(f: Flags, here: bool): Flags
  {
    if !here && f.spawned then DespawnFlags(f) else f
  }

  /**
   * An entity's flags after both passes, given whether it is on the
   * current floor: it is spawned exactly when it is, it is initialized once
   * it has been spawned, and an entity already in the right state is left
   * alone.
   */
  function Passed(f: Flags, here: bool): (g: Flags)
    ensures g.spawned == here
    ensures g.initialized == (f.initialized || (here && !f.spawned))
    ensures here ==> g.active == (f.active || !f.spawned)
    ensures !here ==> g.active == (f.active && !f.spawned)
    ensures f.spawned == here ==> g == f
  {
    Departed(Arrived(f, here), here)
  }

  /** Spawns every lifecycle of a snapshot, in order; spawning one twice is harmless. */
  method SpawnAll(ls: seq<Lifecycle>)
    modifies ls`active, ls`spawned, ls`initialized
    ensures forall l :: l in ls ==> l.State() == SpawnFlags(old(l.State()))
  {
    var i := 0;
    while i < |ls|
      invariant 0 <= i <= |ls|
      invariant forall l :: l in ls[..i] ==> l.State() == SpawnFlags(old(l.State()))
    {
      assert ls[..i + 1] == ls[..i] + [ls[i]];
      var ranInitialize := ls[i].Spawn();
      i := i + 1;
    }
    assert ls[..i] == ls;
  }

  /** Despawns every lifecycle of a snapshot, in order; despawning one twice is harmless. */
  method DespawnAll(ls: seq<Lifecycle>)
    modifies ls`active, ls`spawned
    ensures forall l :: l in ls ==> l.State() == DespawnFlags(old(l.State()))
  {
    var i := 0;
    while i < |ls|
      invariant 0 <= i <= |ls|
      invariant forall l :: l in ls[..i] ==> l.State() == DespawnFlags(old(l.State()))
      invariant forall l :: l in ls && l !in ls[..i] ==> l.State() == old(l.State())
    {
      assert ls[..i + 1] == ls[..i] + [ls[i]];
      ls[i].Despawn();
      i := i + 1;
    }
    assert ls[..i] == ls;
  }

  /**
   * The spawn pass over a snapshot: the members on floor `here` that are not
   * spawned are spawned, and the lifecycles in `others` outside the snapshot
   * are left alone.
   */
  method SpawnArrivals(ls: seq<Lifecycle>, here: int, ghost others: seq<Lifecycle>)
    modifies ls`active, ls`spawned, ls`initialized
    ensures forall l :: l in ls ==> l.State() == Arrived(old(l.State()), l.floorIndex == here)
    ensures forall l :: l in others && l !in ls ==> l.State() == old(l.State())
  {
    var arrivals := Arrivals(ls, here);
    SpawnAll(arrivals);
    forall l | l in ls
      ensures l.State() == Arrived(old(l.State()), l.floorIndex == here)
    {
      if l !in arrivals {
        var i :| 0 <= i < |ls| && ls[i] == l;
      }
    }
  }

  /** The despawn pass over a snapshot: the spawned members off floor `here` despawn. */
  method DespawnDepartures(ls: seq<Lifecycle>, here: int)
    modifies ls`active, ls`spawned
    ensures forall l :: l in ls ==> l.State() == Departed(old(l.State()), l.floorIndex == here)
  {
    var departures := Departures(ls, here);
    DespawnAll(departures);
    forall l | l in ls
      ensures l.State() == Departed(old(l.State()), l.floorIndex == here)
    {
      if l !in departures {
        var i :| 0 <= i < |ls| && ls[i] == l;
      }
    }
  }

  /**
   * A floor's own `spawn`, seen from the game state: of the lifecycles in
   * `others`, only the floor's changes.
   */
  method FloorSpawn(floor: Floor, rng: Rng, walls: (int, int) -> int, ghost others: seq<Lifecycle>) returns (plan: SpawnPlan)
    requires floor.Valid()
    modifies floor.life`active, floor.life`spawned, floor.life`initialized
    modifies floor`rooms, floor`doors, floor`hasSpawnedObjects, rng`next
    ensures floor.Valid()
    ensures floor.life.State() == SpawnFlags(old(floor.life.State()))
    ensures forall l :: l in others && l != floor.life ==> l.State() == old(l.State())
    ensures forall p :: p in plan.enemies ==> p.schematic in ENEMY_SCHEMATICS
    ensures old(floor.hasSpawnedObjects) ==> plan == NOTHING_SPAWNED && rng.next == old(rng.next)
    ensures !old(floor.hasSpawnedObjects) ==>
      FirstSpawn(plan, walls, floor.rooms, floor.life.floorIndex, rng.stream,
                 if old(floor.life.initialized) then old(rng.next) else Layout(floor.FloorNumberOf(), rng.stream, old(rng.next)).1, rng.next)
  {
    plan := floor.Spawn(rng, walls);
  }

  /** A catalogue enemy created from a placement on floor `here`. */
  ghost predicate PlacedEnemy(e: Enemy, p: Placement, here: int)
    reads e.unit, e.unit.life
  {
    e.schematic == p.schematic && e.unit.x == p.x && e.unit.y == p.y && e.unit.facing == p.facing &&
    e.unit.life.floorIndex == here && e.unit.life.State() == Flags(false, false, false)
  }

  /** The boss created at `at` on floor `here`. */
  ghost predicate PlacedBoss(e: Enemy, at: Point, here: int)
    reads e.unit, e.unit.life
  {
    e.schematic == BOSS_SCHEMATIC && e.unit.x == at.x && e.unit.y == at.y &&
    e.unit.life.floorIndex == here && e.unit.life.State() == Flags(false, false, false)
  }

  /** A power core created on tile `t` of floor `here`. */
  ghost predicate PlacedCore(i: Interactable, t: Tile, here: int)
    reads i.life
  {
    i.kind == PowerCore && i.x == t.x && i.y == t.y &&
    i.life.floorIndex == here && i.life.State() == Flags(false, false, false)
  }

  /** An elevator button created from `b` on floor `here`. */
  ghost predicate PlacedButton(i: Interactable, b: ButtonSpot, here: int)
    reads i.life
  {
    i.kind == ElevatorButton(b.delta, b.main) && i.x == b.x && i.y == b.y &&
    i.life.floorIndex == here && i.life.State() == Flags(false, false, false)
  }

  /** A pylon created from `p` on floor `here`. */
  ghost predicate PlacedPylon(y: Pylon, p: PylonSpot, here: int)
    reads y, y.life
  {
    y.boss == p.boss && y.x == p.x && y.y == p.y && y.progress == 0.0 && y.power == 0 &&
    y.life.floorIndex == here && y.life.State() == Flags(false, false, false)
  }

  /** `es` is `es0` followed by the room enemies of `plan` and then its boss, all on floor `here`. */
  ghost predicate EnemiesPlaced(es0: seq<Enemy>, es: seq<Enemy>, plan: SpawnPlan, here: int)
    reads set i | 0 <= i < |es| :: es[i].unit, set i | 0 <= i < |es| :: es[i].unit.life
  {
    |es| == |es0| + |plan.enemies| + (if plan.boss.Some? then 1 else 0) && es[..|es0|] == es0 &&
    (forall i :: 0 <= i < |plan.enemies| ==> PlacedEnemy(es[|es0| + i], plan.enemies[i], here)) &&
    (plan.boss.Some? ==> PlacedBoss(es[|es| - 1], plan.boss.value, here))
  }

  /** `ins` is `ins0` followed by the power cores of `plan` and then its buttons, all on floor `here`. */
  ghost predicate InteractablesPlaced(ins0: seq<Interactable>, ins: seq<Interactable>, plan: SpawnPlan, here: int)
    reads set i | 0 <= i < |ins| :: ins[i].life
  {
    |ins| == |ins0| + |plan.cores| + |plan.buttons| && ins[..|ins0|] == ins0 &&
    (forall i :: 0 <= i < |plan.cores| ==> PlacedCore(ins[|ins0| + i], plan.cores[i], here)) &&
    (forall i :: 0 <= i < |plan.buttons| ==> PlacedButton(ins[|ins0| + |plan.cores| + i], plan.buttons[i], here))
  }

  /** `ps` is `ps0` followed by pylons made from `spots`, all on floor `here`. */
  ghost predicate PylonsPlaced(ps0: seq<Pylon>, ps: seq<Pylon>, spots: seq<PylonSpot>, here: int)
    reads set i | 0 <= i < |ps| :: ps[i], set i | 0 <= i < |ps| :: ps[i].life
  {
    |ps| == |ps0| + |spots| && ps[..|ps0|] == ps0 &&
    forall i :: 0 <= i < |spots| ==> PlacedPylon(ps[|ps0| + i], spots[i], here)
  }

  /** `score`: what the game-over screen reports. */
  class Score {
    var enemiesKilled: int
    var bossesDefeated: int
    var floorsCleared: int
    var playTime: real
    var won: bool

    constructor ()
      ensures enemiesKilled == 0 && bossesDefeated == 0 && floorsCleared == 0 && playTime == 0.0 && !won
    {
      enemiesKilled := 0;
      bossesDefeated := 0;
      floorsCleared := 0;
      playTime := 0.0;
      won := false;
    }
  }

  class GameState {
    const player: Player
    var drones: seq<Drone>
    var enemies: seq<Enemy>
    var drops: seq<Drop>
    var bullets: seq<Bullet>
    var interactables: seq<Interactable>
    var pylons: seq<Pylon>
    var elements: seq<Element>
    var floors: seq<Floor>

    const tickRate: real

    const score: Score

    /** The current floor: the player's. */
    function Here(): int
      reads player.unit.life
    {
      player.unit.life.floorIndex
    }

    /** The lifecycles of `entities` before the floors: the player, then each list in turn. */
    function ActorLives(): seq<Lifecycle>
      reads this
    {
      ActorLivesOf(player, drones, enemies, drops, bullets, interactables, pylons)
    }

    /** The lifecycles of `entities`, in its order (the HUD elements are not modelled as entities). */
    function Lives(): seq<Lifecycle>
      reads this
    {
      ActorLives() + LivesOf(floors, FloorLife)
    }

    /** The lifecycles of `entities`, as a set: what the passes may change. */
    function LifeSet(): set<Lifecycle>
      reads this
    {
      set l | l in Lives()
    }

    /** The floors, as a set: what a spawn pass may lay out. */
    function FloorSet(): set<Floor>
      reads this
    {
      set f | f in floors
    }

    /** `floors[i]` is floor `i`, and each floor keeps its own invariant. */
    ghost predicate FloorsValid()
      reads this, floors, set f | f in floors :: f.life
    {
      forall i :: 0 <= i < |floors| ==> floors[i].life.floorIndex == i && floors[i].Valid()
    }

    /** The player is on a floor that exists or is yet to be made, and the floors are numbered. */
    ghost predicate Valid()
      reads this, player.unit.life, floors, set f | f in floors :: f.life
    {
      0 <= Here() && FloorsValid()
    }

    /** `resetGameState`: a fresh player on floor 0, no entities, the three HUD elements, a zero score. */
    constructor ()
      ensures fresh(player) && fresh(player.unit) && fresh(player.unit.life)
      ensures Here() == 0 && player.unit.life.State() == Flags(false, false, false)
      ensures player.unit.power == PLAYER_MAX_POWER && player.unit.maxPower == PLAYER_MAX_POWER
      ensures player.Valid()
      ensures drones == [] && enemies == [] && drops == [] && bullets == [] && interactables == [] && pylons == []
      ensures floors == []
      ensures elements == [PlayerPowerBar, BossPowerBar, SchematicList]
      ensures tickRate == 0.5
      ensures fresh(score)
      ensures score.enemiesKilled == 0 && score.bossesDefeated == 0 && score.floorsCleared == 0
      ensures score.playTime == 0.0 && !score.won
      ensures Valid()
    {
      player := new Player();
      drones := [];
      enemies := [];
      drops := [];
      bullets := [];
      interactables := [];
      pylons := [];
      elements := [PlayerPowerBar, BossPowerBar, SchematicList];
      floors := [];
      tickRate := 0.5;
      score := new Score();
    }

    /** `update`'s `while` loop: new floors are pushed, numbered by position, until the player's floor exists. */
    method GrowFloors()
      requires Valid()
      modifies this`floors
      ensures Valid()
      ensures |floors| == MaxInt(|old(floors)|, Here() + 1)
      ensures floors[..|old(floors)|] == old(floors)
      ensures forall i :: |old(floors)| <= i < |floors| ==>
        fresh(floors[i]) && fresh(floors[i].life) && floors[i].life.State() == Flags(false, false, false)
      ensures forall f :: f in floors ==> f in old(floors) || fresh(f)
      ensures forall l :: l in old(Lives()) ==> l in Lives() && l.State() == old(l.State())
      ensures forall l :: l in Lives() ==> l in old(Lives()) || l in LivesOf(floors[|old(floors)|..], FloorLife)
    {
      while Here() >= |floors|
        invariant FloorsValid()
        invariant |old(floors)| <= |floors| <= MaxInt(|old(floors)|, Here() + 1)
        invariant floors[..|old(floors)|] == old(floors)
        invariant forall i :: |old(floors)| <= i < |floors| ==>
          fresh(floors[i]) && fresh(floors[i].life) && floors[i].life.State() == Flags(false, false, false)
        decreases Here() - |floors|
      {
        var f := new Floor(|floors|);
        floors := floors + [f];
      }
      assert floors == old(floors) + floors[|old(floors)|..];
      LivesOfAppend(old(floors), floors[|old(floors)|..], FloorLife);
      forall f | f in floors
        ensures f in old(floors) || fresh(f)
      {
        var i :| 0 <= i < |floors| && floors[i] == f;
        if i < |old(floors)| {
          assert old(floors)[i] == f;
        }
      }
    }
      /** The catalogue enemies a spawn places, pushed in order. */
    method AddEnemies(ps: seq<Placement>, here: int)
      requires forall p :: p in ps ==> p.schematic in ENEMY_SCHEMATICS
      modifies this`enemies
      ensures |enemies| == |old(enemies)| + |ps| && enemies[..|old(enemies)|] == old(enemies)
      ensures forall i :: 0 <= i < |ps| ==> PlacedEnemy(enemies[|old(enemies)| + i], ps[i], here)
      ensures forall i :: |old(enemies)| <= i < |enemies| ==> fresh(enemies[i].unit) && fresh(enemies[i].unit.life)
    {
      EnemyCatalogueCosts();
      var j := 0;
      while j < |ps|
        invariant 0 <= j <= |ps|
        invariant |enemies| == |old(enemies)| + j && enemies[..|old(enemies)|] == old(enemies)
        invariant forall i :: 0 <= i < j ==> PlacedEnemy(enemies[|old(enemies)| + i], ps[i], here)
        invariant forall i :: |old(enemies)| <= i < |enemies| ==> fresh(enemies[i].unit) && fresh(enemies[i].unit.life)
      {
        var p := ps[j];
        assert p in ps;
        var e := new Enemy(here, p.x, p.y, p.facing, p.schematic);
        enemies := enemies + [e];
        j := j + 1;
      }
    }

    /** The boss floor's boss, pushed last. */
    method AddBoss(at: Point, here: int)
      modifies this`enemies
      ensures |enemies| == |old(enemies)| + 1 && enemies[..|old(enemies)|] == old(enemies)
      ensures PlacedBoss(enemies[|old(enemies)|], at, here)
      ensures fresh(enemies[|old(enemies)|].unit) && fresh(enemies[|old(enemies)|].unit.life)
    {
      var e := new Enemy.Boss(here, at.x, at.y);
      enemies := enemies + [e];
    }

    /** The power cores a spawn places, pushed in order. */
    method AddCores(ts: seq<Tile>, here: int)
      modifies this`interactables
      ensures |interactables| == |old(interactables)| + |ts| && interactables[..|old(interactables)|] == old(interactables)
      ensures forall i :: 0 <= i < |ts| ==> PlacedCore(interactables[|old(interactables)| + i], ts[i], here)
      ensures forall i :: |old(interactables)| <= i < |interactables| ==> fresh(interactables[i].life)
    {
      var j := 0;
      while j < |ts|
        invariant 0 <= j <= |ts|
        invariant |interactables| == |old(interactables)| + j && interactables[..|old(interactables)|] == old(interactables)
        invariant forall i :: 0 <= i < j ==> PlacedCore(interactables[|old(interactables)| + i], ts[i], here)
        invariant forall i :: |old(interactables)| <= i < |interactables| ==> fresh(interactables[i].life)
      {
        var c := new Interactable(here, ts[j].x, ts[j].y, PowerCore);
        interactables := interactables + [c];
        j := j + 1;
      }
    }

    /** The elevator buttons a first spawn places, pushed in order. */
    method AddButtons(bs: seq<ButtonSpot>, here: int)
      modifies this`interactables
      ensures |interactables| == |old(interactables)| + |bs| && interactables[..|old(interactables)|] == old(interactables)
      ensures forall i :: 0 <= i < |bs| ==> PlacedButton(interactables[|old(interactables)| + i], bs[i], here)
      ensures forall i :: |old(interactables)| <= i < |interactables| ==> fresh(interactables[i].life)
    {
      var j := 0;
      while j < |bs|
        invariant 0 <= j <= |bs|
        invariant |interactables| == |old(interactables)| + j && interactables[..|old(interactables)|] == old(interactables)
        invariant forall i :: 0 <= i < j ==> PlacedButton(interactables[|old(interactables)| + i], bs[i], here)
        invariant forall i :: |old(interactables)| <= i < |interactables| ==> fresh(interactables[i].life)
      {
        var b := new Interactable(here, bs[j].x, bs[j].y, ElevatorButton(bs[j].delta, bs[j].main));
        interactables := interactables + [b];
        j := j + 1;
      }
    }

    /** The pylons a first spawn of a boss floor places, pushed in order. */
    method AddPylons(ps: seq<PylonSpot>, here: int)
      modifies this`pylons
      ensures |pylons| == |old(pylons)| + |ps| && pylons[..|old(pylons)|] == old(pylons)
      ensures forall i :: 0 <= i < |ps| ==> PlacedPylon(pylons[|old(pylons)| + i], ps[i], here)
      ensures forall i :: |old(pylons)| <= i < |pylons| ==> fresh(pylons[i]) && fresh(pylons[i].life)
      ensures PylonsPlaced(old(pylons), pylons, ps, here)
    {
      var j := 0;
      while j < |ps|
        invariant 0 <= j <= |ps|
        invariant |pylons| == |old(pylons)| + j && pylons[..|old(pylons)|] == old(pylons)
        invariant forall i :: 0 <= i < j ==> PlacedPylon(pylons[|old(pylons)| + i], ps[i], here)
        invariant forall i :: |old(pylons)| <= i < |pylons| ==> fresh(pylons[i]) && fresh(pylons[i].life)
      {
        var y := new Pylon(here, ps[j].x, ps[j].y, ps[j].boss);
        pylons := pylons + [y];
        j := j + 1;
      }
    }

    /** The room enemies of a spawn and then its boss, pushed in order. */
    method PopulateEnemies(plan: SpawnPlan, here: int)
      requires forall p :: p in plan.enemies ==> p.schematic in ENEMY_SCHEMATICS
      modifies this`enemies
      ensures EnemiesPlaced(old(enemies), enemies, plan, here)
      ensures forall i :: |old(enemies)| <= i < |enemies| ==> fresh(enemies[i].unit) && fresh(enemies[i].unit.life)
    {
      AddEnemies(plan.enemies, here);
      ghost var placed := enemies;
      if plan.boss.Some? {
        AddBoss(plan.boss.value, here);
        assert enemies[..|placed|] == placed;
      }
    }

    /** The power cores of a spawn and then its buttons, pushed in order. */
    method PopulateInteractables(plan: SpawnPlan, here: int)
      modifies this`interactables
      ensures InteractablesPlaced(old(interactables), interactables, plan, here)
      ensures forall i :: |old(interactables)| <= i < |interactables| ==> fresh(interactables[i].life)
    {
      AddCores(plan.cores, here);
      ghost var cored := interactables;
      AddButtons(plan.buttons, here);
      assert interactables[..|cored|] == cored;
    }

    /**
     * What a floor's spawn adds to the lists: its room enemies and then the
     * boss, its power cores and then its buttons, its pylons. Everything
     * added is new, on floor `here` and not spawned.
     */
    method Populate(plan: SpawnPlan, here: int)
      requires forall p :: p in plan.enemies ==> p.schematic in ENEMY_SCHEMATICS
      modifies this`enemies, this`interactables, this`pylons
      ensures EnemiesPlaced(old(enemies), enemies, plan, here)
      ensures InteractablesPlaced(old(interactables), interactables, plan, here)
      ensures PylonsPlaced(old(pylons), pylons, plan.pylons, here)
      ensures forall i :: |old(enemies)| <= i < |enemies| ==> fresh(enemies[i].unit) && fresh(enemies[i].unit.life)
      ensures forall i :: |old(interactables)| <= i < |interactables| ==> fresh(interactables[i].life)
      ensures forall i :: |old(pylons)| <= i < |pylons| ==> fresh(pylons[i]) && fresh(pylons[i].life)
    {
      PopulateEnemies(plan, here);
      PopulateInteractables(plan, here);
      AddPylons(plan.pylons, here);
      ghost var placedEnemies := EnemiesPlaced(old(enemies), enemies, plan, here);
      ghost var placedInteractables := InteractablesPlaced(old(interactables), interactables, plan, here);
      assert placedEnemies && placedInteractables;
    }

    /**
     * The current floor's turn in the spawn pass: `spawn` rolls and fills
     * its rooms on the first visit, and what it creates is pushed onto the
     * lists, on floor `here` and not spawned.
     */
    method SpawnFloor(floor: Floor, rng: Rng, walls: (int, int) -> int, ghost others: seq<Lifecycle>) returns (plan: SpawnPlan)
      requires floor.Valid()
      modifies floor.life`active, floor.life`spawned, floor.life`initialized
      modifies floor`rooms, floor`doors, floor`hasSpawnedObjects
      modifies this`enemies, this`interactables, this`pylons, rng`next
      ensures floor.Valid()
      ensures floor.life.State() == SpawnFlags(old(floor.life.State()))
      ensures forall l :: l in others && l != floor.life ==> l.State() == old(l.State())
      ensures forall l :: l in old(ActorLives()) ==> l in ActorLives()
      ensures forall l :: l in ActorLives() ==>
        l in old(ActorLives()) || (l.floorIndex == floor.life.floorIndex && l.State() == Flags(false, false, false))
      ensures old(floor.hasSpawnedObjects) ==> plan == NOTHING_SPAWNED && rng.next == old(rng.next)
      ensures !old(floor.hasSpawnedObjects) ==>
        FirstSpawn(plan, walls, floor.rooms, floor.life.floorIndex, rng.stream,
                   if old(floor.life.initialized) then old(rng.next) else Layout(floor.FloorNumberOf(), rng.stream, old(rng.next)).1, rng.next)
      ensures EnemiesPlaced(old(enemies), enemies, plan, floor.life.floorIndex)
      ensures InteractablesPlaced(old(interactables), interactables, plan, floor.life.floorIndex)
      ensures PylonsPlaced(old(pylons), pylons, plan.pylons, floor.life.floorIndex)
    {
      var here := floor.life.floorIndex;
      plan := FloorSpawn(floor, rng, walls, others);
      Populate(plan, here);
      ActorLivesGrow(player, drones, old(enemies), enemies, drops, bullets,
                     old(interactables), interactables, old(pylons), pylons, plan, here);
    }

    /**
     * The first half of `update`'s spawn pass: the actors on the current
     * floor that are not spawned spawn, in list order. The floors are
     * left alone, except that the current floor's lifecycle may already
     * have arrived if an actor shares it.
     */
    method ArriveActors(floor: Floor, ghost lives: seq<Lifecycle>)
      requires Valid() && Here() < |floors| && floor == floors[Here()] && lives == Lives()
      modifies LifeSet()`active, LifeSet()`spawned, LifeSet()`initialized
      ensures Valid() && Lives() == lives
      ensures forall l :: l in lives && l != floor.life ==> l.State() == Arrived(old(l.State()), l.floorIndex == Here())
      ensures floor.life.State() == old(floor.life.State()) ||
              floor.life.State() == Arrived(old(floor.life.State()), true)
    {
      var here := Here();
      assert floor.life == LivesOf(floors, FloorLife)[here];
      var actors := ActorLives();
      assert forall l :: l in lives && l !in actors && l != floor.life ==> l.floorIndex != here by {
        forall l | l in lives && l !in actors && l != floor.life
          ensures l.floorIndex != here
        {
          var i :| 0 <= i < |floors| && LivesOf(floors, FloorLife)[i] == l;
          assert l == floors[i].life && i != here;
        }
      }
      SpawnArrivals(actors, here, lives);
      assert FloorsValid() by {
        forall i | 0 <= i < |floors|
          ensures floors[i].Valid()
        {
          assert old(floors[i].Valid());
          if floors[i].life in actors {
            assert floors[i].life.State() == Arrived(old(floors[i].life.State()), floors[i].life.floorIndex == here);
          }
        }
      }
    }

    /**
     * `update`'s spawn pass over the entities on the current floor that are
     * not spawned, in list order (the selection is made before any of them
     * spawns): the actors first, then the floor. The newcomers its spawn
     * creates are left unspawned for the next update.
     */
    method SpawnPass(floor: Floor, rng: Rng, walls: (int, int) -> int, ghost lives: seq<Lifecycle>) returns (plan: SpawnPlan)
      requires Valid() && Here() < |floors| && floor == floors[Here()] && lives == Lives()
      modifies LifeSet()`active, LifeSet()`spawned, LifeSet()`initialized
      modifies floor`rooms, floor`doors, floor`hasSpawnedObjects
      modifies this`enemies, this`interactables, this`pylons, rng`next
      ensures Valid()
      ensures forall l :: l in lives ==> l.State() == Arrived(old(l.State()), l.floorIndex == Here())
      ensures forall l :: l in lives ==> l in Lives()
      ensures forall l :: l in Lives() ==>
        l in lives || (l.floorIndex == Here() && l.State() == Flags(false, false, false))
      ensures old(floor.life.spawned) ==> plan == NOTHING_SPAWNED && unchanged(this)
    {
      assert floor.life.floorIndex == Here();
      var floorArrives := !floor.life.spawned;
      ArriveActors(floor, lives);
      if !floorArrives {
        return NOTHING_SPAWNED;
      }
      plan := SpawnFloor(floor, rng, walls, lives);
      assert FloorsValid() by {
        forall i | 0 <= i < |floors|
          ensures floors[i].life.floorIndex == i && floors[i].Valid()
        {
          assert floors[i].life == LivesOf(floors, FloorLife)[i] && floors[i].life in lives;
          if floors[i].life != floor.life {
            assert floors[i] != floor && floors[i].life.State() == old(floors[i].life.State());
          }
        }
      }
    }

    /**
     * `update`'s despawn pass: every spawned entity off the current floor
     * despawns. It runs over `ls`, which holds the entities except perhaps
     * some on the current floor, which the pass leaves alone anyway.
     */
    method DespawnPass(ls: seq<Lifecycle>, ghost lives: seq<Lifecycle>)
      requires Valid() && lives == Lives()
      requires forall l :: l in ls ==> l in lives
      requires forall l :: l in lives ==> l in ls || l.floorIndex == Here()
      modifies ls`active, ls`spawned
      ensures Valid() && Lives() == lives
      ensures forall l :: l in lives ==> l.State() == Departed(old(l.State()), l.floorIndex == Here())
      ensures Here() == old(Here()) && forall l :: l in lives ==> l.floorIndex == old(l.floorIndex)
      ensures forall l :: l in lives && !old(l.spawned) ==> l.State() == old(l.State())
    {
      var here := Here();
      DespawnDepartures(ls, here);
      assert FloorsValid() by {
        forall i | 0 <= i < |floors|
          ensures floors[i].Valid()
        {
          assert old(floors[i].Valid());
          assert floors[i].life == LivesOf(floors, FloorLife)[i];
        }
      }
    }

    /**
     * The spawn pass and then the despawn pass, once the current floor
     * exists: every entity ends up spawned exactly when it is on the current
     * floor, except the newcomers the floor's spawn creates, which wait
     * unspawned for the next update.
     */
    method Passes(rng: Rng, walls: (int, int) -> int, ghost lives: seq<Lifecycle>)
      requires Valid() && Here() < |floors| && lives == Lives()
      modifies LifeSet()`active, LifeSet()`spawned, LifeSet()`initialized
      modifies FloorSet()`rooms, FloorSet()`doors, FloorSet()`hasSpawnedObjects
      modifies this`enemies, this`interactables, this`pylons, rng`next
      ensures Valid() && floors == old(floors)
      ensures forall l :: l in lives ==> l in Lives() && l.State() == Passed(old(l.State()), l.floorIndex == Here())
      ensures forall l :: l in Lives() ==>
        l in lives || (l.floorIndex == Here() && l.State() == Flags(false, false, false))
    {
      var floor := floors[Here()];
      var before := Lives();
      var _ := SpawnPass(floor, rng, walls, lives);
      ghost var spawned := Lives();
      DespawnPass(before, spawned);
      forall l | l in spawned
        ensures l in lives || (l.floorIndex == Here() && l.State() == Flags(false, false, false))
      {
      }
    }

    /**
     * `update`, without the entity updates themselves: the play time and
     * floors-cleared score, the floor list grown to the player's floor, the
     * spawn pass and the despawn pass. `walls` is the tile layer of the
     * current floor. Returns the lifecycles of the entities the update and
     * postUpdate passes run on.
     */
    method Update(t: real, rng: Rng, walls: (int, int) -> int, ghost lives: seq<Lifecycle>) returns (targets: seq<Lifecycle>)
      requires Valid() && lives == Lives()
      modifies score`playTime, score`floorsCleared, this`floors, this`enemies, this`interactables, this`pylons
      modifies LifeSet()`active, LifeSet()`spawned, LifeSet()`initialized
      modifies FloorSet()`rooms, FloorSet()`doors, FloorSet()`hasSpawnedObjects, rng`next
      ensures Valid() && Here() == old(Here())
      ensures score.playTime == t && score.floorsCleared == MaxInt(old(score.floorsCleared), Here())
      ensures |floors| == MaxInt(|old(floors)|, Here() + 1) && floors[..|old(floors)|] == old(floors)
      ensures forall l :: l in lives ==> l in Lives()
      ensures forall l :: l in lives ==> l.State() == Passed(old(l.State()), l.floorIndex == Here())
      ensures forall i :: |old(floors)| <= i < |floors| ==>
        fresh(floors[i].life) && floors[i].life.State() == Passed(Flags(false, false, false), i == Here())
      ensures forall l :: l in Lives() ==>
        l in lives || l in LivesOf(floors[|old(floors)|..], FloorLife) ||
        (l.floorIndex == Here() && l.State() == Flags(false, false, false))
      ensures forall l :: l in targets <==> l in Lives() && l.spawned && l.active
    {
      score.playTime := t;
      score.floorsCleared := MaxInt(score.floorsCleared, Here());
      targets := UpdateFloors(rng, walls, lives);
    }

    /** The floor half of `update`: the floor list grown to the player's floor, then the spawn and despawn passes. */
    method UpdateFloors(rng: Rng, walls: (int, int) -> int, ghost lives: seq<Lifecycle>) returns (targets: seq<Lifecycle>)
      requires Valid() && lives == Lives()
      modifies this`floors, this`enemies, this`interactables, this`pylons
      modifies LifeSet()`active, LifeSet()`spawned, LifeSet()`initialized
      modifies FloorSet()`rooms, FloorSet()`doors, FloorSet()`hasSpawnedObjects, rng`next
      ensures Valid() && Here() == old(Here())
      ensures |floors| == MaxInt(|old(floors)|, Here() + 1) && floors[..|old(floors)|] == old(floors)
      ensures forall l :: l in lives ==> l in Lives()
      ensures forall l :: l in lives ==> l.State() == Passed(old(l.State()), l.floorIndex == Here())
      ensures forall i :: |old(floors)| <= i < |floors| ==>
        fresh(floors[i].life) && floors[i].life.State() == Passed(Flags(false, false, false), i == Here())
      ensures forall l :: l in Lives() ==>
        l in lives || l in LivesOf(floors[|old(floors)|..], FloorLife) ||
        (l.floorIndex == Here() && l.State() == Flags(false, false, false))
      ensures forall l :: l in targets <==> l in Lives() && l.spawned && l.active
    {
      GrowFloors();
      ghost var grown := Lives();
      Passes(rng, walls, grown);
      ghost var fresher := LivesOf(floors[|old(floors)|..], FloorLife);
      forall l | l in Lives()
        ensures l in lives || l in fresher || (l.floorIndex == Here() && l.State() == Flags(false, false, false))
      {
        if l in grown {
          assert l in lives || l in fresher;
        }
      }
      targets := Awake(Lives());
    }
  }

  function ActorLivesOf(p: Player, ds: seq<Drone>, es: seq<Enemy>, dr: seq<Drop>, bs: seq<Bullet>,
                        ins: seq<Interactable>, ps: seq<Pylon>): seq<Lifecycle>
  {
    [p.unit.life] + LivesOf(ds, DroneLife) + LivesOf(es, EnemyLife) + LivesOf(dr, DropLife) +
    LivesOf(bs, BulletLife) + LivesOf(ins, InteractableLife) + LivesOf(ps, PylonLife)
  }

  /** The members of an extended list past the old ones all have their lifecycle in state `f` on floor `here`. */
  ghost predicate NewOn<T>(a: seq<T>, b: seq<T>, life: T -> Lifecycle, here: int, f: Flags)
    reads set i | |a| <= i < |b| :: life(b[i])
  {
    |a| <= |b| && b[..|a|] == a &&
    forall i :: |a| <= i < |b| ==> life(b[i]).floorIndex == here && life(b[i]).State() == f
  }

  /** In an extended list, the lifecycles past the old ones are those of the new members. */
  lemma NewLives<T>(a: seq<T>, b: seq<T>, life: T -> Lifecycle, here: int, f: Flags)
    requires NewOn(a, b, life, here, f)
    ensures forall l :: l in LivesOf(a, life) ==> l in LivesOf(b, life)
    ensures forall l :: l in LivesOf(b, life) ==> l in LivesOf(a, life) || (l.floorIndex == here && l.State() == f)
  {
    LivesOfExtended(a, b, life);
    forall l | l in LivesOf(b[|a|..], life)
      ensures l.floorIndex == here && l.State() == f
    {
      var j :| 0 <= j < |b| - |a| && LivesOf(b[|a|..], life)[j] == l;
      assert l == life(b[|a| + j]);
    }
  }

  lemma EnemiesPlacedAreNew(es0: seq<Enemy>, es: seq<Enemy>, plan: SpawnPlan, here: int)
    requires EnemiesPlaced(es0, es, plan, here)
    ensures NewOn(es0, es, EnemyLife, here, Flags(false, false, false))
  {
    forall i | |es0| <= i < |es|
      ensures EnemyLife(es[i]).floorIndex == here && EnemyLife(es[i]).State() == Flags(false, false, false)
    {
      if i < |es0| + |plan.enemies| {
        assert PlacedEnemy(es[|es0| + (i - |es0|)], plan.enemies[i - |es0|], here);
      }
    }
  }

  lemma InteractablesPlacedAreNew(ins0: seq<Interactable>, ins: seq<Interactable>, plan: SpawnPlan, here: int)
    requires InteractablesPlaced(ins0, ins, plan, here)
    ensures NewOn(ins0, ins, InteractableLife, here, Flags(false, false, false))
  {
    forall i | |ins0| <= i < |ins|
      ensures InteractableLife(ins[i]).floorIndex == here
      ensures InteractableLife(ins[i]).State() == Flags(false, false, false)
    {
      if i < |ins0| + |plan.cores| {
        assert PlacedCore(ins[|ins0| + (i - |ins0|)], plan.cores[i - |ins0|], here);
      } else {
        assert PlacedButton(ins[|ins0| + |plan.cores| + (i - |ins0| - |plan.cores|)], plan.buttons[i - |ins0| - |plan.cores|], here);
      }
    }
  }

  lemma PylonsPlacedAreNew(ps0: seq<Pylon>, ps: seq<Pylon>, spots: seq<PylonSpot>, here: int)
    requires PylonsPlaced(ps0, ps, spots, here)
    ensures NewOn(ps0, ps, PylonLife, here, Flags(false, false, false))
  {
    forall i | |ps0| <= i < |ps|
      ensures PylonLife(ps[i]).floorIndex == here && PylonLife(ps[i]).State() == Flags(false, false, false)
    {
      assert PlacedPylon(ps[|ps0| + (i - |ps0|)], spots[i - |ps0|], here);
    }
  }

  /**
   * When only the enemy, interactable and pylon lists grow, by what a spawn
   * places on floor `here`, every old entity is still listed and every
   * listed entity is old or a newcomer on floor `here` that is not spawned.
   */
  lemma ActorLivesGrow(p: Player, ds: seq<Drone>, es0: seq<Enemy>, es: seq<Enemy>, dr: seq<Drop>, bs: seq<Bullet>,
                       ins0: seq<Interactable>, ins: seq<Interactable>, ps0: seq<Pylon>, ps: seq<Pylon>,
                       plan: SpawnPlan, here: int)
    requires EnemiesPlaced(es0, es, plan, here)
    requires InteractablesPlaced(ins0, ins, plan, here)
    requires PylonsPlaced(ps0, ps, plan.pylons, here)
    ensures forall l :: l in ActorLivesOf(p, ds, es0, dr, bs, ins0, ps0) ==> l in ActorLivesOf(p, ds, es, dr, bs, ins, ps)
    ensures forall l :: l in ActorLivesOf(p, ds, es, dr, bs, ins, ps) ==>
      l in ActorLivesOf(p, ds, es0, dr, bs, ins0, ps0) || (l.floorIndex == here && l.State() == Flags(false, false, false))
  {
    EnemiesPlacedAreNew(es0, es, plan, here);
    InteractablesPlacedAreNew(ins0, ins, plan, here);
    PylonsPlacedAreNew(ps0, ps, plan.pylons, here);
    NewLives(es0, es, EnemyLife, here, Flags(false, false, false));
    NewLives(ins0, ins, InteractableLife, here, Flags(false, false, false));
    NewLives(ps0, ps, PylonLife, here, Flags(false, false, false));
  }
}
