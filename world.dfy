/**
 * What the entities do to the game state's lists and score: a destroyed
 * entity leaves its list, a dying enemy leaves loot and counts for the
 * score, the boss's death ends the section, pickups and the elevator ride
 * change the player. Each is written against the game state the entity
 * reaches through `getGameState()`.
 */
module World {
  import opened Helpers
  import opened Base
  import opened Schematics
  import opened Elements
  import opened Bullets
  import opened Drones
  import opened Enemies
  import opened Drops
  import opened Interactables
  import opened Player
  import opened Floors
  import opened GameStates
  import opened Pylon

  /** The lifecycles of some drones, as a set: what destroying them may change. */
  function DroneLives(ds: seq<Drone>): set<Lifecycle>
  {
    set d | d in ds :: d.unit.life
  }

  /** No two drones of the list share a lifecycle (so none is listed twice). */
  predicate UniqueLives(ds: seq<Drone>)
  {
    forall i, j :: 0 <= i < j < |ds| ==> ds[i].unit.life != ds[j].unit.life
  }

  /** The elements at the odd positions of `s`, in order. */
  function Odds<T>(s: seq<T>): (r: seq<T>)
    ensures |r| == |s| / 2
    ensures forall i :: 0 <= i < |r| ==> r[i] == s[2 * i + 1]
  {
    if |s| < 2 then [] else [s[1]] + Odds(s[2..])
  }

  /** Removing position `i` of a list whose lifecycles are unique: it is `s[i]` that goes, and uniqueness stays. */
  lemma SpliceOutAt(s: seq<Drone>, i: nat)
    requires UniqueLives(s) && i < |s|
    ensures SpliceOut(s, s[i]) == s[..i] + s[i + 1..]
    ensures UniqueLives(s[..i] + s[i + 1..])
  {
    assert IndexOf(s, s[i]) == i;
  }

  /**
   * `list` is what is left of `s` after `i` steps of destroying the drone
   * that the iterator points at: the first `i` survivors are the drones that
   * were at odd positions, the rest is the untouched tail of `s`.
   */
  predicate SkippedTo<T(==)>(list: seq<T>, s: seq<T>, i: nat)
  {
    2 * i <= |s| + 1 && |list| == |s| - i &&
    (forall k :: 0 <= k < i && k < |list| ==> list[k] == s[2 * k + 1]) &&
    (forall k :: i <= k < |list| ==> list[k] == s[k + i])
  }

  /** One more step of the skipping iteration: removing position `i` keeps the shape, one step further. */
  lemma SkipStep<T>(list: seq<T>, s: seq<T>, i: nat)
    requires SkippedTo(list, s, i) && i < |list|
    ensures SkippedTo(list[..i] + list[i + 1..], s, i + 1)
  {
    var next := list[..i] + list[i + 1..];
    forall k | 0 <= k < i + 1 && k < |next|
      ensures next[k] == s[2 * k + 1]
    {
      if k < i {
        assert next[k] == list[k];
      } else {
        assert next[k] == list[k + 1];
      }
    }
    forall k | i + 1 <= k < |next|
      ensures next[k] == s[k + i + 1]
    {
      assert next[k] == list[k + 1];
    }
  }

  /** When the iteration stops, exactly the odd positions are left. */
  lemma SkippedToEnd<T>(list: seq<T>, s: seq<T>, i: nat)
    requires SkippedTo(list, s, i) && i >= |list|
    ensures list == Odds(s)
  {
  }

  /**
   * The elevator ride's `for (const d of drones) d.destroy()`, AS WRITTEN:
   * each `destroy` splices the drone out of the very array being iterated,
   * so the next drone moves into the freed slot and the iterator steps over
   * it. `list` plays the live array; what is left of it is returned. Only
   * the drones at even positions are destroyed; those at odd positions stay
   * in the list and keep their flags.
   */
  method DestroySkipping(ds: seq<Drone>) returns (list: seq<Drone>)
    requires UniqueLives(ds)
    modifies DroneLives(ds)`active, DroneLives(ds)`spawned
    ensures list == Odds(ds)
    ensures forall d :: d in ds ==>
      d.unit.life.State() == if d in list then old(d.unit.life.State()) else DespawnFlags(old(d.unit.life.State()))
  {
    DistinctLives(ds);
    list := ds;
    var i := 0;
    while i < |list|
      invariant SkippedTo(list, ds, i)
      invariant UniqueLives(list)
      invariant forall d :: d in list ==> d in ds
      invariant forall d :: d in ds ==>
        d.unit.life.State() == if d in list then old(d.unit.life.State()) else DespawnFlags(old(d.unit.life.State()))
      decreases |list| - i
    {
      SkipStep(list, ds, i);
      list := DestroyAt(list, i);
      i := i + 1;
    }
    SkippedToEnd(list, ds, i);
  }

  /** Drones with unique lifecycles: two different drones of the list never share one. */
  lemma DistinctLives(ds: seq<Drone>)
    requires UniqueLives(ds)
    ensures forall d, e :: d in ds && e in ds && d != e ==> d.unit.life != e.unit.life
  {
    forall d, e | d in ds && e in ds && d != e
      ensures d.unit.life != e.unit.life
    {
      var a :| 0 <= a < |ds| && ds[a] == d;
      var b :| 0 <= b < |ds| && ds[b] == e;
      assert a != b;
      if a > b {
        assert ds[b].unit.life != ds[a].unit.life;
      }
    }
  }

  /** One `destroy` of the ride's loop: the drone at position `i` despawns and is spliced out of the list. */
  method DestroyAt(list: seq<Drone>, i: nat) returns (next: seq<Drone>)
    requires UniqueLives(list) && i < |list|
    modifies list[i].unit.life`active, list[i].unit.life`spawned
    ensures next == list[..i] + list[i + 1..] && UniqueLives(next)
    ensures forall d :: d in next <==> d in list && d != list[i]
    ensures list[i].unit.life.State() == DespawnFlags(old(list[i].unit.life.State()))
  {
    SpliceOutAt(list, i);
    RemovedMembers(list, i);
    list[i].unit.life.Destroy();
    next := SpliceOut(list, list[i]);
  }

  /** Removing position `i` of a list whose lifecycles are unique removes exactly the drone that was there. */
  lemma RemovedMembers(list: seq<Drone>, i: nat)
    requires UniqueLives(list) && i < |list|
    ensures forall d :: d in list[..i] + list[i + 1..] <==> d in list && d != list[i]
  {
    var next := list[..i] + list[i + 1..];
    forall d | d in list && d != list[i]
      ensures d in next
    {
      var j :| 0 <= j < |list| && list[j] == d;
      if j < i {
        assert next[j] == d;
      } else {
        assert next[j - 1] == d;
      }
    }
    forall d | d in next
      ensures d in list && d != list[i]
    {
      var j :| 0 <= j < |next| && next[j] == d;
      if j < i {
        assert list[j] == d;
      } else {
        assert list[j + 1] == d;
      }
    }
  }

  /** The ride's drone loop as written, applied to the game state's list: a drone despawns exactly when it leaves the list. */
  method DestroyDronesAsWritten(gs: GameState)
    requires UniqueLives(gs.drones)
    modifies gs`drones, DroneLives(gs.drones)`active, DroneLives(gs.drones)`spawned
    ensures gs.drones == Odds(old(gs.drones))
    ensures forall d :: d in old(gs.drones) ==>
      d.unit.life.State() == if d in gs.drones then old(d.unit.life.State()) else DespawnFlags(old(d.unit.life.State()))
  {
    gs.drones := DestroySkipping(gs.drones);
  }

  /**
   * The ride as evidently intended, `for (const d of [...drones]) d.destroy()`:
   * iterating over a copy, every drone is destroyed and the list ends empty.
   */
  method DestroyDrones(gs: GameState)
    modifies gs`drones, DroneLives(gs.drones)`active, DroneLives(gs.drones)`spawned
    ensures gs.drones == []
    ensures forall d :: d in old(gs.drones) ==> d.unit.life.State() == DespawnFlags(old(d.unit.life.State()))
  {
    var ds := gs.drones;
    ghost var done: set<Lifecycle> := {};
    for i := 0 to |ds|
      invariant |gs.drones| == |ds| - i
      invariant LivesIn(ds[..i], done)
      invariant forall d :: d in ds ==>
        d.unit.life.State() == if d.unit.life in done then DespawnFlags(old(d.unit.life.State())) else old(d.unit.life.State())
    {
      LivesInStep(ds, i, done);
      DestroyListed(gs, ds[i]);
      done := done + {ds[i].unit.life};
    }
    assert ds[..|ds|] == ds;
  }

  /** Every drone of `ds` has its lifecycle in `lives`. */
  predicate LivesIn(ds: seq<Drone>, lives: set<Lifecycle>)
  {
    forall d :: d in ds ==> d.unit.life in lives
  }

  /** Adding the next drone's lifecycle covers one more drone of the list. */
  lemma LivesInStep(ds: seq<Drone>, i: nat, lives: set<Lifecycle>)
    requires i < |ds| && LivesIn(ds[..i], lives)
    ensures LivesIn(ds[..i + 1], lives + {ds[i].unit.life})
  {
    assert ds[..i + 1] == ds[..i] + [ds[i]];
  }

  /** `Drone.destroy` on the game state's list: the drone despawns and `splice(indexOf(d), 1)` runs. */
  method DestroyListed(gs: GameState, d: Drone)
    modifies gs`drones, d.unit.life`active, d.unit.life`spawned
    ensures gs.drones == SpliceOut(old(gs.drones), d)
    ensures |old(gs.drones)| > 0 ==> |gs.drones| == |old(gs.drones)| - 1
    ensures d.unit.life.State() == DespawnFlags(old(d.unit.life.State()))
  {
    d.unit.life.Destroy();
    gs.drones := SpliceOut(gs.drones, d);
  }

  /** With two drones or more, the ride as written leaves the second one behind, still listed and untouched. */
  lemma AsWrittenSparesTheSecondDrone<T>(s: seq<T>)
    requires |s| >= 2
    ensures s[1] in Odds(s) && |Odds(s)| >= 1
  {
    assert Odds(s)[0] == s[1];
  }

  /** No two drones of the list are built from the same schematic. */
  predicate OnePerSchematic(ds: seq<Drone>)
  {
    forall i, j :: 0 <= i < j < |ds| ==> ds[i].schematic != ds[j].schematic
  }

  /** `drones.some(d => d.schematic === s)`. */
  predicate HasDroneOf(ds: seq<Drone>, s: DroneSchematic)
  {
    exists d :: d in ds && d.schematic == s
  }

  /** Removing a drone by `splice(indexOf(d), 1)`, present or not, keeps the drones' schematics distinct. */
  lemma SpliceOutKeepsOnePerSchematic(ds: seq<Drone>, d: Drone)
    requires OnePerSchematic(ds)
    ensures OnePerSchematic(SpliceOut(ds, d))
  {
    var i := IndexOf(ds, d);
    if i >= 0 {
      assert SpliceOut(ds, d) == ds[..i] + ds[i + 1..];
      RemoveAtKeepsOnePerSchematic(ds, i);
    } else if |ds| > 0 {
      RemoveAtKeepsOnePerSchematic(ds, |ds| - 1);
      assert SpliceOut(ds, d) == ds[..|ds| - 1] + ds[|ds|..];
    }
  }

  /** Removing the drone at position `i` keeps the drones' schematics distinct. */
  lemma RemoveAtKeepsOnePerSchematic(ds: seq<Drone>, i: nat)
    requires OnePerSchematic(ds) && i < |ds|
    ensures OnePerSchematic(ds[..i] + ds[i + 1..])
  {
    var r := ds[..i] + ds[i + 1..];
    forall a, b | 0 <= a < b < |r|
      ensures r[a].schematic != r[b].schematic
    {
      var a' := if a < i then a else a + 1;
      var b' := if b < i then b else b + 1;
      assert r[a] == ds[a'] && r[b] == ds[b'];
    }
  }

  /** Appending a drone of a schematic no listed drone uses keeps the schematics distinct. */
  lemma PushKeepsOnePerSchematic(ds: seq<Drone>, d: Drone)
    requires OnePerSchematic(ds) && !HasDroneOf(ds, d.schematic)
    ensures OnePerSchematic(ds + [d])
  {
    var r := ds + [d];
    forall a, b | 0 <= a < b < |r|
      ensures r[a].schematic != r[b].schematic
    {
      if b == |ds| {
        assert r[a] in ds;
      } else {
        assert r[a] == ds[a] && r[b] == ds[b];
      }
    }
  }

  /** `pylons.some(p => p.floorIndex === floorIndex && p.boss && p.isPowered)`. */
  predicate PoweredBossPylonOn(ps: seq<Pylon>, floorIndex: int)
    reads set p | p in ps, set p | p in ps :: p.life
  {
    exists p :: p in ps && p.life.floorIndex == floorIndex && p.boss && p.IsPowered()
  }

  /** `this.floor` of an entity on floor `i`. */
  function FloorAt(gs: GameState, i: int): Floor
    requires 0 <= i < |gs.floors|
    reads gs
  {
    gs.floors[i]
  }

  /** `BulletBase.destroy`: the bullet despawns and leaves the bullet list. */
  method DestroyBullet(gs: GameState, b: Bullet)
    modifies gs`bullets, b.life`active, b.life`spawned
    ensures gs.bullets == SpliceOut(old(gs.bullets), b)
    ensures b.life.State() == DespawnFlags(old(b.life.State()))
  {
    b.life.Destroy();
    gs.bullets := SpliceOut(gs.bullets, b);
  }

  /**
   * `BulletBase.update` against the game state: an active bullet moves and
   * ages, and one whose lifetime has run out leaves the bullet list.
   */
  method UpdateBullet(gs: GameState, b: Bullet, dt: real, aim: Point) returns (velocity: Option<Point>, expired: bool)
    modifies gs`bullets, b`lifetime, b`trackingTime, b`dx, b`dy, b.life`active, b.life`spawned
    ensures expired <==> old(b.life.active) && b.lifetime <= 0.0
    ensures old(b.life.active) ==> b.lifetime == old(b.lifetime) - dt && velocity == Some(Point(old(b.dx) * b.speed, old(b.dy) * b.speed))
    ensures !old(b.life.active) ==> velocity == None && b.lifetime == old(b.lifetime)
    ensures b.life.State() == if expired then DespawnFlags(old(b.life.State())) else old(b.life.State())
    ensures gs.bullets == if expired then SpliceOut(old(gs.bullets), b) else old(gs.bullets)
  {
    velocity, expired := b.Update(dt, aim);
    if expired {
      gs.bullets := SpliceOut(gs.bullets, b);
    }
  }

  /**
   * The bullet's overlap handler: it hits `target` (the player, a drone or
   * an enemy; `targetIsAlly` for the first two) and is destroyed exactly when
   * the hit counts, that is when bullet and target are on opposite sides.
   */
  method BulletCollision(gs: GameState, b: Bullet, target: Unit, targetIsAlly: bool, shielded: bool)
    returns (consumed: bool)
    modifies target`power, target`hurtTime, gs`bullets, b.life`active, b.life`spawned
    ensures consumed == Opposes(b.friendly, targetIsAlly)
    ensures consumed ==>
      var taken := HurtAmount(old(target.power), b.damage, old(target.hurtTime) > 0.0 || shielded, target.dead);
      target.power == old(target.power) - taken
    ensures !consumed ==> target.power == old(target.power) && target.hurtTime == old(target.hurtTime)
    ensures gs.bullets == if consumed then SpliceOut(old(gs.bullets), b) else old(gs.bullets)
    ensures b.life.State() == if consumed then DespawnFlags(old(b.life.State())) else old(b.life.State())
  {
    consumed := b.Hit(target, targetIsAlly, shielded);
    if consumed {
      DestroyBullet(gs, b);
    }
  }

  /** The bullets a tick emits, pushed onto the bullet list in order, each a new entity. */
  method FireShots(gs: GameState, shots: seq<Shot>) returns (fired: seq<Bullet>)
    modifies gs`bullets
    ensures gs.bullets == old(gs.bullets) + fired && |fired| == |shots|
    ensures forall i :: 0 <= i < |shots| ==>
      fresh(fired[i]) && fresh(fired[i].life) && fired[i].friendly == shots[i].friendly &&
      fired[i].damage == shots[i].damage && fired[i].life.floorIndex == shots[i].floorIndex &&
      fired[i].life.State() == Flags(false, false, false)
  {
    fired := [];
    for i := 0 to |shots|
      invariant gs.bullets == old(gs.bullets) + fired && |fired| == i
      invariant forall k :: 0 <= k < i ==>
        fresh(fired[k]) && fresh(fired[k].life) && fired[k].friendly == shots[k].friendly &&
        fired[k].damage == shots[k].damage && fired[k].life.floorIndex == shots[k].floorIndex &&
        fired[k].life.State() == Flags(false, false, false)
    {
      var b := new Bullet(shots[i]);
      fired := fired + [b];
      gs.bullets := gs.bullets + [b];
    }
  }

  /**
   * The drop's overlap handler with the player: `pickup`, and only when it
   * is taken the drop is destroyed and leaves the drop list. A key sets the
   * latch of the drop's floor, so a second key there is refused.
   */
  method TouchDrop(gs: GameState, d: Drop) returns (taken: bool)
    requires gs.player.Valid() && 0 <= d.life.floorIndex < |gs.floors|
    modifies gs.player.unit`power, gs.player`schematics, d.life`active, d.life`spawned, gs`drops, gs`elements
    modifies FloorAt(gs, d.life.floorIndex)`hasFoundElevatorKey
    ensures gs.player.Valid()
    ensures var f := gs.floors[d.life.floorIndex];
      f.hasFoundElevatorKey == (old(f.hasFoundElevatorKey) || (taken && d.kind == KeyDrop)) &&
      (d.kind == KeyDrop ==> taken == !old(f.hasFoundElevatorKey))
    ensures d.kind.PowerDrop? ==> taken == (old(gs.player.unit.power) < gs.player.unit.maxPower)
    ensures d.kind.SchematicDrop? ==>
      taken == (d.kind.schematic !in old(gs.player.schematics)) &&
      gs.player.schematics == old(gs.player.schematics) + (if taken then [d.kind.schematic] else [])
    ensures !d.kind.SchematicDrop? ==> gs.player.schematics == old(gs.player.schematics)
    ensures d.life.State() == if taken then DespawnFlags(old(d.life.State())) else old(d.life.State())
    ensures gs.drops == if taken then SpliceOut(old(gs.drops), d) else old(gs.drops)
    ensures |gs.elements| >= |old(gs.elements)| && gs.elements[..|old(gs.elements)|] == old(gs.elements)
  {
    var f := gs.floors[d.life.floorIndex];
    var foundKey, alerts;
    ghost var hadKey := f.hasFoundElevatorKey;
    taken, foundKey, alerts := d.Pickup(gs.player, f.hasFoundElevatorKey);
    assert gs.floors[d.life.floorIndex] == f && f.hasFoundElevatorKey == hadKey;
    if foundKey {
      f.hasFoundElevatorKey := true;
    }
    if taken {
      gs.drops := SpliceOut(gs.drops, d);
    }
    gs.elements := gs.elements + alerts;
    assert gs.elements[..|old(gs.elements)|] == old(gs.elements);
  }

  /**
   * Interacting with a power core: absorbed below maximum power, and then
   * it leaves the interactable list; at maximum only the alert is shown.
   */
  method UseCore(gs: GameState, c: Interactable) returns (absorbed: bool)
    requires c.kind == PowerCore
    modifies gs.player.unit`power, c.life`active, c.life`spawned, gs`interactables, gs`elements
    ensures absorbed == (old(gs.player.unit.power) < gs.player.unit.maxPower)
    ensures gs.player.unit.power ==
      old(gs.player.unit.power) + (if absorbed then MinInt(gs.player.unit.maxPower - old(gs.player.unit.power), CORE_POWER) else 0)
    ensures c.life.State() == if absorbed then DespawnFlags(old(c.life.State())) else old(c.life.State())
    ensures gs.interactables == if absorbed then SpliceOut(old(gs.interactables), c) else old(gs.interactables)
    ensures gs.elements == old(gs.elements) + if absorbed then [] else [Alert("Cannot pick up power core (already at max power)")]
  {
    var alerts;
    absorbed, alerts := c.AbsorbCore(gs.player.unit);
    if absorbed {
      gs.interactables := SpliceOut(gs.interactables, c);
    }
    gs.elements := gs.elements + alerts;
  }

  /**
   * The action key on a drone: the player takes back the drone's power,
   * never past its maximum, and the drone is destroyed and leaves the list.
   */
  method PickUpDroneTarget(gs: GameState, d: Drone)
    requires d.unit != gs.player.unit
    modifies gs.player.unit`power, d.unit.life`active, d.unit.life`spawned, gs`drones
    ensures gs.player.unit.power == old(gs.player.unit.power) + MinInt(gs.player.unit.maxPower - old(gs.player.unit.power), d.unit.power)
    ensures gs.player.unit.power <= gs.player.unit.maxPower
    ensures d.unit.life.State() == DespawnFlags(old(d.unit.life.State()))
    ensures gs.drones == SpliceOut(old(gs.drones), d)
    ensures OnePerSchematic(old(gs.drones)) ==> OnePerSchematic(gs.drones)
  {
    gs.player.PickUpDrone(d);
    d.unit.life.Destroy();
    if OnePerSchematic(gs.drones) {
      SpliceOutKeepsOnePerSchematic(gs.drones, d);
    }
    gs.drones := SpliceOut(gs.drones, d);
  }

  /**
   * The action key on the selected schematic: refused while a drone of it
   * is listed, free while a powered boss pylon stands on the player's floor,
   * otherwise paid for when the player has more power than it costs. A new
   * drone goes to the end of the drone list, so there is never more than one
   * drone per schematic.
   */
  method DeploySchematic(gs: GameState, s: DroneSchematic) returns (drone: Option<Drone>)
    modifies gs.player.unit`power, gs`drones, gs`elements
    ensures var r := DeployDecision(s, HasDroneOf(old(gs.drones), s), PoweredBossPylonOn(gs.pylons, gs.Here()), old(gs.player.unit.power));
      (r.Deployed? <==> drone.Some?) &&
      (r.Deployed? ==>
        gs.player.unit.power == old(gs.player.unit.power) - r.cost &&
        gs.drones == old(gs.drones) + [drone.value] && gs.elements == old(gs.elements)) &&
      (!r.Deployed? ==>
        gs.player.unit.power == old(gs.player.unit.power) &&
        gs.drones == old(gs.drones) && gs.elements == old(gs.elements) + [r.alert])
    ensures drone.Some? ==>
      fresh(drone.value) && fresh(drone.value.unit.life) && drone.value.schematic == s &&
      drone.value.unit.life.floorIndex == gs.Here() && drone.value.unit.power == s.cost
    ensures OnePerSchematic(old(gs.drones)) ==> OnePerSchematic(gs.drones)
  {
    var alreadyDeployed := HasDroneOf(gs.drones, s);
    var noCost := PoweredBossPylonOn(gs.pylons, gs.Here());
    var alerts;
    drone, alerts := gs.player.Deploy(s, alreadyDeployed, noCost);
    if drone.Some? {
      if OnePerSchematic(gs.drones) {
        PushKeepsOnePerSchematic(gs.drones, drone.value);
      }
      gs.drones := gs.drones + [drone.value];
    }
    gs.elements := gs.elements + alerts;
  }

  /**
   * The fade callback of the elevator: every drone is destroyed, by the
   * corrected loop `DestroyDrones` rather than the written one, and the
   * player moves `delta` floors, to the origin.
   */
  method Ride(gs: GameState, delta: int)
    modifies gs`drones, DroneLives(gs.drones)`active, DroneLives(gs.drones)`spawned
    modifies gs.player.unit.life`floorIndex, gs.player.unit`x, gs.player.unit`y
    ensures gs.drones == []
    ensures forall d :: d in old(gs.drones) ==> d.unit.life.State() == DespawnFlags(old(d.unit.life.State()))
    ensures gs.Here() == old(gs.Here()) + delta && gs.player.unit.x == 0.0 && gs.player.unit.y == 0.0
  {
    DestroyDrones(gs);
    label destroyed:
    gs.player.unit.life.floorIndex := gs.player.unit.life.floorIndex + delta;
    gs.player.unit.x := 0.0;
    gs.player.unit.y := 0.0;
    assert forall d :: d in old(gs.drones) ==> d.unit.life.State() == old@destroyed(d.unit.life.State());
  }

  /**
   * `InteractableElevatorButton.interact`, with the camera-fade callback run
   * at once: a valid, unlocked button destroys every drone, moves the player
   * by the button's delta and puts it at the origin; otherwise it only shows
   * the alert saying why. The drone loop is the corrected one, see
   * `DestroyDronesAsWritten`.
   */
  method PressButton(gs: GameState, b: Interactable) returns (result: ButtonResult)
    requires b.kind.ElevatorButton? && 0 <= b.life.floorIndex < |gs.floors|
    modifies gs`drones, DroneLives(gs.drones)`active, DroneLives(gs.drones)`spawned
    modifies gs.player.unit.life`floorIndex, gs.player.unit`x, gs.player.unit`y, gs`elements
    ensures result == old(Press(b.kind.main, b.kind.delta, gs.floors[b.life.floorIndex].FloorNumberOf(),
                                gs.floors[b.life.floorIndex].hasUnlockedElevator))
    ensures result.Travel? ==>
      gs.drones == [] &&
      (forall d :: d in old(gs.drones) ==> d.unit.life.State() == DespawnFlags(old(d.unit.life.State()))) &&
      gs.Here() == old(gs.Here()) + b.kind.delta && gs.player.unit.x == 0.0 && gs.player.unit.y == 0.0 &&
      gs.elements == old(gs.elements)
    ensures result.Refused? ==>
      gs.drones == old(gs.drones) &&
      (forall d :: d in old(gs.drones) ==> d.unit.life.State() == old(d.unit.life.State())) &&
      gs.Here() == old(gs.Here()) && gs.player.unit.x == old(gs.player.unit.x) && gs.player.unit.y == old(gs.player.unit.y) &&
      gs.elements == old(gs.elements) + [result.alert]
  {
    var f := gs.floors[b.life.floorIndex];
    result := Press(b.kind.main, b.kind.delta, f.FloorNumberOf(), f.hasUnlockedElevator);
    if result.Travel? {
      Ride(gs, result.delta);
    } else {
      gs.elements := gs.elements + [result.alert];
    }
  }

  /** `drops.some(d => d.floorIndex === floorIndex && d instanceof DropKey)`. */
  predicate KeyDropOn(ds: seq<Drop>, floorIndex: int)
    reads set d | d in ds :: d.life
  {
    exists d :: d in ds && d.life.floorIndex == floorIndex && d.kind == KeyDrop
  }

  /**
   * `canDropKey` of an enemy dying on floor `floorIndex`, whose floor is `f`:
   * no key found there, the elevator still locked, not a boss floor, and no
   * key lying on that floor already.
   */
  predicate CanDropKey(f: Floor, ds: seq<Drop>, floorIndex: int)
    reads f, f.life, set d | d in ds :: d.life
  {
    !f.hasFoundElevatorKey && !f.hasUnlockedElevator && !f.IsBossFloor() && !KeyDropOn(ds, floorIndex)
  }

  /** The drop class `EnemyBase.die` builds for some loot. */
  function LootDrop(loot: Loot): DropKind
    requires loot != NoLoot
  {
    match loot
    case KeyLoot => KeyDrop
    case SchematicLoot(s) => SchematicDrop(s)
    case PowerLoot(amount) => PowerDrop(amount)
  }

  /** `EnemyBase.die`'s loot: drawn for an enemy that died at (`x`, `y`) on floor `floorIndex`, and pushed onto the drop list. */
  method DropLoot(gs: GameState, rng: Rng, floorIndex: int, x: real, y: real) returns (dropped: Option<Drop>)
    requires 0 <= floorIndex < |gs.floors|
    modifies rng`next, gs`drops
    ensures var canDropKey := old(CanDropKey(gs.floors[floorIndex], gs.drops, floorIndex));
      var (loot, draws) := LootFor(canDropKey, gs.player.schematics, rng.stream, old(rng.next));
      rng.next == old(rng.next) + draws &&
      (dropped.Some? <==> loot != NoLoot) &&
      (dropped.Some? ==> dropped.value.kind == LootDrop(loot))
    ensures dropped.Some? && dropped.value.kind == KeyDrop ==> old(CanDropKey(gs.floors[floorIndex], gs.drops, floorIndex))
    ensures dropped.Some? && dropped.value.kind.SchematicDrop? ==> dropped.value.kind.schematic !in gs.player.schematics
    ensures dropped.Some? ==>
      fresh(dropped.value) && fresh(dropped.value.life) &&
      dropped.value.life.floorIndex == floorIndex && dropped.value.life.State() == Flags(false, false, false) &&
      dropped.value.x == x && dropped.value.y == y
    ensures gs.drops == old(gs.drops) + if dropped.Some? then [dropped.value] else []
  {
    var canDropKey := CanDropKey(gs.floors[floorIndex], gs.drops, floorIndex);
    ghost var k := rng.next;
    var loot := DrawLoot(rng, canDropKey, gs.player.schematics);
    LootIsNeverADuplicate(canDropKey, gs.player.schematics, rng.stream, k);
    dropped := None;
    if loot != NoLoot {
      var d := new Drop(floorIndex, x, y, LootDrop(loot));
      gs.drops := gs.drops + [d];
      dropped := Some(d);
    }
  }

  /**
   * `EnemyBase.die` of a catalogue enemy, after `UnitBase.die`: the kill is
   * counted, the loot is drawn and dropped where the enemy stood, an
   * explosion is shown, and the enemy is destroyed and leaves the enemy list.
   * A key is dropped only where `canDropKey` allowed it.
   */
  method EnemyDies(gs: GameState, e: Enemy, rng: Rng) returns (dropped: Option<Drop>)
    requires !e.IsBoss() && 0 <= e.unit.life.floorIndex < |gs.floors|
    modifies gs.score`enemiesKilled, rng`next, gs`drops, gs`elements, gs`enemies
    modifies e.unit.life`active, e.unit.life`spawned
    ensures gs.score.enemiesKilled == old(gs.score.enemiesKilled) + 1
    ensures var canDropKey := old(CanDropKey(gs.floors[e.unit.life.floorIndex], gs.drops, e.unit.life.floorIndex));
      var (loot, draws) := LootFor(canDropKey, gs.player.schematics, rng.stream, old(rng.next));
      rng.next == old(rng.next) + draws &&
      (dropped.Some? <==> loot != NoLoot) &&
      (dropped.Some? ==> dropped.value.kind == LootDrop(loot))
    ensures dropped.Some? && dropped.value.kind == KeyDrop ==>
      old(CanDropKey(gs.floors[e.unit.life.floorIndex], gs.drops, e.unit.life.floorIndex))
    ensures dropped.Some? && dropped.value.kind.SchematicDrop? ==>
      dropped.value.kind.schematic !in gs.player.schematics
    ensures dropped.Some? ==>
      fresh(dropped.value) && fresh(dropped.value.life) &&
      dropped.value.life.floorIndex == e.unit.life.floorIndex && dropped.value.life.State() == Flags(false, false, false) &&
      dropped.value.x == e.unit.x && dropped.value.y == e.unit.y
    ensures gs.drops == old(gs.drops) + if dropped.Some? then [dropped.value] else []
    ensures gs.elements == old(gs.elements) + [Explosion(e.unit.x, e.unit.y)]
    ensures e.unit.life.State() == DespawnFlags(old(e.unit.life.State()))
    ensures gs.enemies == SpliceOut(old(gs.enemies), e)
  {
    gs.score.enemiesKilled := gs.score.enemiesKilled + 1;
    dropped := DropLoot(gs, rng, e.unit.life.floorIndex, e.unit.x, e.unit.y);
    gs.elements := gs.elements + [Explosion(e.unit.x, e.unit.y)];
    e.unit.life.Destroy();
    gs.enemies := SpliceOut(gs.enemies, e);
  }

  /** The units of some enemies: what the boss's death may drain. */
  function EnemyUnits(es: seq<Enemy>): set<Unit>
  {
    set e | e in es :: e.unit
  }

  /** `for (const e of enemies.filter(e => e.floorIndex === floorIndex)) e.power = 0`. */
  method DrainFloor(es: seq<Enemy>, floorIndex: int)
    modifies EnemyUnits(es)`power
    ensures forall e :: e in es ==> e.unit.power == if e.unit.life.floorIndex == floorIndex then 0 else old(e.unit.power)
  {
    for i := 0 to |es|
      invariant forall e :: e in es[..i] && e.unit.life.floorIndex == floorIndex ==> e.unit.power == 0
      invariant forall e :: e in es && e.unit.life.floorIndex != floorIndex ==> e.unit.power == old(e.unit.power)
    {
      assert es[..i + 1] == es[..i] + [es[i]];
      if es[i].unit.life.floorIndex == floorIndex {
        es[i].unit.power := 0;
      }
    }
    assert es[..|es|] == es;
  }

  /** How many bosses must fall to win. */
  const BOSSES_TO_WIN: int := 5

  /**
   * `EnemyBoss.die`, with its delayed steps run at once: the kill is counted
   * (the default loot is skipped), every enemy on the boss's floor is drained
   * to 0 power, the boss count goes up, the boss is destroyed and leaves the
   * enemy list, and the fifth boss wins the game.
   */
  method BossDies(gs: GameState, boss: Enemy)
    requires boss.IsBoss()
    modifies gs.score`enemiesKilled, gs.score`bossesDefeated, gs.score`won, gs`enemies
    modifies EnemyUnits(gs.enemies)`power, boss.unit.life`active, boss.unit.life`spawned
    ensures gs.score.enemiesKilled == old(gs.score.enemiesKilled) + 1
    ensures gs.score.bossesDefeated == old(gs.score.bossesDefeated) + 1
    ensures gs.score.won == (old(gs.score.won) || gs.score.bossesDefeated >= BOSSES_TO_WIN)
    ensures forall e :: e in old(gs.enemies) ==>
      e.unit.power == if e.unit.life.floorIndex == boss.unit.life.floorIndex then 0 else old(e.unit.power)
    ensures boss.unit.life.State() == DespawnFlags(old(boss.unit.life.State()))
    ensures gs.enemies == SpliceOut(old(gs.enemies), boss)
  {
    gs.score.enemiesKilled := gs.score.enemiesKilled + 1;
    DrainFloor(gs.enemies, boss.unit.life.floorIndex);
    gs.score.bossesDefeated := gs.score.bossesDefeated + 1;
    boss.unit.life.Destroy();
    gs.enemies := SpliceOut(gs.enemies, boss);
    if gs.score.bossesDefeated >= BOSSES_TO_WIN {
      gs.score.won := true;
    }
  }

  /** `Player.die`, after `UnitBase.die`: the game is lost. */
  method PlayerDies(gs: GameState)
    modifies gs.score`won
    ensures !gs.score.won
  {
    gs.score.won := false;
  }

  /** `pylons.filter(p => p.floorIndex === floorIndex && p.boss && p.isPowered).length`. */
  function PoweredBossPylons(ps: seq<Pylon>, floorIndex: int): (n: nat)
    reads set p | p in ps, set p | p in ps :: p.life
    ensures n <= |ps|
    ensures n > 0 <==> PoweredBossPylonOn(ps, floorIndex)
  {
    if ps == [] then 0
    else
      assert forall p :: p in ps ==> p == ps[0] || p in ps[1..];
      (if ps[0].life.floorIndex == floorIndex && ps[0].boss && ps[0].IsPowered() then 1 else 0) +
      PoweredBossPylons(ps[1..], floorIndex)
  }

  /** Some enemy of floor `floorIndex` stands on the cell of `t` (its `mapX` and `mapY` are the cell's). */
  predicate Occupied(t: Tile, es: seq<Enemy>, floorIndex: int)
    reads set e | e in es :: e.unit, set e | e in es :: e.unit.life
  {
    exists e :: e in es && e.unit.life.floorIndex == floorIndex && MapX(e.unit.x) == t.tx && MapY(e.unit.y) == t.ty
  }

  /** `tiles.filter(t => !enemies.some(...))`: the cells of `tiles` no enemy of floor `floorIndex` stands on, in order. */
  function Unoccupied(tiles: seq<Tile>, es: seq<Enemy>, floorIndex: int): (r: seq<Tile>)
    reads set e | e in es :: e.unit, set e | e in es :: e.unit.life
    ensures |r| <= |tiles|
  {
    if tiles == [] then []
    else (if Occupied(tiles[0], es, floorIndex) then [] else [tiles[0]]) + Unoccupied(tiles[1..], es, floorIndex)
  }

  /** The filter keeps exactly the tiles of the list that no enemy of floor `floorIndex` stands on. */
  lemma {:induction false} UnoccupiedMembers(tiles: seq<Tile>, es: seq<Enemy>, floorIndex: int, t: Tile)
    ensures t in Unoccupied(tiles, es, floorIndex) <==> t in tiles && !Occupied(t, es, floorIndex)
  {
    if tiles != [] {
      UnoccupiedMembers(tiles[1..], es, floorIndex, t);
      assert tiles == [tiles[0]] + tiles[1..];
    }
  }

  /**
   * The tiles a boss fills its wave from: the free cells of the 3 by 3
   * square around the cell it stands on that no enemy of its floor holds.
   */
  function BossWaveTiles(walls: (int, int) -> int, es: seq<Enemy>, boss: Enemy): seq<Tile>
    reads boss.unit, boss.unit.life, set e | e in es :: e.unit, set e | e in es :: e.unit.life
  {
    var mx, my := MapX(boss.unit.x), MapY(boss.unit.y);
    Unoccupied(EmptyRect(walls, mx - 1, mx + 2, my - 1, my + 2), es, boss.unit.life.floorIndex)
  }

  /**
   * The boss's wave tiles are exactly the free cells next to or under its
   * cell that no enemy of its floor holds, each as its own centre.
   */
  lemma BossWaveTilesAreAroundTheBoss(walls: (int, int) -> int, es: seq<Enemy>, boss: Enemy, t: Tile)
    ensures var mx, my := MapX(boss.unit.x), MapY(boss.unit.y);
      t in BossWaveTiles(walls, es, boss) <==>
        mx - 1 <= t.tx <= mx + 1 && my - 1 <= t.ty <= my + 1 && walls(t.tx, t.ty) == -1 &&
        !Occupied(t, es, boss.unit.life.floorIndex) && t == TileOf(t.tx, t.ty)
  {
    var mx, my := MapX(boss.unit.x), MapY(boss.unit.y);
    EmptyRectMembers(walls, mx - 1, mx + 2, my - 1, my + 2, t);
    UnoccupiedMembers(EmptyRect(walls, mx - 1, mx + 2, my - 1, my + 2), es, boss.unit.life.floorIndex, t);
  }

  /** The tiles of a boss's wave, found on its floor: `getEmptyTiles` around the boss, then the filter. */
  method WaveTiles(gs: GameState, boss: Enemy, walls: (int, int) -> int) returns (tiles: seq<Tile>)
    requires 0 <= boss.unit.life.floorIndex < |gs.floors|
    ensures tiles == BossWaveTiles(walls, gs.enemies, boss)
  {
    var fi, mx, my := boss.unit.life.floorIndex, MapX(boss.unit.x), MapY(boss.unit.y);
    var around := gs.floors[fi].GetEmptyTiles(walls, mx - 1, my - 1, 3, 3);
    assert around == EmptyRect(walls, mx - 1, mx + 2, my - 1, my + 2);
    tiles := Unoccupied(around, gs.enemies, fi);
  }

  /**
   * `EnemyBoss.tick` on the game state's data: the boss's floor says whether
   * its room is open and the pylon list how many boss pylons there are
   * powered; its wave is filled from the free cells around it that no enemy
   * of its floor holds, found on the floor's wall layer `walls`. Every enemy
   * of a wave is a catalogue enemy on one of those cells; the wave's
   * placements are what the caller hands to `GameState.AddEnemies`.
   */
  method BossTickOnFloor(gs: GameState, rng: Rng, boss: Enemy, walls: (int, int) -> int) returns (moveTo: Point, action: Option<BossAction>)
    requires boss.IsBoss() && 0 <= boss.unit.life.floorIndex < |gs.floors|
    modifies boss`subtick, rng`next
    ensures moveTo == boss.unit.SnappedPosition()
    ensures !boss.unit.life.active || !old(gs.floors[boss.unit.life.floorIndex].hasOpenedBossRoom) || boss.unit.power == 0 ==>
      action == None && boss.subtick == old(boss.subtick) && rng.next == old(rng.next)
    ensures boss.unit.life.active && old(gs.floors[boss.unit.life.floorIndex].hasOpenedBossRoom) && boss.unit.power != 0 ==>
      action.Some? && boss.subtick == (if old(boss.subtick) == BOSS_WAVE_SUBTICK then 0 else old(boss.subtick) + 1)
    ensures action.Some? && old(boss.subtick) % 4 == 0 ==>
      action.value.velocity ==
        Some(Point((RandInt(1, -1, rng.stream(old(rng.next))) * 64) as real, (RandInt(1, -1, rng.stream(old(rng.next) + 1)) * 64) as real))
    ensures action.Some? && old(boss.subtick) % 4 != 0 ==> action.value.velocity == Some(Point(0.0, 0.0))
    ensures action.Some? && old(boss.subtick) != BOSS_WAVE_SUBTICK ==>
      action.value.wave == [] && rng.next == (if old(boss.subtick) % 4 == 0 then old(rng.next) + 2 else old(rng.next))
    ensures action.Some? && old(boss.subtick) == BOSS_WAVE_SUBTICK ==>
      action.value.wave ==
        old(BossWaveFill(BossWaveTiles(walls, gs.enemies, boss), PoweredBossPylons(gs.pylons, boss.unit.life.floorIndex),
                         boss.unit.life.floorIndex, rng.stream, rng.next + 2)).placements &&
      rng.next == old(BossWaveFill(BossWaveTiles(walls, gs.enemies, boss), PoweredBossPylons(gs.pylons, boss.unit.life.floorIndex),
                                   boss.unit.life.floorIndex, rng.stream, rng.next + 2)).next
    ensures action.Some? ==> forall p :: p in action.value.wave ==>
      p.schematic in ENEMY_SCHEMATICS && exists t :: t in old(BossWaveTiles(walls, gs.enemies, boss)) && t.x == p.x && t.y == p.y
  {
    ghost var expected := BossWaveFill(BossWaveTiles(walls, gs.enemies, boss), PoweredBossPylons(gs.pylons, boss.unit.life.floorIndex),
                                       boss.unit.life.floorIndex, rng.stream, rng.next + 2);
    var fi := boss.unit.life.floorIndex;
    var n := PoweredBossPylons(gs.pylons, fi);
    var tiles := WaveTiles(gs, boss, walls);
    assert expected == BossWaveFill(tiles, n, fi, rng.stream, rng.next + 2);
    moveTo, action := boss.BossTick(rng, gs.floors[fi].hasOpenedBossRoom, n, tiles);
    assert action.Some? && old(boss.subtick) == BOSS_WAVE_SUBTICK ==>
      action.value.wave == expected.placements && rng.next == expected.next;
  }

  /** What `getTargetForInteract` sees of the drones: whether each is active on floor `here`, and where it is. */
  function DroneCandidates(ds: seq<Drone>, here: int): (cs: seq<Candidate>)
    reads DroneLives(ds), set d | d in ds :: d.unit
    ensures |cs| == |ds|
    ensures forall i :: 0 <= i < |ds| ==>
      cs[i] == Candidate(ds[i].unit.life.active && ds[i].unit.life.floorIndex == here, ds[i].unit.Position())
  {
    if ds == [] then []
    else [Candidate(ds[0].unit.life.active && ds[0].unit.life.floorIndex == here, ds[0].unit.Position())] +
         DroneCandidates(ds[1..], here)
  }

  /** The lifecycles of some interactables. */
  function InteractableLives(items: seq<Interactable>): set<Lifecycle>
  {
    set i | i in items :: i.life
  }

  /** What `getTargetForInteract` sees of the interactables. */
  function InteractableCandidates(items: seq<Interactable>, here: int): (cs: seq<Candidate>)
    reads InteractableLives(items)
    ensures |cs| == |items|
    ensures forall i :: 0 <= i < |items| ==>
      cs[i] == Candidate(items[i].life.active && items[i].life.floorIndex == here, items[i].Position())
  {
    if items == [] then []
    else [Candidate(items[0].life.active && items[0].life.floorIndex == here, items[0].Position())] +
         InteractableCandidates(items[1..], here)
  }

  /**
   * The action key's press in `Player.update`: the target that
   * `getTargetForInteract` chooses is acted on. Whatever the target, no two
   * listed drones end up sharing a schematic if none did before.
   */
  method PlayerAction(gs: GameState) returns (target: Target)
    requires 0 <= gs.Here() < |gs.floors|
    requires forall d :: d in gs.drones ==> d.unit != gs.player.unit
    modifies gs`drones, gs`elements, gs`interactables
    modifies gs.player.unit`power, gs.player.unit`x, gs.player.unit`y, gs.player.unit.life`floorIndex
    modifies DroneLives(gs.drones)`active, DroneLives(gs.drones)`spawned
    modifies InteractableLives(gs.interactables)`active, InteractableLives(gs.interactables)`spawned
    ensures target == old(ChooseTarget(gs.player.unit.Position(), DroneCandidates(gs.drones, gs.Here()),
                                       InteractableCandidates(gs.interactables, gs.Here()),
                                       gs.player.schematics, gs.player.schematicIndex))
    ensures target.DroneTarget? ==>
      target.drone < |old(gs.drones)| && gs.drones == SpliceOut(old(gs.drones), old(gs.drones[target.drone]))
    ensures target.InteractableTarget? ==> gs.drones == old(gs.drones) || gs.drones == []
    ensures target.SchematicTarget? ==>
      gs.drones == old(gs.drones) || (|gs.drones| == |old(gs.drones)| + 1 && gs.drones[..|old(gs.drones)|] == old(gs.drones))
    ensures target == NoTarget ==> gs.drones == old(gs.drones) && gs.elements == old(gs.elements)
    ensures OnePerSchematic(old(gs.drones)) ==> OnePerSchematic(gs.drones)
  {
    var here := gs.Here();
    target := ChooseTarget(gs.player.unit.Position(), DroneCandidates(gs.drones, here),
                           InteractableCandidates(gs.interactables, here), gs.player.schematics, gs.player.schematicIndex);
    Act(gs, target);
  }

  /**
   * Acting on a chosen target: a drone is picked up, a core absorbed, a
   * button pressed, a schematic deployed.
   */
  method Act(gs: GameState, target: Target)
    requires 0 <= gs.Here() < |gs.floors|
    requires forall d :: d in gs.drones ==> d.unit != gs.player.unit
    requires target.DroneTarget? ==> target.drone < |gs.drones|
    requires target.InteractableTarget? ==>
      target.interactable < |gs.interactables| && gs.interactables[target.interactable].life.floorIndex == gs.Here()
    modifies gs`drones, gs`elements, gs`interactables
    modifies gs.player.unit`power, gs.player.unit`x, gs.player.unit`y, gs.player.unit.life`floorIndex
    modifies DroneLives(gs.drones)`active, DroneLives(gs.drones)`spawned
    modifies InteractableLives(gs.interactables)`active, InteractableLives(gs.interactables)`spawned
    ensures target.DroneTarget? ==> gs.drones == SpliceOut(old(gs.drones), old(gs.drones[target.drone]))
    ensures target.InteractableTarget? ==> gs.drones == old(gs.drones) || gs.drones == []
    ensures target.SchematicTarget? ==>
      gs.drones == old(gs.drones) || (|gs.drones| == |old(gs.drones)| + 1 && gs.drones[..|old(gs.drones)|] == old(gs.drones))
    ensures target == NoTarget ==> gs.drones == old(gs.drones) && gs.elements == old(gs.elements)
    ensures OnePerSchematic(old(gs.drones)) ==> OnePerSchematic(gs.drones)
  {
    match target {
      case DroneTarget(i) =>
        PickUpDroneTarget(gs, gs.drones[i]);
      case InteractableTarget(i) =>
        var it := gs.interactables[i];
        if it.kind == PowerCore {
          var _ := UseCore(gs, it);
        } else {
          var _ := PressButton(gs, it);
        }
      case SchematicTarget(s) =>
        var _ := DeploySchematic(gs, s);
      case NoTarget =>
    }
  }
}
