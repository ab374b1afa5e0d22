# Code X: a verified model of the game rules

Code X is a small top-down roguelike, written in TypeScript on Phaser for
Ludum Dare 48. The player goes down a tower one floor at a time in an
elevator. Floors are grouped in sections of five. Floor numbers 0 to 3 of a
section are made of randomly laid rooms holding enemies and power cores.
Floor number 4 is a boss floor. There, four normal pylons open the boss room
when they are all charged. Four boss pylons, once charged, make the boss
vulnerable and make drones free to deploy. Defeating five bosses wins.

The player carries drone schematics. Deploying a drone costs power. Picking a
drone back up refunds power. Enemies drop power, schematics and elevator keys
when they die.

Every entity shares one lifecycle:
- it is spawned when the player reaches its floor;
- it is despawned when the player leaves;
- it is destroyed by removing it from the game state's lists.

The world advances on a fixed tick of half a second.

This project models that rule core in Dafny and proves properties of it. The
modules are:
- constants: facings and icons;
- helpers: the random helpers, distance and 3D sound;
- schematics: the drone and enemy catalogues;
- base: the entity lifecycle, units, damage and ticks;
- bullets, drones, enemies, drops, interactables, pylon: the entity kinds;
- player: input, targeting and deploying;
- floor (module `Floors`): room layout, doors, room contents, and opening the boss floor and the elevator;
- gamestate (module `GameStates`): the game state's lists and its per-frame spawn and despawn passes;
- world: the effects of one entity on the others.

`elements` holds the HUD and alert values that the game state collects.

Modelling conventions:
- `Math.random()` is a `Helpers.Rng` object. Each call returns the next value of a fixed draw stream in [0, 1) and advances a counter. The operations of a room, a floor's layout and spawn, a boss tick and a loot roll state exactly which draws they consume. `GameState.SpawnFloor` states the draws of a floor's first spawn; the per-frame passes built on it (`SpawnPass`, `Passes`, `Update`) state which entities they add, not which draws they consume.
- Positions and velocities are `real`. The tile map's wall layer is a parameter `walls`: the wall index of each tile, -1 when the tile is empty.
- Entities whose fields the game changes in place are classes:
  - `Lifecycle` holds the spawn flags and the floor index;
  - `Unit` holds power, facing, hurt time and position;
  - the other classes are `Drone`, `Enemy`, `Bullet`, `Drop`, `Interactable`, `Pylon`, `Floor`, `Player`, `Score` and `GameState`.
- A floor's spawn and a boss tick return what they would push: a `SpawnPlan` or a `BossAction`. `GameState` then pushes it (`AddEnemies`, `Populate`).

## Model

| member | source | states |
|---|---|---|
| Constants.IconValue | src/constants.ts:13-24 | each icon's number lies below the icon count, 8 |
| Constants.IconFromValue | src/constants.ts:13-24 | the icon looked up from a number below 8 carries that number |
| Constants.IconValuesAreABijection | src/constants.ts:13-24 | numbering and looking up are inverse, so no two icons share a number |
| Constants.Clockwise | src/enemies.ts:142-145 | a turret's quarter turn always changes the facing |
| Constants.Opposite | src/drones.ts:116-119 | a bounce's reversal equals two quarter turns and always changes the facing |
| Constants.AxisIsUnitVector | src/drones.ts:62-63 | each facing's (dx, dy) is a unit axis vector that determines the facing; the opposite facing negates it |
| Constants.Facing4WayIsClockwiseOrder | src/constants.ts:10 | FACING_4WAY lists the four facings once each, every one followed by its clockwise neighbour |
| Constants.Facing8WayLeavesOutCentre | src/constants.ts:11 | FACING_8WAY lists the eight distinct directions other than center-center |
| Helpers.Rng.constructor | src/helpers.ts:4 | a new draw source starts at the first draw of its stream |
| Helpers.Rng.Random | src/helpers.ts:4 | each call returns the next draw and advances by exactly one |
| Helpers.RandInt | src/helpers.ts:3-5 | randInt(max, min) lies in [min, max] when min <= max; with the two swapped it lies in [max + 1, min] |
| Helpers.RandIntReachesEveryValue | src/helpers.ts:3-5 | every value from 0 to max is returned for some draw |
| Helpers.DrawInt | src/helpers.ts:3-5 | randInt consumes one draw and returns what RandInt gives for it |
| Helpers.RandFloat | src/helpers.ts:7-9 | as written, randFloat(max, min) lies in [min, max + 1) when min <= max |
| Helpers.RandFloatWithin | src/helpers.ts:7-9 | the intended randFloat lies in [min, max], and below max when min < max |
| Helpers.RandFloatOvershoots | src/helpers.ts:8 | some draw takes the written randFloat half a unit past max, where the intended one stays within max |
| Helpers.Pick | src/helpers.ts:13 | the index randInt(length - 1) always selects a member of a non-empty array |
| Helpers.RandItem | src/helpers.ts:11-14 | the result is null exactly for an empty array, and a member of the array otherwise |
| Helpers.DrawItem | src/helpers.ts:11-14 | an empty array consumes no draw; any other consumes one and yields RandItem of it |
| Helpers.RandFacingIsRandItem | src/enemies.ts:101 | randItem(FACING_4WAY) is never null and yields the facing the model draws |
| Helpers.Swap | src/helpers.ts:20 | the destructuring swap keeps the array's length |
| Helpers.SwapPermutes | src/helpers.ts:20 | the swap is a permutation |
| Helpers.ShufflePasses | src/helpers.ts:18-21 | the loop's passes keep the length |
| Helpers.ShufflePassesPermutes | src/helpers.ts:18-21 | the passes from i down to 1 permute the array |
| Helpers.Shuffled | src/helpers.ts:16-23 | a shuffle is a permutation of its input, of the same length |
| Helpers.Shuffle | src/helpers.ts:16-23 | the loop over a copy returns a permutation equal to Shuffled of the input; it consumes one draw per element beyond the first and leaves the input alone |
| Helpers.Dist | src/helpers.ts:25-27 | Manhattan distance: non-negative, zero exactly for the same point, and no smaller than either coordinate gap |
| Helpers.DistIsAMetric | src/helpers.ts:25-27 | distance is symmetric and satisfies the triangle inequality |
| Helpers.Get3dSound | src/helpers.ts:29-31 | pan lies in [-1, 1] and volume in [0, 1]; volume is 1 at the listener and 0 from 1280 pixels away; pan is 0 on the listener's column |
| Helpers.DestroyComponent | src/helpers.ts:33-36 | destroying a component always yields null |
| Helpers.IndexOf | src/drones.ts:42 | indexOf is -1 exactly when the value is absent, otherwise the first position holding it |
| Helpers.SpliceOut | src/drones.ts:42 | splice(indexOf(x), 1) removes one element from a non-empty list: one copy of x when present, the last element when x is absent |
| Helpers.SpliceOutOfDistinct | src/drones.ts:42 | in a list without repeats, the result is the list without x: exactly the elements before x's position followed by those after it, so the others keep their order |
| Base.FloorNumber | src/base.ts:21 | floorIndex % 5 truncates as in JavaScript: within 0..4 and with index == 5 * section + number for non-negative indices, within (-5, 0] for negative ones |
| Base.SectionNumber | src/base.ts:22 | Math.floor(floorIndex / 5) is the s with 5s <= floorIndex < 5s + 5 |
| Base.FloorNumberCycles | src/base.ts:21-22 | five floors further the floor number repeats and the section grows by one; after the boss floor comes floor 0 of the next section, otherwise the next floor stays in the section |
| Base.SpawnFlags | src/base.ts:28-36 | after spawn an entity is active, spawned and initialized |
| Base.DespawnFlags | src/base.ts:38-42 | after despawn it is neither active nor spawned and keeps its initialized flag |
| Base.SpawnIsIdempotent | src/base.ts:28-42 | spawning twice equals spawning once; initialize never runs again after the first spawn, even across a despawn; despawning twice equals despawning once |
| Base.Lifecycle.constructor | src/base.ts:8-15 | a new entity is on its floor, inactive, unspawned and uninitialized |
| Base.Lifecycle.Spawn | src/base.ts:28-36 | the flags become SpawnFlags of the old ones; the result says whether initialize ran, which happens only on the first spawn |
| Base.Lifecycle.Despawn | src/base.ts:38-42 | the flags become DespawnFlags of the old ones |
| Base.Lifecycle.Destroy | src/base.ts:44-46 | destroying has exactly the effect of despawning |
| Base.HurtAmount | src/base.ts:131-143 | damage taken is never negative and never exceeds the damage or the power; it is zero while invulnerable or dead, and otherwise positive (all the damage or all the power left) |
| Base.InvulnerabilityWindow | src/base.ts:131-136 | a second hit inside the invulnerability period that follows a damaging hit does nothing |
| Base.DiesAtMostOnce | src/base.ts:125-129 | over any run of post-updates, die runs at most once and never on a dead unit, and it runs once when some active frame has power at or below 0 |
| Base.TickDueWhenBoundaryInFrame | src/base.ts:220-227 | the tick boundary is the last multiple of the tick rate not after t, and the tick runs exactly when that boundary falls inside the frame (t - dt <= boundary) |
| Base.TickBoundary | src/base.ts:223 | the latest multiple of the tick rate not after t |
| Base.TickDue | src/base.ts:224 | the tick runs when t / rate is at least the boundary and the previous frame time t - dt is not past it |
| Base.SnapToGrid | src/base.ts:241 | Math.round(x / 32 + 0.5) * 32 - 16 is the centre of the 32-pixel cell holding x |
| Base.SnapIsIdempotent | src/base.ts:241 | snapping a snapped position changes nothing |
| Base.TileCentresMatchTheSnap | src/base.ts:97-100 | a tile's centre lies in that tile, and the snap of a position is the centre of the wall-layer tile that holds it |
| Base.MapX | src/base.ts:99 | mapX: the column of the 32-pixel wall-layer tile holding x, the layer starting at -384 |
| Base.MapY | src/base.ts:100 | mapY: the row of the 32-pixel wall-layer tile holding y, the layer starting at -1152 |
| Base.Unit.constructor | src/base.ts:109-111 | a new unit has the given floor, position, facing, power, maximum power and invulnerability period, no hurt time, and is alive and unspawned |
| Base.Unit.Update | src/base.ts:118-123 | an active unit's hurt time falls by dt; an inactive unit is unchanged |
| Base.Unit.Hurt | src/base.ts:131-143 | power falls by HurtAmount, and the invulnerability period restarts exactly when damage was taken |
| Base.Unit.PostUpdate | src/base.ts:125-129 | the unit dies exactly when it is active, out of power and not yet dead; a dead unit stays dead |
| Base.Unit.Die | src/base.ts:145-147 | the unit is dead afterwards |
| Base.Unit.DroneLikeUpdate | src/base.ts:220-227 | the tick runs exactly when the unit is active and alive and a tick boundary falls inside the frame |
| Base.Unit.SnappedPosition | src/base.ts:240-242 | the tick's snapped position lies within 16 pixels of the position on each axis |
| Base.Aim | src/drones.ts:80-85 | a tracker turns along the dominant axis: left or right by the sign of dx when abs(dx) > abs(dy), otherwise up or down by the sign of dy |
| Base.AimPointsAtTarget | src/drones.ts:80-85 | the chosen facing closes the larger of the two gaps to the target, and no other facing gets closer along its axis |
| Base.SpinRemapReflects | src/drones.ts:152-176 | a boomerang's bounce reverses exactly one blocked component of its diagonal; it keeps the facing when neither side it travels towards is blocked and ignores the two sides behind it |
| Base.SpinRemap | src/drones.ts:156-172 | a spinning unit's bounce: each facing tests two sides in the source's order and the later blocked one wins |
| Base.BlockedAhead | src/drones.ts:146 | the side the unit travels towards horizontally (right for up and right, left otherwise) is blocked |
| Base.BlockedAbove | src/drones.ts:147 | the side the unit travels towards vertically (down for down and right, up otherwise) is blocked |
| Schematics.AffordableSchematics | src/enemies.ts:98 | filtering the catalogue by budget returns no more entries than the catalogue has |
| Schematics.AffordableMembers | src/enemies.ts:98 | a schematic survives the filter exactly when it is in the catalogue and costs no more than the budget |
| Schematics.AffordableGrowsWithBudget | src/enemies.ts:98 | a larger budget never affords fewer schematics |
| Schematics.DroneCatalogue | src/schematics.ts:8-15 | there are six distinct drone schematics costing 10 to 20, the first being the 10-power turret |
| Schematics.AffordableExtremes | src/floor.ts:200 | if every entry is affordable the filter keeps the whole catalogue, and if none is it keeps nothing |
| Schematics.EnemyCatalogueCosts | src/schematics.ts:24-34 | every catalogue enemy has a finite cost, a multiple of 5 from 10 to 25, and is not the boss; the boss costs Infinity and no budget affords it |
| Schematics.EnemyCatalogueBudgets | src/schematics.ts:24-32 | nothing is affordable below 10 and everything is from 25 |
| Bullets.TrackerShot | src/bullets.ts:94-96 | a tracker bullet flies at 192 for 5 seconds |
| Bullets.PulseShot | src/drones.ts:64 | a pulse fired along a facing: from 8 pixels ahead of the shooter along the facing's axis vector, at the given speed, for 2 seconds, dealing 5 |
| Bullets.FanSpreadsAcrossTheFacing | src/enemies.ts:172-180 | a multishot volley is three 5-damage pulses at 256 from 8 pixels ahead: one straight, and one to each side offset by the perpendicular unit vector |
| Bullets.FanShots | src/enemies.ts:172-180 | a multishot volley: three 256 pulses, along the facing plus the side offset, along the facing, and along the facing minus the offset |
| Bullets.NoFriendlyFire | src/bullets.ts:82-86 | a bullet hits only the other side: friendly bullets hit enemies, hostile bullets hit the player and drones |
| Bullets.Opposes | src/bullets.ts:83 | hit proceeds exactly when the bullet's side differs from the target's |
| Bullets.Bucket | src/bullets.ts:66 | the eight-way animation is chosen per axis with thresholds at 0.25 and -0.25, and center-center exactly when both components are within them |
| Bullets.AxisDirectionsHaveAnimations | src/bullets.ts:23-30 | an axis-aligned bullet gets one of the eight created animations, never center-center |
| Bullets.Bullet.constructor | src/bullets.ts:14-16 | a new bullet carries the shot's kind, speed, side, damage, position, direction and lifetime, and a tracking time of 0.125 |
| Bullets.Bullet.Update | src/bullets.ts:55-61 | an active bullet moves at its speed along (dx, dy), loses dt of lifetime and is destroyed once that reaches 0; a tracker re-aims while its tracking time is positive; an inactive bullet is unchanged |
| Bullets.Bullet.Hit | src/bullets.ts:82-86 | a bullet is consumed exactly when the target is on the other side, and the target then loses HurtAmount of the bullet's damage |
| Drones.ImpactDamage | src/drones.ts:57-232 | the contact damage each drone class passes to its base is never negative, and is positive exactly for the puncher, boomerang, strafer and multishot |
| Drones.DroneShotsAreFriendly | src/drones.ts:60-65 | all drone shots are friendly and on the drone's floor; turret and strafer fire one 5-damage pulse at 512 every tick; the tracker fires a 15-damage tracker and the multishot a volley only on subtick 1; punchers and boomerangs never fire |
| Drones.DroneShots | src/drones.ts:60-250 | a tick's bullets: a 512 pulse from the turret and the strafer, a 15-damage tracker on subtick 1, a fan volley from the multishot on subtick 1, none from the puncher and boomerang; all friendly |
| Drones.TickedFacing | src/drones.ts:80-85 | a tracker turns to the player along the dominant axis; the others keep their facing |
| Drones.SubtickAlternates | src/drones.ts:92 | the subtick stays in {0, 1}, alternates, and is back to its value after two ticks |
| Drones.AxisMoversKeepTheirSpeed | src/drones.ts:125-130 | a puncher moves at 128 along its facing and a strafer at 64 along its move facing |
| Drones.TickVelocity | src/drones.ts:125-222 | a tick's velocity: a puncher at 128 along its facing, a boomerang at 64 diagonally, a strafer at 64 along its move facing; the turret, tracker and multishot keep theirs |
| Drones.Drone.constructor | src/drones.ts:19-21 | a new drone has the given floor, position and facing, the schematic's cost as power and maximum power, the kind's impact damage, subtick and debounce 0, and a strafer moves a quarter turn clockwise of its facing |
| Drones.Drone.Contact | src/drones.ts:26-31 | a living drone with power hurts the touched enemy by its impact damage; otherwise nothing changes |
| Drones.Drone.CanHurtOnContact | src/drones.ts:27 | only a living drone with power left deals contact damage |
| Drones.Drone.BaseTick | src/drones.ts:45-49 | the drone snaps to its tile and drains one power unless a powered boss pylon is on its floor |
| Drones.Drone.Tick | src/drones.ts:45-251 | the tick drains power as BaseTick does, turns a tracker to the player, advances the subtick of alternating kinds, sets the kind's velocity and fires the kind's shots |
| Drones.Drone.WallCollision | src/drones.ts:112-216 | only bouncing kinds with no debounce react: a puncher reverses its facing, a strafer its move facing, a boomerang takes the blocked-side remap; then the debounce is set and a tick runs |
| Drops.Drop.constructor | src/drops.ts:40 | a new drop has the given floor, position and kind and is unspawned |
| Drops.Drop.Pickup | src/drops.ts:57-108 | power is taken only below maximum and clamped to it; a schematic only when not owned, and it is then appended; a key only when the floor has none, and the floor then has one; a taken drop is destroyed |
| Drops.PowerPickupIsClamped | src/drops.ts:58-60 | below maximum, a power pickup strictly raises power and never past the maximum |
| Enemies.BossPower | src/enemies.ts:76 | a boss's power is 100 plus 50 per section |
| Enemies.BasePower | src/enemies.ts:136-326 | the power each enemy class passes to its base: 15 for the turret, 20 for the multishot, hover turret, puncher and boomerang, 25 for the hover multishot, 10 for the strafing turret, 100 for the boss before BossPower replaces it |
| Enemies.ImpactDamage | src/enemies.ts:24-326 | the contact damage each enemy class passes to its base: 10 for the puncher, boomerang and boss, 5 for the others |
| Enemies.EnemyStats | src/enemies.ts:136-326 | the power and contact damage each catalogue enemy passes to its base: power from 10 to 25, contact damage 10 for puncher and boomerang and 5 for the others |
| Enemies.TickedFacing | src/enemies.ts:139-263 | a tick's facing: turrets turn clockwise and hover shooters aim at the player on subtick 0; a puncher turns towards the player along x on subtick 0 and along y on subtick 1; the others keep theirs |
| Enemies.EnemyShots | src/enemies.ts:146-341 | a tick's bullets: a 512 pulse for a turret or hover turret on subtick 1, a fan volley for a multishot on subtick 1, a 512 pulse from the strafing turret on every tick, none from punchers and boomerangs; all hostile |
| Enemies.TickVelocity | src/enemies.ts:255-361 | a tick's velocity: a puncher at 64 along its facing, a boomerang at 64 diagonally, a strafing turret at 64 along its move facing; the others keep theirs |
| Enemies.EnemyShotsAreHostile | src/enemies.ts:146-150 | all enemy shots are hostile 5-damage pulses on the enemy's floor, so they hit only the player and drones; turrets and multishots fire only on subtick 1 |
| Enemies.TurretsSweepClockwise | src/enemies.ts:139-152 | a turret turns clockwise on subtick 0 and fires along its new facing on subtick 1, every two ticks |
| Enemies.PuncherChasesThePlayer | src/enemies.ts:255-269 | a puncher turns along the x axis towards the player on one subtick and along the y axis on the other |
| Enemies.FillSpendsTheBudget | src/floor.ts:198-204 | the budget falls by exactly what the placed enemies cost |
| Enemies.FillFrom | src/floor.ts:198-204 | the fill loop from some placements on: pop the last tile; if an enemy is affordable, pick one and a facing (two draws), pay and place it there, and go on; otherwise stop with that tile lost; the loop ends with no budget or no tiles |
| Enemies.Fill | src/floor.ts:198-204 | the fill loop from nothing placed |
| Enemies.FillStaysWithinBudget | src/floor.ts:198-204 | a fill never overspends: the budget left lies between 0 and the budget, and nothing happens from a budget at or below 0 |
| Enemies.FillUsesTilesFromTheEnd | src/floor.ts:199 | tiles are popped from the end, at least one per enemy, and what is left is a prefix of the list |
| Enemies.FillPlacesCatalogueEnemies | src/floor.ts:199-203 | every placed enemy comes from the catalogue, the i-th one on the i-th tile from the end, after those placed before |
| Enemies.FillPlacesAtMostOnePer10 | src/floor.ts:198-204 | with a catalogue priced from 10, a fill places at most one enemy per 10 of budget |
| Enemies.FillStopsOnlyWhenPoor | src/floor.ts:199-201 | a fill stops with budget left and a tile lost only when nothing in the catalogue is affordable |
| Enemies.NothingAffordableBelow10 | src/schematics.ts:24-32 | no catalogue enemy is affordable exactly when the budget is below 10 |
| Enemies.FillRound | src/floor.ts:199-203 | one round takes the last tile, picks an affordable schematic and a facing with two draws, and pays the schematic's cost |
| Enemies.FillStopsHere | src/floor.ts:198 | with no budget or no tiles the loop does not run |
| Enemies.FillSkipsTheTile | src/floor.ts:199-201 | when nothing is affordable the popped tile is lost and the loop ends |
| Enemies.DrawPlacement | src/floor.ts:199-203 | one round of the method agrees with the fill function's round |
| Enemies.PlanFill | src/floor.ts:198-204 | the while loop yields the fill function's placements, leftover tiles, leftover budget and draws |
| Enemies.Unowned | src/enemies.ts:56 | the choices are exactly the catalogue schematics the player lacks |
| Enemies.LootFor | src/enemies.ts:51-60 | the loot roll: a key for a draw below 0.1 when a key can drop (drawn only then), else for a draw below 0.1 a random schematic the player lacks, or nothing if none is lacking, else 10 power; with the number of draws taken |
| Enemies.UnownedOf | src/enemies.ts:56 | the filter keeps exactly the entries not owned |
| Enemies.LootIsNeverADuplicate | src/enemies.ts:51-60 | a key drops only where one can; a schematic drop is never one the player owns; nothing drops only when the schematic roll finds every schematic owned; a power drop is worth 10 |
| Enemies.DrawLoot | src/enemies.ts:53-60 | the loot roll consumes the draws the loot function counts, at least one |
| Enemies.BossWaveIsFromTheCatalogue | src/enemies.ts:95-102 | a boss wave places at most one enemy per tile, each a catalogue enemy standing on one of the tiles |
| Enemies.Enemy.constructor | src/enemies.ts:23-25 | a new enemy has its class's power and contact damage and the given floor, position and facing |
| Enemies.Enemy.Boss | src/enemies.ts:74-77 | a boss faces down and has power and maximum power BossPower of its floor |
| Enemies.Enemy.Contact | src/enemies.ts:30-33 | the touched player or drone loses HurtAmount of the enemy's contact damage |
| Enemies.Enemy.Tick | src/enemies.ts:139-342 | the tick turns, advances the subtick and the debounce, moves and fires as the enemy's class does |
| Enemies.Enemy.WallCollision | src/enemies.ts:291-355 | only bouncing kinds with no debounce react, reversing or remapping their facing as the drones do |
| Enemies.Enemy.BossTick | src/enemies.ts:84-107 | an inactive boss, a closed boss room or no power means no action; otherwise the boss steps every fourth subtick and, on subtick 16, fills a wave of catalogue enemies on the given tiles and restarts the count; the wave's budget uses the corrected roll WaveRoll, not the written one |
| Enemies.Enemy.BossStep | src/enemies.ts:87-88 | the step velocity is randInt(1, -1) * 64 on each axis and takes two draws |
| Enemies.Enemy.BossWave | src/enemies.ts:92-103 | the wave is the budgeted fill of the given tiles (World.BossTickOnFloor supplies the ones around the boss), each enemy a catalogue enemy on one of them, with the draws it took; the budget uses the corrected roll WaveRoll |
| Enemies.BossWaveFill | src/enemies.ts:93-102 | a boss wave: budget (WaveRoll of the powered boss pylons + section number) * 10 from one draw, then the fill of the given tiles from the next draw |
| Enemies.WaveRoll | src/enemies.ts:94 | the intended wave roll lies between 1 and 1 + the powered boss pylons |
| Enemies.WaveRollAsWritten | src/enemies.ts:94 | as written the roll is 1 with no powered pylon, and otherwise at least 2 |
| Enemies.WaveRollAsWrittenTopOnlyAtZero | src/enemies.ts:94 | with two or more powered pylons, 1 + pylons comes up only for a draw of 0 |
| Enemies.WaveRollAsWrittenSkipsOne | src/enemies.ts:94 | with one powered pylon the written roll is always 2, while the intended one is 1 or 2 |
| Enemies.WaveRollReachesEveryValue | src/enemies.ts:94 | every value from 1 to 1 + pylons comes up for some draw |
| Floors.RoomTypeIsRandInt | src/floor.ts:315 | the room-type draw equals randInt(3) |
| Floors.RoomChance | src/floor.ts:315 | the chance of a room on a section's floor n is 0.25 + 0.2 * n |
| Floors.RoomTypeRoll | src/floor.ts:315 | randInt(3) by quarters of the draw: 0, 1, 2 or 3 |
| Floors.RoomRoll | src/floor.ts:314-316 | a room type is -1 to 3; a room exists exactly off the boss floor when the first draw is below the floor's room chance; at most two draws |
| Floors.EveryRoomTypeCanComeUp | src/floor.ts:315 | every room type can come up on a non-boss floor |
| Floors.CornerRoll | src/floor.ts:62-65 | a corner room exists only when a neighbouring side room does |
| Floors.LayoutOfRolls | src/floor.ts:54-66 | the layout is the four side rolls in order followed by the four corner rolls |
| Floors.LayoutRules | src/floor.ts:54-66 | every type is -1 to 3; the boss floor has no rooms and takes no draw; every corner has a neighbouring side room |
| Floors.Layout | src/floor.ts:54-66 | initialize: up-center, center-right, down-center and center-left are rolled in that order, then each corner is rolled only when one of its two neighbouring sides has a room; with the next draw |
| Floors.WithDoorsSetsExactlyTheGivenSides | src/floor.ts:232-237 | setRoomDoors sets the door of each given side and leaves every other door alone |
| Floors.WithDoors | src/floor.ts:232-237 | setRoomDoors at (dx, dy): each side with a flag sets its door, up at (dx + 3, dy), down at (dx + 3, dy + 7), left at (dx, dy + 3), right at (dx + 7, dy + 3); a null side is left alone |
| Floors.DoorFlags | src/floor.ts:92-101 | the neighbour flags spawn passes to setRoom for each slot: a side towards another slot is open when that slot has a room, a side towards the hall is always open, an outer side is null |
| Floors.SpawnDoors | src/floor.ts:92-103 | spawn's doors: each laid room's doors in source order, then the hall's doors towards the four side rooms |
| Floors.HallDoorsOpenTowardsRooms | src/floor.ts:103 | each hall door is open exactly when the side room behind it exists |
| Floors.EmptyColumnMembers | src/floor.ts:214-217 | a column scan lists exactly the empty tiles of the column, each once |
| Floors.EmptyRectMembers | src/floor.ts:211-220 | getEmptyTiles lists exactly the empty tiles of the rectangle, no more than its area |
| Floors.EmptyRect | src/floor.ts:211-220 | getEmptyTiles: the cells of the rectangle whose wall index is -1, column by column and top to bottom in each column |
| Floors.RoomFreeCells | src/floor.ts:195 | a room has at most 36 free cells, all inside the room and empty |
| Floors.RoomFree | src/floor.ts:195 | a room's free cells: getEmptyTiles of the 6 by 6 cells inside its border |
| Floors.CoreRollIsRandInt | src/floor.ts:196 | the intended core roll equals randInt(2) (0 to 2 cores) |
| Floors.CoreRoll | src/floor.ts:196 | the intended core roll, randInt(2) by thirds of the draw: 0, 1 or 2 |
| Floors.CoreRollAsWritten | src/floor.ts:196 | as written the roll is 2 only for a draw of exactly 0, and 1 otherwise |
| Floors.BudgetRoll | src/floor.ts:197 | the intended budget is a multiple of 5 from 0 to 5 * (5 + floorIndex) |
| Floors.BudgetRollAsWritten | src/floor.ts:197 | as written the budget lies between 5 and 5 * (5 + floorIndex) |
| Floors.EveryBudgetCanComeUp | src/floor.ts:197 | every multiple of 5 up to the top comes up for some draw |
| Floors.BudgetAsWrittenIsNeverZero | src/floor.ts:197 | as written a room never gets a zero budget, which the intended roll gives for a draw of 0 |
| Floors.BudgetAsWrittenCanLeaveARoomEmpty | src/floor.ts:197-201 | the written budget can still be 5, which affords no catalogue enemy: on floor 0 a draw of 0.9 rolls 5, and the fill then places nothing |
| Floors.PopFromTakesFromRest | src/floor.ts:205-208 | the cores loop takes min(n, tiles left) tiles, all from those left |
| Floors.PopFrom | src/floor.ts:205-208 | the cores loop: pop tiles from the end while fewer than n were taken and tiles are left |
| Floors.TakeCores | src/floor.ts:205-208 | the loop takes what the pop function takes |
| Floors.RoomFillIsBounded | src/floor.ts:198-208 | a room gets no more cores than rolled and no more objects than tiles; enemies cost no more than the budget, at least 10 each |
| Floors.RoomFillUsesTheTiles | src/floor.ts:198-208 | every enemy and core sits on one of the tiles |
| Floors.RoomFill | src/floor.ts:198-208 | spawnRoom's two loops: the fill of the shuffled cells, then up to the core count of power cores on the cells left, from the end |
| Floors.RoomSpawn | src/floor.ts:194-209 | spawnRoom: shuffle the free cells, roll the cores and the budget with the next two draws, then RoomFill |
| Floors.RoomSpawnFills | src/floor.ts:194-209 | a room spawn is the shuffle, then the corrected core and budget rolls (CoreRoll, BudgetRoll, not the written ones), then the fill |
| Floors.RoomSpawnIsBounded | src/floor.ts:194-209 | a room holds at most 2 cores, no more objects than free cells, and enemies within a budget of at most 5 * (5 + floorIndex); it takes the shuffle's draws, two rolls and two draws per enemy |
| Floors.RoomSpawnUsesTheFreeCells | src/floor.ts:194-209 | every enemy is a catalogue enemy on a free cell and every core is on a free cell |
| Floors.ElevatorButtonsAreValid | src/floor.ts:106-111 | every button placed is valid on its floor; a down button is always placed; an up button is placed exactly off the top floor |
| Floors.ElevatorButtons | src/floor.ts:106-111 | the elevator buttons: a main down button at (-64, -80) off the boss floor, a main up button at (64, -80) off the top floor, and on the boss floor a down button at (-64, -1104) |
| Floors.BossFloorHasFourPylonsOfEachKind | src/floor.ts:112-119 | a boss floor gets eight pylons: four normal, then four boss ones |
| Floors.BossFloorPylons | src/floor.ts:112-119 | the boss floor's pylons: four normal ones at (+-16, -268) and (+-16, -236), then four boss ones at (+-112, -524) and (+-112, -748) |
| Floors.SlotContentsAreBounded | src/floor.ts:222-230 | one slot's contents hold at most 2 cores and enemies within its budget, and take draws only forward |
| Floors.SlotsFromAppend | src/floor.ts:92-101 | laying slots a then b chains as laying a, then b from where a left off |
| Floors.SlotsFromAreBounded | src/floor.ts:92-101 | chained slots add at most 2 cores and a budget's worth of enemies per slot, and take draws only forward |
| Floors.FloorContentsAreBounded | src/floor.ts:92-101 | a floor's rooms hold at most 16 cores and at most 4 * (5 + floorIndex) enemies |
| Floors.InRoomCells | src/floor.ts:222-230 | everything spawned in a laid room is on a free cell of that room |
| Floors.BossDoorsOnlyOpen | src/floor.ts:170-182 | opening the boss room or elevator only opens its two doors and leaves every other door as it was |
| Floors.BossDoors | src/floor.ts:170-182 | update's boss doors: opening the boss room sets the vertical doors (11, 23) and (11, 24) open, opening the elevator sets (11, 7) and (11, 8) open |
| Floors.SlotDoorsSpareTheBossDoors | src/floor.ts:92-101 | no room slot's doors touch the four boss doors on a boss floor |
| Floors.RespawnLeavesBossDoorsShut | src/floor.ts:70-103 | the doors a boss floor's spawn builds from a fresh tile map never set the four boss doors, which keep the template's shut tiles, and BossDoors with both latches already set changes nothing, so a boss floor spawned again keeps its boss room and elevator shut |
| Floors.Floor.constructor | src/floor.ts:50-52 | a new floor has no rooms, no doors, no flags set and is unspawned |
| Floors.Floor.RandomRoomType | src/floor.ts:314-316 | the method returns RoomRoll and consumes its draws |
| Floors.Floor.Initialize | src/floor.ts:54-66 | the rooms become the layout drawn from the stream |
| Floors.Floor.RandomCornerType | src/floor.ts:62-65 | the method returns CornerRoll and consumes its draws |
| Floors.Floor.GetEmptyTiles | src/floor.ts:211-220 | the nested loops return the empty tiles of the rectangle |
| Floors.Floor.SetRoomDoors | src/floor.ts:232-237 | the doors become WithDoors of the old doors |
| Floors.Floor.SpawnRoom | src/floor.ts:194-209 | the room's enemies and cores are RoomSpawn of its free cells, with the draws it took; the core and budget rolls are the corrected ones |
| Floors.Floor.SetRoom | src/floor.ts:222-230 | a present room gets its doors and, on the first spawn, its contents, RoomSpawn of its free cells with the corrected rolls; an absent room changes nothing |
| Floors.Floor.LaySlot | src/floor.ts:92-101 | one room slot sets its doors; on the first spawn its contents and draws are SlotContents of the slot, and they lie in that room |
| Floors.Floor.LayUpperRooms | src/floor.ts:92-97 | the upper rooms set their doors; on the first spawn their contents and draws are the slots' contents chained in source order (up-left, up-center unless on the boss floor, up-right, center-right), and they lie in laid rooms |
| Floors.Floor.LayLowerRooms | src/floor.ts:98-101 | the lower rooms set their doors; on the first spawn they append the slots' contents chained in source order (down-right, down-center, down-left, center-left) and take their draws; later the contents are untouched |
| Floors.Floor.LayRooms | src/floor.ts:92-103 | the doors become SpawnDoors of the old doors; on the first spawn the contents and draws are FloorContents, the eight slots in source order; nothing is placed once objects were spawned |
| Floors.Floor.Spawn | src/floor.ts:68-124 | the floor spawns, is laid out on first spawn only, and marks objects spawned; the doors are SpawnDoors of a fresh wall layer, since every spawn builds the tile map anew, so a boss door opened before a despawn is shut again; on the first spawn the plan is FirstSpawn: the rooms' FloorContents with exactly their draws after the layout's, the elevator buttons, and on a boss floor the eight pylons and the boss; later it is empty |
| Floors.Floor.Update | src/floor.ts:164-192 | an active boss floor opens the boss room once all normal pylons are powered and the elevator once no boss is left, each once with its alert; the elevator unlocks once no enemy is left or the key was found |
| GameStates.LivesOf | src/gamestate.ts:64 | the entity list's lifecycles, one per entity, in order |
| GameStates.Arrivals | src/gamestate.ts:70 | the spawn filter keeps exactly the unspawned entities on the current floor |
| GameStates.Departures | src/gamestate.ts:71 | the despawn filter keeps exactly the spawned entities on other floors |
| GameStates.Awake | src/gamestate.ts:72-73 | the update filters keep exactly the spawned active entities |
| GameStates.Arrived | src/gamestate.ts:70 | the spawn pass's effect on one entity: one on the current floor and not spawned spawns; any other is unchanged |
| GameStates.Departed | src/gamestate.ts:71 | the despawn pass's effect on one entity: one elsewhere that is spawned despawns; any other is unchanged |
| GameStates.Passed | src/gamestate.ts:70-71 | after the two passes an entity is spawned exactly when on the current floor; one already in place is unchanged |
| GameStates.SpawnAll | src/gamestate.ts:70 | every listed entity spawns |
| GameStates.DespawnAll | src/gamestate.ts:71 | every listed entity despawns |
| GameStates.SpawnArrivals | src/gamestate.ts:70 | listed entities on the current floor arrive, and nothing else changes |
| GameStates.DespawnDepartures | src/gamestate.ts:71 | listed entities elsewhere depart |
| GameStates.FloorSpawn | src/gamestate.ts:70 | a floor's spawn keeps the floor valid, places only catalogue enemies, returns FirstSpawn with its draws on the first spawn, and places nothing and draws nothing after it |
| GameStates.Score.constructor | src/gamestate.ts:24-30 | a new score starts at zero and not won |
| GameStates.GameState.constructor | src/gamestate.ts:12-30 | a new game has the player on floor 0 at full power, empty lists, the three HUD elements and a tick rate of 0.5 |
| GameStates.GameState.GrowFloors | src/gamestate.ts:69 | floors are appended, new and unspawned, until the player's floor exists, and the old ones are kept |
| GameStates.GameState.AddEnemies | src/floor.ts:203 | one new enemy per placement, appended in order |
| GameStates.GameState.AddBoss | src/floor.ts:120 | one new boss at the given spot, appended |
| GameStates.GameState.AddCores | src/floor.ts:205-208 | one new power core per tile, appended in order |
| GameStates.GameState.AddButtons | src/floor.ts:106-111 | one new elevator button per spot, appended in order |
| GameStates.GameState.AddPylons | src/floor.ts:112-119 | one new pylon per spot, appended in order |
| GameStates.GameState.PopulateEnemies | src/floor.ts:110-124 | the plan's enemies and boss are appended |
| GameStates.GameState.PopulateInteractables | src/floor.ts:105-111 | the plan's buttons and cores are appended |
| GameStates.GameState.Populate | src/floor.ts:105-124 | the plan's enemies, interactables and pylons are all appended |
| GameStates.GameState.SpawnFloor | src/floor.ts:68-124 | a floor's spawn with its objects pushed onto the lists, which keep every old entity: on the first spawn the floor's objects are FirstSpawn with exactly its draws (after the layout's when the floor is new), and the enemies, interactables and pylons of the plan are appended in order on the floor |
| GameStates.GameState.ArriveActors | src/gamestate.ts:70 | every entity but the floor arrives as Arrived of its old flags |
| GameStates.GameState.SpawnPass | src/gamestate.ts:70 | every old entity arrives, and every newcomer is on the current floor and unspawned |
| GameStates.GameState.DespawnPass | src/gamestate.ts:71 | every entity departs as Departed of its old flags and keeps its floor; an unspawned one is unchanged |
| GameStates.GameState.Passes | src/gamestate.ts:70-71 | after both passes every old entity is Passed of its old flags and every newcomer waits unspawned on the current floor |
| GameStates.GameState.Update | src/gamestate.ts:66-73 | play time becomes t, floors cleared the maximum with the player's floor, floors grow, the passes run, and the returned update targets are exactly the spawned active entities |
| GameStates.GameState.UpdateFloors | src/gamestate.ts:69-73 | the floors grow, the passes run and the update targets are returned |
| GameStates.ActorLivesGrow | src/gamestate.ts:70 | populating keeps every old actor and adds only unspawned entities on the current floor |
| Interactables.PressTravelsIffVisible | src/interactables.ts:57-97 | a button takes the elevator exactly when it is shown; it then travels by its delta, and otherwise raises the matching alert |
| Interactables.IsUnlocked | src/interactables.ts:83-86 | going up is always unlocked, going down only once the floor's elevator is unlocked |
| Interactables.IsValidOnFloor | src/interactables.ts:88-97 | a main up button is valid off the top floor, a main down button off the boss floor, the boss room's button only going down |
| Interactables.Press | src/interactables.ts:57-75 | interact: travel by delta when valid and unlocked; else the cannot-go-down or cannot-go-up alert when invalid; else the locked alert |
| Interactables.Visible | src/interactables.ts:80 | a button is shown exactly when valid and unlocked |
| Interactables.Interactable.constructor | src/interactables.ts:47 | a new interactable has the given floor, position and kind and is unspawned |
| Interactables.Interactable.AbsorbCore | src/interactables.ts:27-36 | below maximum the player gains up to 20 power and the core is destroyed; at maximum an alert is raised and nothing else changes |
| Interactables.CoreRefillIsClamped | src/interactables.ts:29 | a core strictly raises power, never past the maximum, by 20 unless that would overfill |
| Player.InputAxis | src/player.ts:53-56 | one key gives its direction, and both or neither give 0 |
| Player.SteeringFollowsInput | src/player.ts:65-66 | vertical input sets the facing, horizontal input sets it when there is no vertical input, and no input keeps it |
| Player.SteeredFacing | src/player.ts:65-66 | horizontal input sets the facing right or left, then vertical input overrides it with down or up |
| Player.FiresAtMostEveryOtherFrame | src/player.ts:73-101 | the action fires only on a press, so at most on every other frame |
| Player.HoldingFiresOnce | src/player.ts:73-101 | holding the key fires once, or never if it was already held |
| Player.Fires | src/player.ts:73-101 | how often a once-per-press key fires over successive frames: once for every frame pressed after a frame not pressed |
| Player.DeployKeepsThePlayerAlive | src/player.ts:85-98 | a deploy never leaves the player without power; it is free exactly during a power surge or for a free schematic, and costs the schematic's cost otherwise |
| Player.DeployDecision | src/player.ts:86-97 | the deploy choice: the already-deployed alert when a drone of the schematic exists, else free during a surge, else the cost when power exceeds it, else the insufficient-power alert |
| Player.Nearest | src/player.ts:123 | the sort picks the nearest candidate in range, the first of equals; none exactly when nothing is in range |
| Player.InRange | src/player.ts:123-126 | a candidate may be targeted when it is active on the current floor and less than 20 from the player |
| Player.ChooseTarget | src/player.ts:122-131 | a drone in range comes first, then an interactable in range, then the selected schematic |
| Player.Player.constructor | src/player.ts:19-21 | a new player is on floor 0 at the origin, faces down and has full power and the turret schematic |
| Player.Player.Steer | src/player.ts:46-66 | hurt time falls for an active player; a living active player's facing follows the input |
| Player.Player.ActionEdge | src/player.ts:73-74 | the action fires exactly on a press that was not held the frame before |
| Player.Player.CycleEdge | src/player.ts:103-107 | on a fresh press the selected schematic moves to the next one, wrapping around |
| Player.Player.PickUpDrone | src/player.ts:80-81 | the player regains the drone's power, clamped to the maximum |
| Player.Player.Deploy | src/player.ts:85-98 | a deploy that DeployDecision allows pays its cost and returns a drone; a refused one raises its alert and changes no power |
| Pylon.Conversions | src/pylon.ts:27-28 | the loop runs until at most 1 progress is left, once per unit above 1 |
| Pylon.FullRoundsCount | src/pylon.ts:30-34 | the number of rounds that end at full power |
| Pylon.ChargeRate | src/pylon.ts:26 | progress per second: 1.5 for a boss pylon, 2 for a normal one |
| Pylon.FullRounds | src/pylon.ts:27-34 | the number of loop rounds that end with the pylon at full power |
| Pylon.Pylon.IsPowered | src/pylon.ts:14 | a pylon is powered once its power reaches the maximum, 9 |
| Pylon.Pylon.InReach | src/pylon.ts:23-25 | the player stands less than 48 from the pylon on each axis |
| Pylon.Pylon.constructor | src/pylon.ts:16-18 | a new pylon has no progress and no power |
| Pylon.Pylon.Update | src/pylon.ts:20-40 | a pylon charges only while the player stands within reach on its floor; it converts whole progress into at most 9 power and alerts one surge per full round for a boss pylon that is the only powered one |
| Pylon.Pylon.Discharge | src/pylon.ts:27-38 | the loop leaves at most 1 progress and adds the conversions to power, capped at 9 |
| Pylon.ChargingIsCapped | src/pylon.ts:29 | charging never lowers power, never passes 9, and reaches 9 exactly when enough progress was gathered |
| Pylon.ProgressAfterLoop | src/pylon.ts:27-28 | after the loop progress lies between 0 and 1 |
| Pylon.ConversionsOfWholeUnits | src/pylon.ts:27-28 | adding m whole units of progress adds m conversions |
| World.Odds | src/interactables.ts:62 | the drones the loop spares are those at odd positions, half the list |
| World.DestroySkipping | src/interactables.ts:62 | the loop leaves the drones at odd positions and despawns exactly the others |
| World.DestroyAt | src/drones.ts:40-43 | destroying a drone removes exactly it from the list and despawns it |
| World.DestroyDronesAsWritten | src/interactables.ts:62 | the elevator's loop as written leaves the drones at odd positions |
| World.DestroyDrones | src/interactables.ts:62 | the intended loop leaves no drones and despawns each |
| World.DestroyListed | src/drones.ts:40-43 | one drone's destroy splices it from the list and despawns it |
| World.AsWrittenSparesTheSecondDrone | src/interactables.ts:62 | with two or more drones, the second survives the loop as written |
| World.SpliceOutKeepsOnePerSchematic | src/player.ts:86 | removing a drone keeps at most one drone per schematic |
| World.RemoveAtKeepsOnePerSchematic | src/player.ts:86 | removing at a position keeps at most one drone per schematic |
| World.PushKeepsOnePerSchematic | src/player.ts:86-94 | pushing a drone of an undeployed schematic keeps at most one per schematic |
| World.DestroyBullet | src/bullets.ts:50-53 | a destroyed bullet leaves the list and despawns |
| World.UpdateBullet | src/bullets.ts:55-61 | an active bullet moves and ages and leaves the list once expired; an inactive one is unchanged |
| World.BulletCollision | src/bullets.ts:37-40 | a bullet on the other side hurts its target and leaves the list; otherwise nothing changes |
| World.FireShots | src/drones.ts:64 | one new bullet per shot is appended, with the shot's side, damage and floor |
| World.TouchDrop | src/drops.ts:16-19 | a taken drop applies its effect and leaves the list; a key is taken exactly when the floor has none |
| World.UseCore | src/interactables.ts:27-36 | a core below maximum refills the player and leaves the list; at maximum it alerts |
| World.PickUpDroneTarget | src/player.ts:78-82 | the player regains the drone's power, clamped, and the drone leaves the list |
| World.DeploySchematic | src/player.ts:85-98 | an allowed deploy pays and appends a fresh drone of the schematic on the current floor; a refused one alerts |
| World.Ride | src/interactables.ts:62-64 | riding destroys every drone with the corrected loop (DestroyDrones, not the written one that spares every second drone), moves the player by delta floors and places it at the origin |
| World.PressButton | src/interactables.ts:57-75 | a visible button rides the elevator, destroying every drone as the corrected loop does; otherwise the matching alert is raised and nothing else changes |
| World.DropLoot | src/enemies.ts:51-60 | the loot drops as LootFor decides, on the enemy's floor and spot; a key only where one can drop; a schematic never already owned |
| World.KeyDropOn | src/enemies.ts:51 | some key drop lies on the floor |
| World.CanDropKey | src/enemies.ts:51 | a key can drop when the floor's key was not found, its elevator is locked, it is not a boss floor and no key lies on it |
| World.LootDrop | src/enemies.ts:53-60 | the drop built for a loot: a key, a schematic or a power drop |
| World.EnemyDies | src/enemies.ts:47-64 | the kill is counted, the loot drops and the enemy leaves the list |
| World.DrainFloor | src/enemies.ts:119 | every enemy on the boss's floor loses all power and the others keep theirs |
| World.BossDies | src/enemies.ts:109-127 | the kill and the boss are counted, the floor is drained, the boss leaves the list, and the game is won from five bosses |
| World.PlayerDies | src/player.ts:116-120 | the game is lost |
| World.PoweredBossPylons | src/enemies.ts:93 | the count is positive exactly when a powered boss pylon is on the floor |
| World.BossTickOnFloor | src/enemies.ts:84-107 | a boss acts exactly when it is active, powered and its room was opened, and then advances its subtick (back to 0 after 16), otherwise it keeps subtick and draws; on every fourth subtick it steps at randInt(1, -1) * 64 on each axis with two draws, on the others it stands still; off subtick 16 it places nothing; on subtick 16 its wave is the fill, with the corrected roll, for the powered boss pylons of its floor of BossWaveTiles: the free cells around the boss that no enemy of its floor holds; each wave enemy is a catalogue enemy on one of them |
| World.Unoccupied | src/enemies.ts:95 | the filter keeps no more tiles than it was given |
| World.UnoccupiedMembers | src/enemies.ts:95 | the filter keeps exactly the tiles of the list that no enemy of the floor stands on |
| World.Occupied | src/enemies.ts:95 | some enemy of the floor stands on the tile, its mapX and mapY being the tile's |
| World.BossWaveTiles | src/enemies.ts:95 | the boss's wave tiles: getEmptyTiles of the 3 by 3 cells around the boss's tile, less those an enemy of its floor stands on |
| World.WaveTiles | src/enemies.ts:95 | getEmptyTiles of the 3 by 3 square around the boss's cell, then the filter, gives BossWaveTiles |
| World.BossWaveTilesAreAroundTheBoss | src/enemies.ts:95 | a tile is in the boss's wave tiles exactly when it is a free cell within one tile of the boss's cell, as its own centre, that no enemy of the floor holds |
| World.DroneCandidates | src/player.ts:123 | one candidate per drone: whether it is active on the current floor, and where it is |
| World.InteractableCandidates | src/player.ts:126 | one candidate per interactable: whether it is active on the current floor, and where it is |
| World.PlayerAction | src/player.ts:73-100 | the chosen target is ChooseTarget of the candidates, and the drone, interactable or schematic is acted on; a button ride destroys drones with the corrected loop |
| World.Act | src/player.ts:78-99 | a drone is picked up, an interactable used (a button ride with the corrected drone loop), or the schematic deployed |

## Left out

- HUD drawing, music (src/gamestate.ts:75-83), sounds, sprites and animations: presentation only. Bucket keeps the animation choice.
- Phaser physics, input devices, scenes and src/game.ts: collisions, overlaps and key states are parameters of the operations they trigger. src/scenes.ts is not part of this model.
- The camera fade in PressButton and the setTimeout delays of the boss's death are made atomic. The effect happens at once, with no time passing.
- The boss's explosion positions (src/enemies.ts:114-116) are visual only and are left out. Helpers.RandFloat models the helper they call.
- The tile map's wall layer and the room templates are parameters (`walls`). copyRect, clearRect, setElevator and the DEBUG graphics of src/floor.ts are not modelled.
- The per-entity update dispatch after the update filters is left to the caller. GameStates.GameState.Update returns the targets; the entity methods model each update.
- Entities pushed during the spawn pass wait, unspawned, until the next frame's pass. The first frame on a floor is therefore modelled in two steps.
- World.DestroyDronesAsWritten: it requires that no two drones share a lifecycle, which the source never violates.
- World.PlayerAction: it requires that the player's unit belongs to no drone, which the source never violates.
- Bullets.Bullet.Update: a tracker's normalised re-aim towards its target is the `aim` parameter.
- Base.Unit.Hurt: the knockback direction (src/player.ts:67-70) is not modelled.
- Floors.Floor.Initialize assigns the whole room record at once instead of eight fields.
- getContextTargetText and actionText are display text and are left out.
- The room spawns, and every floor operation built on them, run the corrected core and budget rolls of the Findings, not the written `randInt(0, 2)` and `randInt(0, 5 + floorIndex) * 5`. Floors.CoreRollAsWritten and Floors.BudgetRollAsWritten model the written ones.
- RoomSpawnFills: states the room spawn with CoreRoll and BudgetRoll, the corrected rolls, rather than the written ones.
- SetRoom: a room's contents are those of the corrected rolls, not the written ones.
- SpawnRoom: draws the corrected core and budget rolls, not the written ones.
- RoomSpawn: rolls the cores with CoreRoll and the budget with BudgetRoll, the corrected rolls, not the written `randInt(0, 2)` and `randInt(0, 5 + floorIndex) * 5`.
- LaySlot: a laid room's contents are those of the corrected rolls, not the written ones.
- LayUpperRooms: the upper rooms' contents are those of the corrected rolls, not the written ones.
- LayLowerRooms: the lower rooms' contents are those of the corrected rolls, not the written ones.
- LayRooms: the floor's room contents are those of the corrected rolls, not the written ones.
- Spawn: the first spawn's room contents are those of the corrected rolls, not the written ones.
- FloorSpawn: the first spawn's room contents are those of the corrected rolls, not the written ones.
- SpawnFloor: the first spawn's plan is FirstSpawn, whose room contents are those of the corrected rolls, not the written ones.
- BossTick: the wave budget uses WaveRoll, the corrected roll, not the written `randInt(1, 1 + pylonsActive)` that WaveRollAsWritten models.
- BossWave: the budget uses WaveRoll, the corrected roll, not the written one.
- BossWaveFill: the budget uses WaveRoll, the corrected roll, not the written `randInt(1, 1 + pylonsActive)`.
- BossTickOnFloor: the wave budget uses WaveRoll, the corrected roll, not the written one.
- Ride: destroys drones with DestroyDrones, the corrected loop, not the written loop that DestroyDronesAsWritten models and that spares every second drone.
- PressButton: a ride destroys drones with the corrected loop, not the written one.
- PlayerAction: a button ride destroys drones with the corrected loop, not the written one.
- Act: a button ride destroys drones with the corrected loop, not the written one.
- JavaScript numbers are doubles. Positions are `real` and counters `int`, and no value in the core comes near 2^53, so rounding is not modelled.

## Findings

| source | as written | input that shows it | evidently intended | confidence | as-written member | corrected member |
|---|---|---|---|---|---|---|
| src/interactables.ts:62 | `for (const d of drones) d.destroy()` splices the list it iterates over, so the loop skips every second drone | two drones deployed when the elevator is taken: the second stays in the list | every drone is destroyed | not executed | World.DestroyDronesAsWritten | World.DestroyDrones |
| src/floor.ts:196 | `randInt(0, 2)` passes max and min swapped, giving 1, or 2 only for a draw of exactly 0 | any draw above 0 gives 1 core | 0 to 2 cores, each with equal chance | not executed | Floors.CoreRollAsWritten | Floors.CoreRollIsRandInt |
| src/floor.ts:197 | `randInt(0, 5 + floorIndex) * 5` with swapped arguments is never 0 | a draw of 0 gives 5 * (5 + floorIndex) instead of 0 | a budget from 0 to 5 * (5 + floorIndex) in steps of 5 | not executed | Floors.BudgetRollAsWritten | Floors.BudgetRoll |
| src/helpers.ts:8 | `min + (max + 1 - min) * Math.random()` reuses randInt's width, so a float can land above max | randFloat(x + 24, x - 24) with a draw of 0.99 gives x + 24.51 | a real in [min, max) | not executed | Helpers.RandFloat | Helpers.RandFloatWithin |
| src/enemies.ts:94 | `randInt(1, 1 + pylonsActive)` with swapped arguments never gives 1 once a boss pylon is powered | one powered boss pylon: the roll is always 2 | a roll from 1 to 1 + pylonsActive | not executed | Enemies.WaveRollAsWritten | Enemies.WaveRoll |
