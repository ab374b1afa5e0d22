/**
 * A floor: eight room slots around the elevator hall, rolled once when the
 * floor is first spawned; the doors between the rooms; the enemies and
 * power cores its rooms are filled with the first time they are laid out;
 * and the latches that open the boss room, open the boss elevator and
 * unlock the elevator down.
 *
 * The wall layer is not modelled tile by tile: `walls(x, y)` is the index of
 * the wall tile at column `x`, row `y` once the rooms are laid out (-1 for
 * an empty cell), and the door tiles are kept as a map from door to open.
 */
module Floors {
  import opened Helpers
  import opened Base
  import opened Schematics
  import opened Elements
  import opened Enemies
  import opened Interactables

  /** The eight room slots around the elevator hall, clockwise from the top left. */
  datatype Slot = UpLeft | UpCenter | UpRight | CenterRight | DownRight | DownCenter | DownLeft | CenterLeft

  /** The room type of each slot: -1 for no room, otherwise one of the four room layouts. */
  datatype Rooms = Rooms(upLeft: int, upCenter: int, upRight: int, centerRight: int,
                         downRight: int, downCenter: int, downLeft: int, centerLeft: int)

  /** A fresh floor has no rooms yet. */
  const NO_ROOMS: Rooms := Rooms(-1, -1, -1, -1, -1, -1, -1, -1)

  function TypeOf(r: Rooms, s: Slot): int
  {
    match s
    case UpLeft => r.upLeft
    case UpCenter => r.upCenter
    case UpRight => r.upRight
    case CenterRight => r.centerRight
    case DownRight => r.downRight
    case DownCenter => r.downCenter
    case DownLeft => r.downLeft
    case CenterLeft => r.centerLeft
  }

  /** The `hasRoom*` getters: a slot has a room when its type is set; on a boss floor the boss room counts as the top one. */
  predicate Present(r: Rooms, floorNumber: int, s: Slot)
  {
    TypeOf(r, s) >= 0 || (s == UpCenter && floorNumber == 4)
  }

  /** The chance `randomRoomType` gives a slot a room on the `floorNumber`-th floor of a section. */
  function RoomChance(floorNumber: int): real
  {
    0.25 + 0.2 * floorNumber as real
  }

  /**
   * `randInt(3)`, by quarters of the draw; `RoomTypeIsRandInt` shows that
   * it is that roll.
   */
  function RoomTypeRoll(draw: Draw): int
  {
    if draw < 0.25 then 0 else if draw < 0.5 then 1 else if draw < 0.75 then 2 else 3
  }

  lemma RoomTypeIsRandInt(draw: Draw)
    ensures RandInt(3, 0, draw) == RoomTypeRoll(draw)
  {
    ScaleIsProduct(4, draw);
  }

  /**
   * `randomRoomType` from draw `k` on: never a room on a boss floor (and no
   * draw), otherwise a room of a random type 0 to 3 with `RoomChance`.
   * Returns the type and the number of the next draw.
   */
  function RoomRoll(floorNumber: int, stream: nat -> Draw, k: nat): (r: (int, nat))
    ensures -1 <= r.0 <= 3
    ensures r.0 >= 0 <==> floorNumber != 4 && stream(k) < RoomChance(floorNumber)
    ensures k <= r.1 <= k + 2
  {
    if floorNumber == 4 then (-1, k)
    else if stream(k) < RoomChance(floorNumber) then (RoomTypeRoll(stream(k + 1)), k + 2)
    else (-1, k + 1)
  }

  /** Every room type can come up on a floor that is not a boss floor. */
  lemma EveryRoomTypeCanComeUp(floorNumber: int, t: nat, stream: nat -> Draw, k: nat)
    requires 0 <= floorNumber < 4 && t <= 3
    requires stream(k) == 0.0 && stream(k + 1) == t as real / 4.0
    ensures RoomRoll(floorNumber, stream, k) == (t as int, k + 2)
  {
  }

  /** A corner slot's roll: a room roll when `roll`, otherwise no room and no draw. */
  function CornerRoll(floorNumber: int, stream: nat -> Draw, k: nat, roll: bool): (r: (int, nat))
    ensures -1 <= r.0 <= 3 && k <= r.1 <= k + 2
    ensures r.0 >= 0 ==> roll
  {
    if roll then RoomRoll(floorNumber, stream, k) else (-1, k)
  }

  /**
   * `initialize` from draw `k` on: the four edge slots first, then each
   * corner whose two neighbouring edge slots include a room. Returns the
   * slots and the number of the next draw.
   */
  function Layout(floorNumber: int, stream: nat -> Draw, k: nat): (Rooms, nat)
  {
    var uc := RoomRoll(floorNumber, stream, k);
    var cr := RoomRoll(floorNumber, stream, uc.1);
    var dc := RoomRoll(floorNumber, stream, cr.1);
    var cl := RoomRoll(floorNumber, stream, dc.1);
    var hasUpCenter := uc.0 >= 0 || floorNumber == 4;
    var ul := CornerRoll(floorNumber, stream, cl.1, cl.0 >= 0 || hasUpCenter);
    var ur := CornerRoll(floorNumber, stream, ul.1, hasUpCenter || cr.0 >= 0);
    var dr := CornerRoll(floorNumber, stream, ur.1, cr.0 >= 0 || dc.0 >= 0);
    var dl := CornerRoll(floorNumber, stream, dr.1, dc.0 >= 0 || cl.0 >= 0);
    (Rooms(ul.0, uc.0, ur.0, cr.0, dr.0, dc.0, dl.0, cl.0), dl.1)
  }

  /** `Layout` is the chain of its rolls, each taken where the one before it stopped. */
  lemma LayoutOfRolls(floorNumber: int, stream: nat -> Draw, k: nat, u: (int, nat), c: (int, nat), d: (int, nat),
                      l: (int, nat), ul: (int, nat), ur: (int, nat), dr: (int, nat), dl: (int, nat))
    requires u == RoomRoll(floorNumber, stream, k) && c == RoomRoll(floorNumber, stream, u.1)
    requires d == RoomRoll(floorNumber, stream, c.1) && l == RoomRoll(floorNumber, stream, d.1)
    requires ul == CornerRoll(floorNumber, stream, l.1, l.0 >= 0 || u.0 >= 0 || floorNumber == 4)
    requires ur == CornerRoll(floorNumber, stream, ul.1, u.0 >= 0 || floorNumber == 4 || c.0 >= 0)
    requires dr == CornerRoll(floorNumber, stream, ur.1, c.0 >= 0 || d.0 >= 0)
    requires dl == CornerRoll(floorNumber, stream, dr.1, d.0 >= 0 || l.0 >= 0)
    ensures Layout(floorNumber, stream, k) == (Rooms(ul.0, u.0, ur.0, c.0, dr.0, d.0, dl.0, l.0), dl.1)
  {
  }

  /**
   * A laid-out floor: every slot is empty or one of the four types; a boss
   * floor has no rooms at all (and uses no draws); a corner has a room only
   * when one of its two neighbouring edge slots has one, so every room can
   * be reached from the hall.
   */
  lemma LayoutRules(floorNumber: int, stream: nat -> Draw, k: nat)
    ensures var (r, next) := Layout(floorNumber, stream, k);
      (forall s :: -1 <= TypeOf(r, s) <= 3) &&
      (floorNumber == 4 ==> r == NO_ROOMS && next == k) &&
      (r.upLeft >= 0 ==> r.centerLeft >= 0 || r.upCenter >= 0) &&
      (r.upRight >= 0 ==> r.upCenter >= 0 || r.centerRight >= 0) &&
      (r.downRight >= 0 ==> r.centerRight >= 0 || r.downCenter >= 0) &&
      (r.downLeft >= 0 ==> r.downCenter >= 0 || r.centerLeft >= 0) &&
      k <= next <= k + 16
  {
  }

  /** A door tile pair: vertical doors span two columns of a row, horizontal ones two rows of a column. */
  datatype Door = Door(vertical: bool, x: int, y: int)

  /** `setVerticalDoor` / `setHorizontalDoor`. */
  function SetDoor(doors: map<Door, bool>, d: Door, open: bool): map<Door, bool>
  {
    doors[d := open]
  }

  /**
   * `setRoomDoors` for the room at tile (dx, dy): a neighbour flag of
   * `None` leaves that door alone, `Some(b)` opens it (b) or closes it.
   */
  function WithDoors(doors: map<Door, bool>, dx: int, dy: int,
                     up: Option<bool>, right: Option<bool>, down: Option<bool>, left: Option<bool>): map<Door, bool>
  {
    var d1 := if up.Some? then SetDoor(doors, Door(true, dx + 3, dy), up.value) else doors;
    var d2 := if down.Some? then SetDoor(d1, Door(true, dx + 3, dy + 7), down.value) else d1;
    var d3 := if left.Some? then SetDoor(d2, Door(false, dx, dy + 3), left.value) else d2;
    if right.Some? then SetDoor(d3, Door(false, dx + 7, dy + 3), right.value) else d3
  }

  /** The door of a room on side `side` (0 up, 1 right, 2 down, 3 left). */
  function DoorOf(dx: int, dy: int, side: int): Door
  {
    if side == 0 then Door(true, dx + 3, dy)
    else if side == 1 then Door(false, dx + 7, dy + 3)
    else if side == 2 then Door(true, dx + 3, dy + 7)
    else Door(false, dx, dy + 3)
  }

  /** What a side's neighbour flag says should happen to the door: `None` is keep it. */
  function SideFlag(side: int, up: Option<bool>, right: Option<bool>, down: Option<bool>, left: Option<bool>): Option<bool>
  {
    if side == 0 then up else if side == 1 then right else if side == 2 then down else left
  }

  /**
   * A room's four doors are distinct; each one is set exactly to its flag
   * when the flag is given and kept otherwise, and no other door changes.
   */
  lemma WithDoorsSetsExactlyTheGivenSides(doors: map<Door, bool>, dx: int, dy: int,
                                           up: Option<bool>, right: Option<bool>, down: Option<bool>, left: Option<bool>)
    ensures var r := WithDoors(doors, dx, dy, up, right, down, left);
      (forall side | 0 <= side < 4 ::
         (SideFlag(side, up, right, down, left).Some? ==>
            DoorOf(dx, dy, side) in r && r[DoorOf(dx, dy, side)] == SideFlag(side, up, right, down, left).value) &&
         (SideFlag(side, up, right, down, left).None? ==>
            (DoorOf(dx, dy, side) in r <==> DoorOf(dx, dy, side) in doors) &&
            (DoorOf(dx, dy, side) in doors ==> r[DoorOf(dx, dy, side)] == doors[DoorOf(dx, dy, side)]))) &&
      (forall d | d != DoorOf(dx, dy, 0) && d != DoorOf(dx, dy, 1) && d != DoorOf(dx, dy, 2) && d != DoorOf(dx, dy, 3) ::
         (d in r <==> d in doors) && (d in doors ==> r[d] == doors[d]))
  {
  }

  /** The top-left tile of a slot's 8 by 8 room. */
  function OriginX(s: Slot): int
  {
    match s
    case UpLeft => 0
    case UpCenter => 8
    case UpRight => 16
    case CenterRight => 16
    case DownRight => 16
    case DownCenter => 8
    case DownLeft => 0
    case CenterLeft => 0
  }

  function OriginY(s: Slot): int
  {
    match s
    case UpLeft => 24
    case UpCenter => 24
    case UpRight => 24
    case CenterRight => 32
    case DownRight => 40
    case DownCenter => 40
    case DownLeft => 40
    case CenterLeft => 32
  }

  /** The elevator hall's room, in the middle. */
  const HALL_X: int := 8
  const HALL_Y: int := 32

  /** A slot `spawn` lays out: one with a room, except the boss floor's top one, which its boss room replaces. */
  predicate Laid(r: Rooms, floorNumber: int, s: Slot)
  {
    TypeOf(r, s) >= 0 && !(s == UpCenter && floorNumber == 4)
  }

  /**
   * The (up, right, down, left) neighbour flags `spawn` passes to `setRoom`
   * for slot `s`: a side towards another slot is open when that slot has a
   * room, a side towards the hall always is, an outer side is left alone.
   */
  function DoorFlags(r: Rooms, floorNumber: int, s: Slot): (Option<bool>, Option<bool>, Option<bool>, Option<bool>)
  {
    var has := (t: Slot) => Present(r, floorNumber, t);
    match s
    case UpLeft => (None, Some(has(UpCenter)), Some(has(CenterLeft)), None)
    case UpCenter => (None, Some(has(UpRight)), Some(true), Some(has(UpLeft)))
    case UpRight => (None, None, Some(has(CenterRight)), Some(has(UpCenter)))
    case CenterRight => (Some(has(UpRight)), None, Some(has(DownRight)), Some(true))
    case DownRight => (Some(has(CenterRight)), None, None, Some(has(DownCenter)))
    case DownCenter => (Some(true), Some(has(DownRight)), None, Some(has(DownLeft)))
    case DownLeft => (Some(has(CenterLeft)), Some(has(DownCenter)), None, None)
    case CenterLeft => (Some(has(UpLeft)), Some(true), Some(has(DownLeft)), None)
  }

  /** The doors `setRoom` leaves for slot `s` during `spawn`. */
  function SlotDoors(doors: map<Door, bool>, r: Rooms, floorNumber: int, s: Slot): map<Door, bool>
  {
    if Laid(r, floorNumber, s) then
      var f := DoorFlags(r, floorNumber, s);
      WithDoors(doors, OriginX(s), OriginY(s), f.0, f.1, f.2, f.3)
    else doors
  }

  /** The doors of the first four slots `spawn` lays, in its order: the top row, then the right one. */
  function UpperDoors(doors: map<Door, bool>, r: Rooms, floorNumber: int): map<Door, bool>
  {
    var d1 := SlotDoors(doors, r, floorNumber, UpLeft);
    var d2 := SlotDoors(d1, r, floorNumber, UpCenter);
    var d3 := SlotDoors(d2, r, floorNumber, UpRight);
    SlotDoors(d3, r, floorNumber, CenterRight)
  }

  /** The doors of the last four slots `spawn` lays, in its order: the bottom row, then the left one. */
  function LowerDoors(doors: map<Door, bool>, r: Rooms, floorNumber: int): map<Door, bool>
  {
    var d1 := SlotDoors(doors, r, floorNumber, DownRight);
    var d2 := SlotDoors(d1, r, floorNumber, DownCenter);
    var d3 := SlotDoors(d2, r, floorNumber, DownLeft);
    SlotDoors(d3, r, floorNumber, CenterLeft)
  }

  /** The doors `spawn` sets: each laid room's, in its order, then the hall's towards the edge slots. */
  function SpawnDoors(doors: map<Door, bool>, r: Rooms, floorNumber: int): map<Door, bool>
  {
    WithDoors(LowerDoors(UpperDoors(doors, r, floorNumber), r, floorNumber), HALL_X, HALL_Y,
              Some(Present(r, floorNumber, UpCenter)), Some(Present(r, floorNumber, CenterRight)),
              Some(Present(r, floorNumber, DownCenter)), Some(Present(r, floorNumber, CenterLeft)))
  }

  /** After a spawn the hall's door towards each edge slot is open exactly when that slot has a room. */
  lemma HallDoorsOpenTowardsRooms(doors: map<Door, bool>, r: Rooms, floorNumber: int)
    ensures var d := SpawnDoors(doors, r, floorNumber);
      DoorOf(HALL_X, HALL_Y, 0) in d && d[DoorOf(HALL_X, HALL_Y, 0)] == Present(r, floorNumber, UpCenter) &&
      DoorOf(HALL_X, HALL_Y, 1) in d && d[DoorOf(HALL_X, HALL_Y, 1)] == Present(r, floorNumber, CenterRight) &&
      DoorOf(HALL_X, HALL_Y, 2) in d && d[DoorOf(HALL_X, HALL_Y, 2)] == Present(r, floorNumber, DownCenter) &&
      DoorOf(HALL_X, HALL_Y, 3) in d && d[DoorOf(HALL_X, HALL_Y, 3)] == Present(r, floorNumber, CenterLeft)
  {
  }

  /** The `{ x, y, tx, ty }` record `getEmptyTiles` makes of cell (tx, ty): its centre and its cell. */
  function TileOf(tx: int, ty: int): Tile
  {
    Tile(TileCenterX(tx), TileCenterY(ty), tx, ty)
  }

  /** The free cells of column `x` from row `y0` up to (not including) row `y1`, top to bottom. */
  function EmptyColumn(walls: (int, int) -> int, x: int, y0: int, y1: int): seq<Tile>
    decreases y1 - y0
  {
    if y1 <= y0 then []
    else EmptyColumn(walls, x, y0, y1 - 1) + (if walls(x, y1 - 1) == -1 then [TileOf(x, y1 - 1)] else [])
  }

  /** The free cells of the columns `x0` up to `x1` (not included), column by column. */
  function EmptyRect(walls: (int, int) -> int, x0: int, x1: int, y0: int, y1: int): seq<Tile>
    decreases x1 - x0
  {
    if x1 <= x0 then []
    else EmptyRect(walls, x0, x1 - 1, y0, y1) + EmptyColumn(walls, x1 - 1, y0, y1)
  }

  lemma {:induction false} EmptyColumnMembers(walls: (int, int) -> int, x: int, y0: int, y1: int, t: Tile)
    ensures t in EmptyColumn(walls, x, y0, y1) <==>
      t.tx == x && y0 <= t.ty < y1 && walls(x, t.ty) == -1 && t == TileOf(x, t.ty)
    ensures |EmptyColumn(walls, x, y0, y1)| <= if y1 <= y0 then 0 else y1 - y0
    decreases y1 - y0
  {
    if y1 > y0 {
      EmptyColumnMembers(walls, x, y0, y1 - 1, t);
    }
  }

  /**
   * `getEmptyTiles` finds exactly the free cells of the rectangle, each as
   * its own centre, and no more of them than the rectangle has cells.
   */
  lemma {:induction false} EmptyRectMembers(walls: (int, int) -> int, x0: int, x1: int, y0: int, y1: int, t: Tile)
    requires y0 <= y1
    ensures t in EmptyRect(walls, x0, x1, y0, y1) <==>
      x0 <= t.tx < x1 && y0 <= t.ty < y1 && walls(t.tx, t.ty) == -1 && t == TileOf(t.tx, t.ty)
    ensures |EmptyRect(walls, x0, x1, y0, y1)| <= if x1 <= x0 then 0 else (x1 - x0) * (y1 - y0)
    decreases x1 - x0
  {
    if x1 > x0 {
      EmptyRectMembers(walls, x0, x1 - 1, y0, y1, t);
      EmptyColumnMembers(walls, x1 - 1, y0, y1, t);
      assert (x1 - 1 - x0) * (y1 - y0) + (y1 - y0) == (x1 - x0) * (y1 - y0);
    }
  }

  /** The free cells of the room with its corner at (sx, sy), inside its walls: the 6 by 6 cells within its border. */
  function RoomFree(walls: (int, int) -> int, sx: int, sy: int): seq<Tile>
  {
    EmptyRect(walls, sx + 1, sx + 7, sy + 1, sy + 7)
  }

  /**
   * A free cell inside the walls of the room with its corner at (sx, sy),
   * and (x, y) its centre: where a room's enemies and power cores may stand.
   */
  predicate FreeCellOf(walls: (int, int) -> int, sx: int, sy: int, x: real, y: real)
  {
    var tx := MapX(x);
    var ty := MapY(y);
    sx + 1 <= tx <= sx + 6 && sy + 1 <= ty <= sy + 6 &&
    walls(tx, ty) == -1 && x == TileCenterX(tx) && y == TileCenterY(ty)
  }

  /** A room has at most 36 free cells, and each is a free cell inside its walls, named by its centre. */
  lemma RoomFreeCells(walls: (int, int) -> int, sx: int, sy: int)
    ensures |RoomFree(walls, sx, sy)| <= 36
    ensures forall t :: t in RoomFree(walls, sx, sy) ==> FreeCellOf(walls, sx, sy, t.x, t.y)
  {
    EmptyRectMembers(walls, sx + 1, sx + 7, sy + 1, sy + 7, TileOf(0, 0));
    forall t | t in RoomFree(walls, sx, sy)
      ensures FreeCellOf(walls, sx, sy, t.x, t.y)
    {
      EmptyRectMembers(walls, sx + 1, sx + 7, sy + 1, sy + 7, t);
      TileCentresMatchTheSnap(t.tx, t.ty, 0.0);
    }
  }

  /**
   * The power cores of a room, `randInt(2)`: none to two, by thirds of the
   * draw; `CoreRollIsRandInt` shows that it is that roll.
   */
  function CoreRoll(draw: Draw): int
  {
    if draw < 1.0 / 3.0 then 0 else if draw < 2.0 / 3.0 then 1 else 2
  }

  lemma CoreRollIsRandInt(draw: Draw)
    ensures RandInt(2, 0, draw) == CoreRoll(draw)
  {
    ScaleIsProduct(3, draw);
  }

  /** The power core count as `spawnRoom` writes it, `randInt(0, 2)`: one core, two only on a draw of exactly 0. */
  function CoreRollAsWritten(draw: Draw): (n: int)
    ensures n == if draw == 0.0 then 2 else 1
  {
    ScaleIsProduct(-1, draw);
    RandInt(0, 2, draw)
  }

  /** A room's enemy budget: five times a random 0 to 5 plus the floor's index. */
  function BudgetRoll(floorIndex: int, draw: Draw): (b: int)
    ensures floorIndex >= -5 ==> 0 <= b <= 5 * (5 + floorIndex) && b % 5 == 0
  {
    RandInt(5 + floorIndex, 0, draw) * 5
  }

  /**
   * The budget as `spawnRoom` writes it, `randInt(0, 5 + floorIndex) * 5`:
   * never 0, but as low as 5, which affords no catalogue enemy, so a room
   * can still be empty.
   */
  function BudgetRollAsWritten(floorIndex: int, draw: Draw): (b: int)
    ensures floorIndex >= -4 ==> 5 <= b <= 5 * (5 + floorIndex)
  {
    RandInt(0, 5 + floorIndex, draw) * 5
  }

  /** Every budget from 0 to 5 times (5 + floorIndex), in steps of 5, can come up; 0 gives an empty room. */
  lemma EveryBudgetCanComeUp(floorIndex: nat, v: nat)
    requires v <= 5 + floorIndex
    ensures BudgetRoll(floorIndex, v as real / (6 + floorIndex) as real) == 5 * v
  {
    RandIntReachesEveryValue(5 + floorIndex, v);
  }

  /** As written the budget is never 0, where the intended roll gives 0 for a draw of 0. */
  lemma BudgetAsWrittenIsNeverZero(floorIndex: nat, draw: Draw)
    ensures BudgetRollAsWritten(floorIndex, draw) != 0
    ensures BudgetRoll(floorIndex, 0.0) == 0
  {
    ScaleIsProduct(6 + floorIndex, 0.0);
  }

  /**
   * A written budget of 5 still leaves a room empty: on floor 0 a draw of
   * 0.9 rolls 5, which affords nothing, so the fill takes one cell and
   * places no enemy.
   */
  lemma BudgetAsWrittenCanLeaveARoomEmpty(tiles: seq<Tile>, stream: nat -> Draw, k: nat)
    ensures BudgetRollAsWritten(0, 0.9) == 5
    ensures Fill(ENEMY_SCHEMATICS, tiles, 5, stream, k).placements == []
  {
    ScaleIsProduct(-4, 0.9);
    NothingAffordableBelow10(5);
  }

  /**
   * The `for (i < powerCores && tiles.length)` loop from `acc` on: up to
   * `n` more tiles popped from the end of `rest`.
   */
  function PopFrom(rest: seq<Tile>, n: int, acc: seq<Tile>): seq<Tile>
    decreases |rest|
  {
    if n <= 0 || |rest| == 0 then acc
    else PopFrom(rest[..|rest| - 1], n - 1, acc + [rest[|rest| - 1]])
  }

  /** The loop pops `min(n, |rest|)` tiles, all of them from `rest`, after the ones it had. */
  lemma {:induction false} PopFromTakesFromRest(rest: seq<Tile>, n: int, acc: seq<Tile>)
    ensures var r := PopFrom(rest, n, acc);
      |r| == |acc| + (if n <= 0 then 0 else MinInt(n, |rest|)) && r[..|acc|] == acc &&
      forall j :: |acc| <= j < |r| ==> r[j] in rest
    decreases |rest|
  {
    if n > 0 && |rest| > 0 {
      var acc' := acc + [rest[|rest| - 1]];
      PopFromTakesFromRest(rest[..|rest| - 1], n - 1, acc');
      var r := PopFrom(rest[..|rest| - 1], n - 1, acc');
      assert r[..|acc|] == acc'[..|acc|] == acc;
      forall j | |acc| <= j < |r|
        ensures r[j] in rest
      {
        if j == |acc| {
          assert r[j] == acc'[j];
        } else {
          assert r[j] in rest[..|rest| - 1];
        }
      }
    }
  }

  /** The power core loop of `spawnRoom`: pops up to `n` cells off the end of `rest`. */
  method TakeCores(rest: seq<Tile>, n: int) returns (cores: seq<Tile>)
    ensures cores == PopFrom(rest, n, [])
  {
    var tiles := rest;
    cores := [];
    var i := 0;
    while i < n && |tiles| > 0
      invariant PopFrom(tiles, n - i, cores) == PopFrom(rest, n, [])
      decreases |tiles|
    {
      cores := cores + [tiles[|tiles| - 1]];
      tiles := tiles[..|tiles| - 1];
      i := i + 1;
    }
  }

  /** What a room gets: its enemies, its power cores and the number of the next draw. */
  datatype RoomContents = RoomContents(enemies: seq<Placement>, cores: seq<Tile>, next: nat)

  /**
   * The two loops of `spawnRoom` over the shuffled free cells `tiles`, from
   * draw `k` on: enemies are filled from the end of the cells with `budget`,
   * then up to `cores` power cores go on the next cells from the end.
   */
  function RoomFill(tiles: seq<Tile>, cores: int, budget: int, stream: nat -> Draw, k: nat): RoomContents
  {
    var r := Fill(ENEMY_SCHEMATICS, tiles, budget, stream, k);
    RoomContents(r.placements, PopFrom(r.tiles, cores, []), r.next)
  }

  /**
   * The loops never put more enemies and power cores together on the cells
   * than there are cells, put at most `cores` power cores, and spend no more
   * than a non-negative budget, at least 10 per enemy.
   */
  lemma RoomFillIsBounded(tiles: seq<Tile>, cores: int, budget: int, stream: nat -> Draw, k: nat)
    requires budget >= 0
    ensures var c := RoomFill(tiles, cores, budget, stream, k);
      |c.cores| <= (if cores <= 0 then 0 else cores) && |c.enemies| + |c.cores| <= |tiles| &&
      0 <= Spent(c.enemies) <= budget && 10 * |c.enemies| <= budget && c.next == k + 2 * |c.enemies|
  {
    var r := Fill(ENEMY_SCHEMATICS, tiles, budget, stream, k);
    NothingAffordableBelow10(budget);
    FillStaysWithinBudget(ENEMY_SCHEMATICS, tiles, budget, stream, k, []);
    FillSpendsTheBudget(ENEMY_SCHEMATICS, tiles, budget, stream, k, []);
    FillUsesTilesFromTheEnd(ENEMY_SCHEMATICS, tiles, budget, stream, k, []);
    FillPlacesAtMostOnePer10(ENEMY_SCHEMATICS, tiles, budget, stream, k);
    PopFromTakesFromRest(r.tiles, cores, []);
  }

  /** Every enemy of the loops stands on one of the cells, and every power core is one of them. */
  lemma RoomFillUsesTheTiles(tiles: seq<Tile>, cores: int, budget: int, stream: nat -> Draw, k: nat)
    ensures var c := RoomFill(tiles, cores, budget, stream, k);
      (forall p :: p in c.enemies ==> p.schematic in ENEMY_SCHEMATICS && exists t :: t in tiles && t.x == p.x && t.y == p.y) &&
      (forall t :: t in c.cores ==> t in tiles)
  {
    var r := Fill(ENEMY_SCHEMATICS, tiles, budget, stream, k);
    var c := RoomFill(tiles, cores, budget, stream, k);
    FillPlacesCatalogueEnemies(ENEMY_SCHEMATICS, tiles, budget, stream, k, []);
    FillUsesTilesFromTheEnd(ENEMY_SCHEMATICS, tiles, budget, stream, k, []);
    PopFromTakesFromRest(r.tiles, cores, []);
    forall p | p in c.enemies
      ensures p.schematic in ENEMY_SCHEMATICS && exists t :: t in tiles && t.x == p.x && t.y == p.y
    {
      var i :| 0 <= i < |r.placements| && r.placements[i] == p;
      assert tiles[|tiles| - 1 - i] in tiles;
    }
    forall t | t in c.cores
      ensures t in tiles
    {
      var j :| 0 <= j < |c.cores| && c.cores[j] == t;
      assert t in r.tiles;
    }
  }

  /**
   * `spawnRoom` on floor `floorIndex` for a room whose free cells are
   * `free`, from draw `k` on: shuffle the cells, roll the power cores and
   * the budget, then fill.
   */
  function RoomSpawn(free: seq<Tile>, floorIndex: int, stream: nat -> Draw, k: nat): RoomContents
  {
    var k1 := k + (if |free| == 0 then 0 else |free| - 1);
    RoomFill(Shuffled(free, stream, k), CoreRoll(stream(k1)), BudgetRoll(floorIndex, stream(k1 + 1)), stream, k1 + 2)
  }

  /** `RoomSpawn` is the fill of the shuffled cells with the rolls that follow the shuffle's draws. */
  lemma RoomSpawnFills(free: seq<Tile>, floorIndex: int, stream: nat -> Draw, k0: nat,
                       tiles: seq<Tile>, cores: int, budget: int, k: nat)
    requires tiles == Shuffled(free, stream, k0)
    requires var k1 := k0 + (if |free| == 0 then 0 else |free| - 1);
      cores == CoreRoll(stream(k1)) && budget == BudgetRoll(floorIndex, stream(k1 + 1)) && k == k1 + 2
    ensures RoomSpawn(free, floorIndex, stream, k0) == RoomFill(tiles, cores, budget, stream, k)
  {
  }

  /**
   * A room never holds more enemies and power cores together than it has
   * free cells, holds at most two cores, and its enemies cost no more than
   * its budget, which is never negative, at most 5 times (5 + floorIndex),
   * and pays at least 10 per enemy. It draws once per cell after the first
   * for the shuffle, twice for the rolls and twice per enemy.
   */
  lemma RoomSpawnIsBounded(free: seq<Tile>, floorIndex: nat, stream: nat -> Draw, k: nat)
    ensures var c := RoomSpawn(free, floorIndex, stream, k);
      var budget := BudgetRoll(floorIndex, stream(k + (if |free| == 0 then 0 else |free| - 1) + 1));
      |c.cores| <= 2 && |c.enemies| + |c.cores| <= |free| &&
      0 <= Spent(c.enemies) <= budget <= 5 * (5 + floorIndex) && 10 * |c.enemies| <= budget &&
      c.next == k + (if |free| == 0 then 0 else |free| - 1) + 2 + 2 * |c.enemies|
  {
    var k1 := k + (if |free| == 0 then 0 else |free| - 1);
    RoomFillIsBounded(Shuffled(free, stream, k), CoreRoll(stream(k1)), BudgetRoll(floorIndex, stream(k1 + 1)), stream, k1 + 2);
  }

  /** Every enemy of a room stands on one of its free cells, and every power core is one of them. */
  lemma RoomSpawnUsesTheFreeCells(free: seq<Tile>, floorIndex: int, stream: nat -> Draw, k: nat)
    ensures var c := RoomSpawn(free, floorIndex, stream, k);
      (forall p :: p in c.enemies ==> p.schematic in ENEMY_SCHEMATICS && exists t :: t in free && t.x == p.x && t.y == p.y) &&
      (forall t :: t in c.cores ==> t in free)
  {
    var tiles := Shuffled(free, stream, k);
    var k1 := k + (if |free| == 0 then 0 else |free| - 1);
    RoomFillUsesTheTiles(tiles, CoreRoll(stream(k1)), BudgetRoll(floorIndex, stream(k1 + 1)), stream, k1 + 2);
    forall t | t in tiles
      ensures t in free
    {
      assert t in multiset(free);
    }
  }

  /** An elevator button to create: where, which way it goes, whether it is in the hall. */
  datatype ButtonSpot = ButtonSpot(x: real, y: real, delta: int, main: bool)

  /** A pylon to create, and whether it is one of the boss's. */
  datatype PylonSpot = PylonSpot(x: real, y: real, boss: bool)

  /** The objects a spawn creates on the floor, for the game state to add to its lists. */
  datatype SpawnPlan = SpawnPlan(enemies: seq<Placement>, cores: seq<Tile>, buttons: seq<ButtonSpot>,
                                 pylons: seq<PylonSpot>, boss: Option<Point>)

  const NOTHING_SPAWNED: SpawnPlan := SpawnPlan([], [], [], [], None)

  /** `spawn`'s buttons: down in the hall except on a boss floor, up in the hall except on a top floor, down in the boss room. */
  function ElevatorButtons(floorNumber: int): seq<ButtonSpot>
  {
    (if floorNumber != 4 then [ButtonSpot(-64.0, -80.0, 1, true)] else []) +
    (if floorNumber != 0 then [ButtonSpot(64.0, -80.0, -1, true)] else []) +
    (if floorNumber == 4 then [ButtonSpot(-64.0, -1104.0, 1, false)] else [])
  }

  /**
   * Every button a floor creates is valid on it; every floor of a section
   * has a button down, and a button up unless it is the section's top floor.
   */
  lemma ElevatorButtonsAreValid(floorNumber: int)
    requires 0 <= floorNumber < 5
    ensures forall b | b in ElevatorButtons(floorNumber) :: IsValidOnFloor(b.main, b.delta, floorNumber)
    ensures exists b | b in ElevatorButtons(floorNumber) :: b.delta == 1
    ensures (exists b | b in ElevatorButtons(floorNumber) :: b.delta == -1) <==> floorNumber != 0
  {
    if floorNumber == 4 {
      assert ElevatorButtons(floorNumber)[1].delta == 1;
    } else {
      assert ElevatorButtons(floorNumber)[0].delta == 1;
    }
  }

  /** The boss floor's pylons: four around the hall's exit, then the boss's four. */
  function BossFloorPylons(): seq<PylonSpot>
  {
    [PylonSpot(-16.0, -268.0, false), PylonSpot(16.0, -268.0, false),
     PylonSpot(-16.0, -236.0, false), PylonSpot(16.0, -236.0, false),
     PylonSpot(-112.0, -524.0, true), PylonSpot(112.0, -524.0, true),
     PylonSpot(-112.0, -748.0, true), PylonSpot(112.0, -748.0, true)]
  }

  /** Where the boss appears. */
  const BOSS_SPOT: Point := Point(0.0, -638.0)

  /** The boss floor has four pylons of each kind. */
  lemma BossFloorHasFourPylonsOfEachKind()
    ensures |BossFloorPylons()| == 8
    ensures forall i | 0 <= i < 8 :: BossFloorPylons()[i].boss <==> i >= 4
  {
  }

  /** A free cell of one of the rooms `spawn` lays out (every slot with a room but the boss floor's top one). */
  predicate FreeRoomCell(walls: (int, int) -> int, r: Rooms, floorNumber: int, x: real, y: real)
  {
    exists s :: Laid(r, floorNumber, s) && FreeCellOf(walls, OriginX(s), OriginY(s), x, y)
  }

  /** An enemy `spawn` may place: a catalogue enemy on a free cell of one of the floor's rooms. */
  predicate RoomEnemy(walls: (int, int) -> int, r: Rooms, floorNumber: int, p: Placement)
  {
    p.schematic in ENEMY_SCHEMATICS && FreeRoomCell(walls, r, floorNumber, p.x, p.y)
  }

  /** The contents `spawnRoom` gives a slot with a room lie on free cells of the floor's rooms. */
  lemma InRoomCells(walls: (int, int) -> int, r: Rooms, floorNumber: int, s: Slot, floorIndex: int, stream: nat -> Draw, k: nat)
    requires Laid(r, floorNumber, s)
    ensures var c := RoomSpawn(RoomFree(walls, OriginX(s), OriginY(s)), floorIndex, stream, k);
      (forall p :: p in c.enemies ==> RoomEnemy(walls, r, floorNumber, p)) &&
      (forall t :: t in c.cores ==> FreeRoomCell(walls, r, floorNumber, t.x, t.y))
  {
    var free := RoomFree(walls, OriginX(s), OriginY(s));
    var c := RoomSpawn(free, floorIndex, stream, k);
    RoomSpawnUsesTheFreeCells(free, floorIndex, stream, k);
    RoomFreeCells(walls, OriginX(s), OriginY(s));
    forall p | p in c.enemies
      ensures RoomEnemy(walls, r, floorNumber, p)
    {
      var t :| t in free && t.x == p.x && t.y == p.y;
      assert FreeCellOf(walls, OriginX(s), OriginY(s), t.x, t.y);
    }
    forall t | t in c.cores
      ensures FreeRoomCell(walls, r, floorNumber, t.x, t.y)
    {
      assert FreeCellOf(walls, OriginX(s), OriginY(s), t.x, t.y);
    }
  }

  /**
   * What `spawn` gives slot `s` from draw `k` on: the `spawnRoom` of its
   * room when it lays one there, and otherwise nothing, without a draw.
   */
  function SlotContents(walls: (int, int) -> int, r: Rooms, floorNumber: int, floorIndex: int, s: Slot,
                        stream: nat -> Draw, k: nat): RoomContents
  {
    if Laid(r, floorNumber, s) then RoomSpawn(RoomFree(walls, OriginX(s), OriginY(s)), floorIndex, stream, k)
    else RoomContents([], [], k)
  }

  /** The contents of `a`, then those of `b`, up to `b`'s next draw. */
  function Then(a: RoomContents, b: RoomContents): RoomContents
  {
    RoomContents(a.enemies + b.enemies, a.cores + b.cores, b.next)
  }

  /** The slots `spawn` passes to `setRoom`, in its order: the top row and the right one, then the bottom row and the left one. */
  const UPPER_SLOTS: seq<Slot> := [UpLeft, UpCenter, UpRight, CenterRight]
  const LOWER_SLOTS: seq<Slot> := [DownRight, DownCenter, DownLeft, CenterLeft]

  /** `acc`, followed by what `spawn` gives each of `slots` in turn, each slot from the draw the one before stopped at. */
  function SlotsFrom(acc: RoomContents, walls: (int, int) -> int, r: Rooms, floorNumber: int, floorIndex: int,
                     slots: seq<Slot>, stream: nat -> Draw): RoomContents
    decreases |slots|
  {
    if slots == [] then acc
    else SlotsFrom(Then(acc, SlotContents(walls, r, floorNumber, floorIndex, slots[0], stream, acc.next)),
                   walls, r, floorNumber, floorIndex, slots[1..], stream)
  }

  /** Going through `a + b` is going through `a`, then through `b`. */
  lemma {:induction false} SlotsFromAppend(acc: RoomContents, walls: (int, int) -> int, r: Rooms, floorNumber: int,
                                           floorIndex: int, a: seq<Slot>, b: seq<Slot>, stream: nat -> Draw)
    ensures SlotsFrom(acc, walls, r, floorNumber, floorIndex, a + b, stream) ==
      SlotsFrom(SlotsFrom(acc, walls, r, floorNumber, floorIndex, a, stream), walls, r, floorNumber, floorIndex, b, stream)
    decreases |a|
  {
    if a != [] {
      assert (a + b)[0] == a[0] && (a + b)[1..] == a[1..] + b;
      SlotsFromAppend(Then(acc, SlotContents(walls, r, floorNumber, floorIndex, a[0], stream, acc.next)),
                      walls, r, floorNumber, floorIndex, a[1..], b, stream);
    } else {
      assert a + b == b;
    }
  }

  /** Everything the first `spawn` puts in a floor's rooms, from draw `k` on: the rooms one after the other. */
  function FloorContents(walls: (int, int) -> int, r: Rooms, floorNumber: int, floorIndex: int,
                         stream: nat -> Draw, k: nat): RoomContents
  {
    SlotsFrom(RoomContents([], [], k), walls, r, floorNumber, floorIndex, UPPER_SLOTS + LOWER_SLOTS, stream)
  }

  /** A slot holds at most two power cores and one enemy per 10 of a budget of at most 5 times (5 + floorIndex). */
  lemma SlotContentsAreBounded(walls: (int, int) -> int, r: Rooms, floorNumber: int, floorIndex: nat, s: Slot,
                               stream: nat -> Draw, k: nat)
    ensures var c := SlotContents(walls, r, floorNumber, floorIndex, s, stream, k);
      |c.cores| <= 2 && 2 * |c.enemies| <= 5 + floorIndex && k <= c.next
  {
    if Laid(r, floorNumber, s) {
      var free := RoomFree(walls, OriginX(s), OriginY(s));
      RoomSpawnIsBounded(free, floorIndex, stream, k);
    }
  }

  /**
   * Going through `slots` adds at most two power cores per slot, at most one
   * enemy per 10 of each slot's budget of at most 5 times (5 + floorIndex),
   * and never goes back in the draws.
   */
  lemma {:induction false} SlotsFromAreBounded(acc: RoomContents, walls: (int, int) -> int, r: Rooms, floorNumber: int,
                                               floorIndex: nat, slots: seq<Slot>, stream: nat -> Draw)
    ensures var c := SlotsFrom(acc, walls, r, floorNumber, floorIndex, slots, stream);
      |c.cores| <= |acc.cores| + 2 * |slots| && 2 * |c.enemies| <= 2 * |acc.enemies| + |slots| * (5 + floorIndex) &&
      acc.next <= c.next
    decreases |slots|
  {
    if slots != [] {
      var c1 := SlotContents(walls, r, floorNumber, floorIndex, slots[0], stream, acc.next);
      SlotContentsAreBounded(walls, r, floorNumber, floorIndex, slots[0], stream, acc.next);
      var acc' := Then(acc, c1);
      assert |acc'.cores| == |acc.cores| + |c1.cores| && |acc'.enemies| == |acc.enemies| + |c1.enemies|;
      SlotsFromAreBounded(acc', walls, r, floorNumber, floorIndex, slots[1..], stream);
      OneMoreSlot(|slots|, 5 + floorIndex);
    }
  }

  lemma OneMoreSlot(n: int, w: int)
    ensures (n - 1) * w + w == n * w
  {
  }

  /**
   * The eight rooms of a floor hold at most 16 power cores between them, and
   * at most 4 times (5 + floorIndex) enemies: one per 10 of eight budgets.
   */
  lemma FloorContentsAreBounded(walls: (int, int) -> int, r: Rooms, floorNumber: int, floorIndex: nat,
                                stream: nat -> Draw, k: nat)
    ensures var c := FloorContents(walls, r, floorNumber, floorIndex, stream, k);
      |c.cores| <= 16 && |c.enemies| <= 4 * (5 + floorIndex) && k <= c.next
  {
    SlotsFromAreBounded(RoomContents([], [], k), walls, r, floorNumber, floorIndex, UPPER_SLOTS + LOWER_SLOTS, stream);
  }

  /**
   * What the first `spawn` of floor `floorIndex` with rooms `r` creates when
   * its rooms are filled from draw `k` up to draw `next`: the contents of
   * its rooms, its elevator buttons and, on a boss floor, its pylons and
   * its boss.
   */
  ghost predicate FirstSpawn(plan: SpawnPlan, walls: (int, int) -> int, r: Rooms, floorIndex: int,
                             stream: nat -> Draw, k: nat, next: nat)
  {
    var fn := FloorNumber(floorIndex);
    RoomContents(plan.enemies, plan.cores, next) == FloorContents(walls, r, fn, floorIndex, stream, k) &&
    plan.buttons == ElevatorButtons(fn) &&
    plan.pylons == (if fn == 4 then BossFloorPylons() else []) &&
    plan.boss == (if fn == 4 then Some(BOSS_SPOT) else None)
  }

  /**
   * The boss floor's doors `update` opens: the boss room's when its pylons
   * are powered, the exit elevator's when the boss is gone.
   */
  function BossDoors(doors: map<Door, bool>, opensRoom: bool, opensElevator: bool): (d: map<Door, bool>)
  {
    var d1 := if opensRoom then SetDoor(SetDoor(doors, Door(true, 11, 23), true), Door(true, 11, 24), true) else doors;
    if opensElevator then SetDoor(SetDoor(d1, Door(true, 11, 7), true), Door(true, 11, 8), true) else d1
  }

  /**
   * The boss doors only ever open: every door they touch is open afterwards,
   * and every other door keeps its state.
   */
  lemma BossDoorsOnlyOpen(doors: map<Door, bool>, opensRoom: bool, opensElevator: bool)
    ensures var d := BossDoors(doors, opensRoom, opensElevator);
      var touched := (if opensRoom then {Door(true, 11, 23), Door(true, 11, 24)} else {}) +
                     (if opensElevator then {Door(true, 11, 7), Door(true, 11, 8)} else {});
      d.Keys == doors.Keys + touched &&
      (forall x :: x in touched ==> d[x]) &&
      (forall x :: x in doors && x !in touched ==> d[x] == doors[x])
  {
  }

  /** The two door tiles of the boss room and the two of the exit elevator that `update` opens. */
  const BOSS_DOORS: set<Door> := {Door(true, 11, 23), Door(true, 11, 24), Door(true, 11, 7), Door(true, 11, 8)}

  /** No slot of the boss floor sets a boss door: the only room door on one, up-center's top, is never laid there. */
  lemma SlotDoorsSpareTheBossDoors(doors: map<Door, bool>, r: Rooms, s: Slot, x: Door)
    requires x in BOSS_DOORS
    ensures x in SlotDoors(doors, r, 4, s) <==> x in doors
  {
    if Laid(r, 4, s) {
      var f := DoorFlags(r, 4, s);
      WithDoorsSetsExactlyTheGivenSides(doors, OriginX(s), OriginY(s), f.0, f.1, f.2, f.3);
    }
  }

  /**
   * A spawn rebuilds the boss floor's wall layer and sets none of the boss
   * doors, so they are back to the template's tiles; once the latches are
   * closed, `update` (BossDoors with nothing to open) leaves them so.
   */
  lemma RespawnLeavesBossDoorsShut(r: Rooms, x: Door)
    requires x in BOSS_DOORS
    ensures x !in SpawnDoors(map[], r, 4)
    ensures BossDoors(SpawnDoors(map[], r, 4), false, false) == SpawnDoors(map[], r, 4)
  {
    var d1 := SlotDoors(map[], r, 4, UpLeft);
    var d2 := SlotDoors(d1, r, 4, UpCenter);
    var d3 := SlotDoors(d2, r, 4, UpRight);
    var d4 := SlotDoors(d3, r, 4, CenterRight);
    var d5 := SlotDoors(d4, r, 4, DownRight);
    var d6 := SlotDoors(d5, r, 4, DownCenter);
    var d7 := SlotDoors(d6, r, 4, DownLeft);
    var d8 := SlotDoors(d7, r, 4, CenterLeft);
    SlotDoorsSpareTheBossDoors(map[], r, UpLeft, x);
    SlotDoorsSpareTheBossDoors(d1, r, UpCenter, x);
    SlotDoorsSpareTheBossDoors(d2, r, UpRight, x);
    SlotDoorsSpareTheBossDoors(d3, r, CenterRight, x);
    SlotDoorsSpareTheBossDoors(d4, r, DownRight, x);
    SlotDoorsSpareTheBossDoors(d5, r, DownCenter, x);
    SlotDoorsSpareTheBossDoors(d6, r, DownLeft, x);
    SlotDoorsSpareTheBossDoors(d7, r, CenterLeft, x);
    assert UpperDoors(map[], r, 4) == d4 && LowerDoors(d4, r, 4) == d8;
    WithDoorsSetsExactlyTheGivenSides(d8, HALL_X, HALL_Y,
      Some(Present(r, 4, UpCenter)), Some(Present(r, 4, CenterRight)), Some(Present(r, 4, DownCenter)), Some(Present(r, 4, CenterLeft)));
  }

  /** `Floor`. */
  class Floor {
    const life: Lifecycle
    var hasSpawnedObjects: bool
    var hasOpenedBossRoom: bool
    var hasOpenedBossElevator: bool
    var hasFoundElevatorKey: bool
    var hasUnlockedElevator: bool
    /** The `room*Type` fields. */
    var rooms: Rooms
    /**
     * The doors set on the wall layer since the last spawn built it afresh
     * from the tile map; a door not in the map still has the template's tiles.
     */
    var doors: map<Door, bool>

    /** Rooms are rolled on the first spawn and filled at its end, so an unspawned floor has neither. */
    ghost predicate Valid()
      reads this, life
    {
      !life.initialized ==> rooms == NO_ROOMS && !hasSpawnedObjects
    }

    constructor (floorIndex: int)
      ensures fresh(life) && life.floorIndex == floorIndex && life.State() == Flags(false, false, false)
      ensures !hasSpawnedObjects && !hasOpenedBossRoom && !hasOpenedBossElevator
      ensures !hasFoundElevatorKey && !hasUnlockedElevator
      ensures rooms == NO_ROOMS && doors == map[]
      ensures Valid()
    {
      life := new Lifecycle(floorIndex);
      hasSpawnedObjects := false;
      hasOpenedBossRoom := false;
      hasOpenedBossElevator := false;
      hasFoundElevatorKey := false;
      hasUnlockedElevator := false;
      rooms := NO_ROOMS;
      doors := map[];
    }

    function FloorNumberOf(): int
      reads life
    {
      FloorNumber(life.floorIndex)
    }

    predicate IsTopFloor()
      reads life
    {
      FloorNumber(life.floorIndex) == 0
    }

    predicate IsBossFloor()
      reads life
    {
      FloorNumber(life.floorIndex) == 4
    }

    predicate HasRoom(s: Slot)
      reads this, life
    {
      Present(rooms, FloorNumber(life.floorIndex), s)
    }

    /** `randomRoomType`. */
    method RandomRoomType(rng: Rng) returns (t: int)
      modifies rng`next
      ensures (t, rng.next) == RoomRoll(FloorNumber(life.floorIndex), rng.stream, old(rng.next))
    {
      t := -1;
      if !IsBossFloor() {
        var d := rng.Random();
        if d < RoomChance(FloorNumber(life.floorIndex)) {
          t := DrawInt(rng, 3, 0);
          RoomTypeIsRandInt(rng.stream(old(rng.next) + 1));
        }
      }
    }

    /** `initialize`: the edge slots, then the corners next to a room. */
    method Initialize(rng: Rng)
      requires rooms == NO_ROOMS
      modifies this`rooms, rng`next
      ensures (rooms, rng.next) == Layout(FloorNumber(life.floorIndex), rng.stream, old(rng.next))
    {
      ghost var fn := FloorNumber(life.floorIndex);
      ghost var k0 := rng.next;
      var uc := RandomRoomType(rng);
      ghost var u := (uc, rng.next);
      assert u == RoomRoll(fn, rng.stream, k0);
      var cr := RandomRoomType(rng);
      ghost var c := (cr, rng.next);
      assert c == RoomRoll(fn, rng.stream, u.1);
      var dc := RandomRoomType(rng);
      ghost var d := (dc, rng.next);
      assert d == RoomRoll(fn, rng.stream, c.1);
      var cl := RandomRoomType(rng);
      ghost var l := (cl, rng.next);
      assert l == RoomRoll(fn, rng.stream, d.1);
      rooms := Rooms(-1, uc, -1, cr, -1, dc, -1, cl);
      // The corners only look at the edge slots, which they do not change.
      var up, right, down, left := HasRoom(UpCenter), HasRoom(CenterRight), HasRoom(DownCenter), HasRoom(CenterLeft);
      assert up == (u.0 >= 0 || fn == 4) && right == (c.0 >= 0) && down == (d.0 >= 0) && left == (l.0 >= 0);
      var ul := RandomCornerType(rng, left || up);
      ghost var ul' := (ul, rng.next);
      assert ul' == CornerRoll(fn, rng.stream, l.1, l.0 >= 0 || u.0 >= 0 || fn == 4);
      var ur := RandomCornerType(rng, up || right);
      ghost var ur' := (ur, rng.next);
      assert ur' == CornerRoll(fn, rng.stream, ul'.1, u.0 >= 0 || fn == 4 || c.0 >= 0);
      var dr := RandomCornerType(rng, right || down);
      ghost var dr' := (dr, rng.next);
      assert dr' == CornerRoll(fn, rng.stream, ur'.1, c.0 >= 0 || d.0 >= 0);
      var dl := RandomCornerType(rng, down || left);
      ghost var dl' := (dl, rng.next);
      assert dl' == CornerRoll(fn, rng.stream, dr'.1, d.0 >= 0 || l.0 >= 0);
      rooms := Rooms(ul, uc, ur, cr, dr, dc, dl, cl);
      LayoutOfRolls(fn, rng.stream, k0, u, c, d, l, ul', ur', dr', dl');
    }

    /** A corner slot of `initialize`: a room type when `roll` (a neighbour has a room), else none and no draw. */
    method RandomCornerType(rng: Rng, roll: bool) returns (t: int)
      modifies rng`next
      ensures (t, rng.next) == CornerRoll(FloorNumber(life.floorIndex), rng.stream, old(rng.next), roll)
    {
      t := -1;
      if roll {
        t := RandomRoomType(rng);
      }
    }

    /** `getEmptyTiles(sx, sy, w, h)`: the free cells of the rectangle, column by column, top to bottom. */
    method GetEmptyTiles(walls: (int, int) -> int, sx: int, sy: int, w: int, h: int) returns (values: seq<Tile>)
      ensures values == EmptyRect(walls, sx, sx + w, sy, sy + h)
    {
      values := [];
      var x := sx;
      while x < sx + w
        invariant sx <= x <= MaxInt(sx, sx + w)
        invariant values == EmptyRect(walls, sx, x, sy, sy + h)
        decreases sx + w - x
      {
        var y := sy;
        while y < sy + h
          invariant sy <= y <= MaxInt(sy, sy + h)
          invariant values == EmptyRect(walls, sx, x, sy, sy + h) + EmptyColumn(walls, x, sy, y)
          decreases sy + h - y
        {
          if walls(x, y) == -1 {
            values := values + [TileOf(x, y)];
          }
          y := y + 1;
        }
        x := x + 1;
      }
    }

    /** `setRoomDoors`. */
    method SetRoomDoors(dx: int, dy: int, up: Option<bool>, right: Option<bool>, down: Option<bool>, left: Option<bool>)
      modifies this`doors
      ensures doors == WithDoors(old(doors), dx, dy, up, right, down, left)
    {
      if up.Some? {
        doors := SetDoor(doors, Door(true, dx + 3, dy), up.value);
      }
      if down.Some? {
        doors := SetDoor(doors, Door(true, dx + 3, dy + 7), down.value);
      }
      if left.Some? {
        doors := SetDoor(doors, Door(false, dx, dy + 3), left.value);
      }
      if right.Some? {
        doors := SetDoor(doors, Door(false, dx + 7, dy + 3), right.value);
      }
    }

    /** `spawnRoom` for the room with its corner at (sx, sy). */
    method SpawnRoom(rng: Rng, walls: (int, int) -> int, sx: int, sy: int) returns (enemies: seq<Placement>, cores: seq<Tile>)
      modifies rng`next
      ensures RoomContents(enemies, cores, rng.next) == RoomSpawn(RoomFree(walls, sx, sy), life.floorIndex, rng.stream, old(rng.next))
    {
      ghost var k0 := rng.next;
      var free := GetEmptyTiles(walls, sx + 1, sy + 1, 8 - 2, 8 - 2);
      assert free == RoomFree(walls, sx, sy);
      var tiles := Shuffle(rng, free);
      ghost var k1 := rng.next;
      var powerCores := DrawInt(rng, 2, 0);
      CoreRollIsRandInt(rng.stream(k1));
      var roll := DrawInt(rng, 5 + life.floorIndex, 0);
      assert roll * 5 == BudgetRoll(life.floorIndex, rng.stream(k1 + 1));
      ghost var k := rng.next;
      var rest, left;
      enemies, rest, left := PlanFill(rng, ENEMY_SCHEMATICS, tiles, roll * 5);
      cores := TakeCores(rest, powerCores);
      RoomSpawnFills(free, life.floorIndex, rng.stream, k0, tiles, powerCores, roll * 5, k);
    }

    /**
     * `setRoom` for slot `s`: a slot with a room gets its doors set from the
     * neighbour flags and, before the floor's objects exist, its contents;
     * a slot without one is cleared.
     */
    method SetRoom(rng: Rng, walls: (int, int) -> int, s: Slot,
                   up: Option<bool>, right: Option<bool>, down: Option<bool>, left: Option<bool>)
      returns (enemies: seq<Placement>, cores: seq<Tile>)
      requires !(s == UpCenter && IsBossFloor())
      modifies this`doors, rng`next
      ensures doors == if TypeOf(rooms, s) >= 0 then WithDoors(old(doors), OriginX(s), OriginY(s), up, right, down, left)
                       else old(doors)
      ensures TypeOf(rooms, s) >= 0 && !hasSpawnedObjects ==>
        RoomContents(enemies, cores, rng.next) == RoomSpawn(RoomFree(walls, OriginX(s), OriginY(s)), life.floorIndex, rng.stream, old(rng.next))
      ensures TypeOf(rooms, s) < 0 || hasSpawnedObjects ==> enemies == [] && cores == [] && rng.next == old(rng.next)
      ensures forall p :: p in enemies ==> RoomEnemy(walls, rooms, FloorNumberOf(), p)
      ensures forall t :: t in cores ==> FreeRoomCell(walls, rooms, FloorNumberOf(), t.x, t.y)
    {
      enemies, cores := [], [];
      if TypeOf(rooms, s) >= 0 {
        SetRoomDoors(OriginX(s), OriginY(s), up, right, down, left);
        if !hasSpawnedObjects {
          ghost var k := rng.next;
          enemies, cores := SpawnRoom(rng, walls, OriginX(s), OriginY(s));
          InRoomCells(walls, rooms, FloorNumberOf(), s, life.floorIndex, rng.stream, k);
        }
      }
    }

    /** The `setRoom` call `spawn` makes for slot `s`, with the slot's neighbour flags. */
    method LaySlot(rng: Rng, walls: (int, int) -> int, s: Slot) returns (enemies: seq<Placement>, cores: seq<Tile>)
      requires !(s == UpCenter && IsBossFloor())
      modifies this`doors, rng`next
      ensures doors == SlotDoors(old(doors), rooms, FloorNumberOf(), s)
      ensures !hasSpawnedObjects ==>
        RoomContents(enemies, cores, rng.next) == SlotContents(walls, rooms, FloorNumberOf(), life.floorIndex, s, rng.stream, old(rng.next))
      ensures hasSpawnedObjects ==> enemies == [] && cores == [] && rng.next == old(rng.next)
      ensures forall p :: p in enemies ==> RoomEnemy(walls, rooms, FloorNumberOf(), p)
      ensures forall t :: t in cores ==> FreeRoomCell(walls, rooms, FloorNumberOf(), t.x, t.y)
    {
      var f := DoorFlags(rooms, FloorNumberOf(), s);
      enemies, cores := SetRoom(rng, walls, s, f.0, f.1, f.2, f.3);
    }

    /** The first four `setRoom` calls of `spawn`; the top one is skipped on a boss floor. */
    method LayUpperRooms(rng: Rng, walls: (int, int) -> int) returns (enemies: seq<Placement>, cores: seq<Tile>)
      modifies this`doors, rng`next
      ensures doors == UpperDoors(old(doors), rooms, FloorNumberOf())
      ensures !hasSpawnedObjects ==>
        RoomContents(enemies, cores, rng.next) ==
        SlotsFrom(RoomContents([], [], old(rng.next)), walls, rooms, FloorNumberOf(), life.floorIndex, UPPER_SLOTS, rng.stream)
      ensures hasSpawnedObjects ==> enemies == [] && cores == [] && rng.next == old(rng.next)
      ensures forall p :: p in enemies ==> RoomEnemy(walls, rooms, FloorNumberOf(), p)
      ensures forall t :: t in cores ==> FreeRoomCell(walls, rooms, FloorNumberOf(), t.x, t.y)
    {
      ghost var fn, fi := FloorNumberOf(), life.floorIndex;
      ghost var c0 := RoomContents([], [], rng.next);
      enemies, cores := LaySlot(rng, walls, UpLeft);
      ghost var c1 := RoomContents(enemies, cores, rng.next);
      assert !hasSpawnedObjects ==> c1 == Then(c0, SlotContents(walls, rooms, fn, fi, UpLeft, rng.stream, c0.next));
      if !IsBossFloor() {
        var e, c := LaySlot(rng, walls, UpCenter);
        enemies, cores := enemies + e, cores + c;
      } else {
        // The boss floor does not lay its top slot, which gets nothing.
        assert !Laid(rooms, fn, UpCenter);
        assert enemies + [] == enemies && cores + [] == cores;
      }
      ghost var c2 := RoomContents(enemies, cores, rng.next);
      assert !hasSpawnedObjects ==> c2 == Then(c1, SlotContents(walls, rooms, fn, fi, UpCenter, rng.stream, c1.next));
      var e, c := LaySlot(rng, walls, UpRight);
      enemies, cores := enemies + e, cores + c;
      ghost var c3 := RoomContents(enemies, cores, rng.next);
      e, c := LaySlot(rng, walls, CenterRight);
      enemies, cores := enemies + e, cores + c;
      assert UPPER_SLOTS[1..][1..][1..][1..] == [];
    }

    /** The last four `setRoom` calls of `spawn`, after the contents `enemies0` and `cores0` of the first four. */
    method LayLowerRooms(rng: Rng, walls: (int, int) -> int, enemies0: seq<Placement>, cores0: seq<Tile>)
      returns (enemies: seq<Placement>, cores: seq<Tile>)
      modifies this`doors, rng`next
      ensures doors == LowerDoors(old(doors), rooms, FloorNumberOf())
      ensures !hasSpawnedObjects ==>
        RoomContents(enemies, cores, rng.next) ==
        SlotsFrom(RoomContents(enemies0, cores0, old(rng.next)), walls, rooms, FloorNumberOf(), life.floorIndex, LOWER_SLOTS, rng.stream)
      ensures hasSpawnedObjects ==> enemies == enemies0 && cores == cores0 && rng.next == old(rng.next)
      ensures forall p :: p in enemies ==> p in enemies0 || RoomEnemy(walls, rooms, FloorNumberOf(), p)
      ensures forall t :: t in cores ==> t in cores0 || FreeRoomCell(walls, rooms, FloorNumberOf(), t.x, t.y)
    {
      var e, c := LaySlot(rng, walls, DownRight);
      enemies, cores := enemies0 + e, cores0 + c;
      e, c := LaySlot(rng, walls, DownCenter);
      enemies, cores := enemies + e, cores + c;
      e, c := LaySlot(rng, walls, DownLeft);
      enemies, cores := enemies + e, cores + c;
      e, c := LaySlot(rng, walls, CenterLeft);
      enemies, cores := enemies + e, cores + c;
      assert LOWER_SLOTS[1..][1..][1..][1..] == [];
    }

    /** The room part of `spawn`: every laid slot in `spawn`'s order, then the hall's doors. */
    method LayRooms(rng: Rng, walls: (int, int) -> int) returns (enemies: seq<Placement>, cores: seq<Tile>)
      modifies this`doors, rng`next
      ensures doors == SpawnDoors(old(doors), rooms, FloorNumberOf())
      ensures !hasSpawnedObjects ==>
        RoomContents(enemies, cores, rng.next) == FloorContents(walls, rooms, FloorNumberOf(), life.floorIndex, rng.stream, old(rng.next))
      ensures hasSpawnedObjects ==> enemies == [] && cores == [] && rng.next == old(rng.next)
      ensures forall p :: p in enemies ==> RoomEnemy(walls, rooms, FloorNumberOf(), p)
      ensures forall t :: t in cores ==> FreeRoomCell(walls, rooms, FloorNumberOf(), t.x, t.y)
    {
      enemies, cores := LayUpperRooms(rng, walls);
      enemies, cores := LayLowerRooms(rng, walls, enemies, cores);
      SlotsFromAppend(RoomContents([], [], old(rng.next)), walls, rooms, FloorNumberOf(), life.floorIndex,
                      UPPER_SLOTS, LOWER_SLOTS, rng.stream);
      SetRoomDoors(HALL_X, HALL_Y, Some(HasRoom(UpCenter)), Some(HasRoom(CenterRight)),
                   Some(HasRoom(DownCenter)), Some(HasRoom(CenterLeft)));
    }

    /**
     * `spawn`: the base spawn (which rolls the rooms on the first one), a
     * fresh wall layer from the tile map, the rooms' doors and, on the first spawn only, their contents, then the
     * hall's doors and, once, the floor's buttons, pylons and boss. Returns
     * what was created, for the game state's lists.
     */
    method Spawn(rng: Rng, walls: (int, int) -> int) returns (plan: SpawnPlan)
      requires Valid()
      modifies life`active, life`spawned, life`initialized, this`rooms, this`doors, this`hasSpawnedObjects, rng`next
      ensures Valid() && hasSpawnedObjects
      ensures life.State() == SpawnFlags(old(life.State()))
      ensures rooms == if old(life.initialized) then old(rooms) else Layout(FloorNumberOf(), rng.stream, old(rng.next)).0
      ensures doors == SpawnDoors(map[], rooms, FloorNumberOf())
      ensures old(hasSpawnedObjects) ==> plan == NOTHING_SPAWNED && rng.next == old(rng.next)
      ensures !old(hasSpawnedObjects) ==>
        FirstSpawn(plan, walls, rooms, life.floorIndex, rng.stream,
                   if old(life.initialized) then old(rng.next) else Layout(FloorNumberOf(), rng.stream, old(rng.next)).1, rng.next)
      ensures forall p :: p in plan.enemies ==> RoomEnemy(walls, rooms, FloorNumberOf(), p)
      ensures forall t :: t in plan.cores ==> FreeRoomCell(walls, rooms, FloorNumberOf(), t.x, t.y)
    {
      doors := map[];
      var ranInitialize := life.Spawn();
      if ranInitialize {
        Initialize(rng);
        LayoutRules(FloorNumberOf(), rng.stream, old(rng.next));
      }
      var boss := IsBossFloor();
      var enemies, cores := LayRooms(rng, walls);
      plan := NOTHING_SPAWNED;
      if !hasSpawnedObjects {
        plan := SpawnPlan(enemies, cores, ElevatorButtons(FloorNumberOf()),
                          if boss then BossFloorPylons() else [], if boss then Some(BOSS_SPOT) else None);
        hasSpawnedObjects := true;
      }
    }

    /**
     * `update`, given what it reads from the game state: whether every
     * normal pylon of the floor is powered, whether the floor's boss is
     * still in the enemy list and whether any living enemy is left on it.
     * Each of the three latches closes at most once, opening its doors and
     * raising its alert only then.
     */
    method Update(normalPylonsPowered: bool, bossPresent: bool, enemiesLeft: bool) returns (alerts: seq<Element>)
      modifies this`doors, this`hasOpenedBossRoom, this`hasOpenedBossElevator, this`hasUnlockedElevator
      ensures var boss := life.active && IsBossFloor() && hasSpawnedObjects;
        var opensRoom := boss && normalPylonsPowered && !old(hasOpenedBossRoom);
        var opensElevator := boss && !bossPresent && !old(hasOpenedBossElevator);
        var unlocks := life.active && hasSpawnedObjects && (!enemiesLeft || hasFoundElevatorKey) && !old(hasUnlockedElevator);
        hasOpenedBossRoom == (old(hasOpenedBossRoom) || opensRoom) &&
        hasOpenedBossElevator == (old(hasOpenedBossElevator) || opensElevator) &&
        hasUnlockedElevator == (old(hasUnlockedElevator) || unlocks) &&
        doors == BossDoors(old(doors), opensRoom, opensElevator) &&
        alerts == (if opensRoom then [Alert("The supervisor drone has activated!")] else []) +
                  (if opensElevator then [Alert("The supervisor drone was defeated!")] else []) +
                  (if unlocks then [Alert("Elevator has been unlocked")] else [])
    {
      alerts := [];
      if !life.active {
        return;
      }
      if IsBossFloor() && hasSpawnedObjects {
        if normalPylonsPowered && !hasOpenedBossRoom {
          hasOpenedBossRoom := true;
          doors := SetDoor(doors, Door(true, 11, 23), true);
          doors := SetDoor(doors, Door(true, 11, 24), true);
          alerts := alerts + [Alert("The supervisor drone has activated!")];
        }
        if !bossPresent && !hasOpenedBossElevator {
          hasOpenedBossElevator := true;
          doors := SetDoor(doors, Door(true, 11, 7), true);
          doors := SetDoor(doors, Door(true, 11, 8), true);
          alerts := alerts + [Alert("The supervisor drone was defeated!")];
        }
      }
      if hasSpawnedObjects {
        if (!enemiesLeft || hasFoundElevatorKey) && !hasUnlockedElevator {
          hasUnlockedElevator := true;
          alerts := alerts + [Alert("Elevator has been unlocked")];
        }
      }
    }
  }
}
