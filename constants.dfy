/**
 * Game-wide constants: screen size, the four- and eight-way facings and the
 * icon catalogue, together with the facing geometry (rotation, reversal and
 * unit axis vectors) that the drones, enemies and bullets share.
 */
module Constants {

  const DEBUG: bool := false
  const SCREEN_WIDTH: int := 640
  const SCREEN_HEIGHT: int := 360

  datatype Facing4Way = Up | Right | Down | Left

  /** The bullet animation buckets; `CenterCenter` is a facing but has no entry in FACING_8WAY. */
  datatype Facing8Way =
    | CenterCenter | UpLeft | UpCenter | UpRight | CenterRight
    | DownRight | DownCenter | DownLeft | CenterLeft

  const FACING_4WAY: seq<Facing4Way> := [Up, Right, Down, Left]
  const FACING_8WAY: seq<Facing8Way> :=
    [UpLeft, UpCenter, UpRight, CenterRight, DownRight, DownCenter, DownLeft, CenterLeft]

  datatype IconType =
    | Gun | Multishot | Tracking | Punch | Boomerang
    | DirectionalGun | DirectionalMulti | DirectionlTracking

  /** The trailing `length` member of the enum. */
  const ICON_TYPE_LENGTH: nat := 8

  /** The numeric value of an enum member. */
  function IconValue(i: IconType): (v: nat)
    ensures v < ICON_TYPE_LENGTH
  {
    match i
    case Gun => 0
    case Multishot => 1
    case Tracking => 2
    case Punch => 3
    case Boomerang => 4
    case DirectionalGun => 5
    case DirectionalMulti => 6
    case DirectionlTracking => 7
  }

  /** The member with a given numeric value. */
  function IconFromValue(v: nat): (i: IconType)
    requires v < ICON_TYPE_LENGTH
    ensures IconValue(i) == v
  {
    if v == 0 then Gun else if v == 1 then Multishot else if v == 2 then Tracking
    else if v == 3 then Punch else if v == 4 then Boomerang
    else if v == 5 then DirectionalGun else if v == 6 then DirectionalMulti
    else DirectionlTracking
  }

  /** The enum values are exactly 0 .. length-1, one member each. */
  lemma IconValuesAreABijection(i: IconType, j: IconType)
    ensures IconFromValue(IconValue(i)) == i
    ensures IconValue(i) == IconValue(j) ==> i == j
  {
  }

  /** Quarter turn clockwise: up, right, down, left, up. */
  function Clockwise(f: Facing4Way): (r: Facing4Way)
    ensures r != f
  {
    match f
    case Up => Right
    case Right => Down
    case Down => Left
    case Left => Up
  }

  /** The reverse facing. */
  function Opposite(f: Facing4Way): (r: Facing4Way)
    ensures r == Clockwise(Clockwise(f))
  {
    match f
    case Up => Down
    case Down => Up
    case Left => Right
    case Right => Left
  }

  /** Horizontal component of the unit vector of a facing (left is -1). */
  function AxisX(f: Facing4Way): int
  {
    if f == Left then -1 else if f == Right then 1 else 0
  }

  /** Vertical component of the unit vector of a facing (up is -1, screen coordinates). */
  function AxisY(f: Facing4Way): int
  {
    if f == Up then -1 else if f == Down then 1 else 0
  }

  /** Each facing is a distinct unit vector along one axis, and the reverse facing negates it. */
  lemma AxisIsUnitVector(f: Facing4Way)
    ensures AxisX(f) * AxisX(f) + AxisY(f) * AxisY(f) == 1
    ensures AxisX(Opposite(f)) == -AxisX(f) && AxisY(Opposite(f)) == -AxisY(f)
    ensures Opposite(Opposite(f)) == f
    ensures forall g: Facing4Way :: AxisX(g) == AxisX(f) && AxisY(g) == AxisY(f) ==> g == f
  {
  }

  /** FACING_4WAY lists every facing once, each followed by its clockwise successor. */
  lemma Facing4WayIsClockwiseOrder()
    ensures |FACING_4WAY| == 4
    ensures forall f: Facing4Way :: f in FACING_4WAY
    ensures forall i :: 0 <= i < 4 ==> FACING_4WAY[(i + 1) % 4] == Clockwise(FACING_4WAY[i])
  {
    forall f: Facing4Way
      ensures f in FACING_4WAY
    {
      var k := match f case Up => 0 case Right => 1 case Down => 2 case Left => 3;
      assert FACING_4WAY[k] == f;
    }
  }

  /** FACING_8WAY lists the eight directional buckets once each, without the centre. */
  lemma Facing8WayLeavesOutCentre()
    ensures |FACING_8WAY| == 8
    ensures forall i, j :: 0 <= i < j < 8 ==> FACING_8WAY[i] != FACING_8WAY[j]
    ensures forall f: Facing8Way :: f in FACING_8WAY <==> f != CenterCenter
  {
  }
}
