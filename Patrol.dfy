/** The circle-walk idle behaviour (bot.js:215-237): four waypoints around the
    bot's position at activation, and a timer that each second sets an XZ goal
    for the next waypoint, wrapping after the fourth. Coordinates are integers
    here; only the offsets and the index arithmetic are modelled. */
module Patrol {

  datatype Point = Point(x: int, y: int, z: int)

  /** A pathfinder goal that fixes only the X and Z coordinates. */
  datatype GoalXZ = GoalXZ(x: int, z: int)

  /** The square route around `centre`: +x, +z, -x, -z offsets by `radius`. */
  function Waypoints(centre: Point, radius: int): (points: seq<Point>)
    ensures |points| == 4
    ensures forall j :: 0 <= j < 4 ==> points[j].y == centre.y
    ensures points[0] == centre.(x := centre.x + radius)
    ensures points[1] == centre.(z := centre.z + radius)
    // the last two are the first two reflected through the centre
    ensures forall j :: 0 <= j < 2 ==>
      points[j + 2].x == 2 * centre.x - points[j].x &&
      points[j + 2].z == 2 * centre.z - points[j].z
  {
    [ Point(centre.x + radius, centre.y, centre.z),
      Point(centre.x, centre.y, centre.z + radius),
      Point(centre.x - radius, centre.y, centre.z),
      Point(centre.x, centre.y, centre.z - radius) ]
  }

  /** The goal issued for a waypoint: its X and Z, the height is dropped. */
  function ToGoal(p: Point): GoalXZ {
    GoalXZ(p.x, p.z)
  }

  /** The waypoint index actually read on a tick that starts with index `i`:
      an index equal to the route length is reset to 0 first. */
  function Slot(i: int): int {
    if i == 4 then 0 else i
  }

  /** The patrol index after `k` ticks, starting from 0; every tick reads
      `Slot(i)` and leaves `Slot(i) + 1` behind. */
  function PatrolIndexAfter(k: nat): int {
    if k == 0 then 0 else Slot(PatrolIndexAfter(k - 1)) + 1
  }

  /** The index stays in [0, 4], so the slot read is in bounds, and tick k
      reads waypoint k mod 4. */
  lemma {:induction false} SlotIsMod(k: nat)
    ensures 0 <= PatrolIndexAfter(k) <= 4
    ensures Slot(PatrolIndexAfter(k)) == k % 4
  {
    if k > 0 {
      SlotIsMod(k - 1);
    }
  }

  /** The patrol timer and the index `i` it captures. */
  class CircleWalk {
    const points: seq<Point>
    var i: int
    /** Number of ticks run so far. */
    ghost var ticks: nat

    ghost predicate Valid()
      reads this
    {
      |points| == 4 && i == PatrolIndexAfter(ticks)
    }

    /** Activation: the route is computed once from the current position. */
    constructor (position: Point, radius: int)
      ensures Valid()
      ensures points == Waypoints(position, radius) && i == 0 && ticks == 0
    {
      points := Waypoints(position, radius);
      i := 0;
      ticks := 0;
    }

    /** One interval tick: wrap the index if it reached the route length, issue
        the XZ goal of that waypoint, advance. */
    method Tick() returns (goal: GoalXZ)
      requires Valid()
      modifies this
      ensures Valid()
      ensures ticks == old(ticks) + 1
      ensures goal == ToGoal(points[old(ticks) % 4])
      ensures 1 <= i <= 4
    {
      SlotIsMod(ticks);
      if i == |points| {
        i := 0;
      }
      goal := GoalXZ(points[i].x, points[i].z);
      i := i + 1;
      ticks := ticks + 1;
    }
  }
}
