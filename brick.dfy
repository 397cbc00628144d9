/** The falling piece of PilesOfTiles: an anchor position, an orientation
    and the shape map (`BrickMap`) it asks for its cells.  The orientation and the position
    change in place in response to game actions; the cells are never
    stored, they are recomputed from the current state on every read. */
module Bricks {

  // ---------------------------------------------------------------------
  // Orientation
  // ---------------------------------------------------------------------

  /** The four orientations, in the order of the enum's declaration. */
  datatype Direction = Up | Right | Down | Left

  /** The enum's underlying value: Up = 0, Right = 1, Down = 2, Left = 3. */
  function Ordinal(d: Direction): (n: nat)
    ensures n < 4
  {
    match d
    case Up => 0
    case Right => 1
    case Down => 2
    case Left => 3
  }

  /** The orientation whose underlying value is `n`. */
  function FromOrdinal(n: nat): (d: Direction)
    requires n < 4
    ensures Ordinal(d) == n
  {
    if n == 0 then Up else if n == 1 then Right else if n == 2 then Down else Left
  }

  /** Two orientations with the same underlying value are the same. */
  lemma OrdinalInjective(d: Direction, e: Direction)
    requires Ordinal(d) == Ordinal(e)
    ensures d == e
  {
  }

  /** The orientation after a quarter turn clockwise: the next value of the
      enum, wrapping from Left back to Up. */
  function Clockwise(d: Direction): (r: Direction)
    ensures Ordinal(r) == (Ordinal(d) + 1) % 4
  {
    match d
    case Up => Right
    case Right => Down
    case Down => Left
    case Left => Up
  }

  /** The orientation after a quarter turn counter-clockwise: the previous
      value of the enum, wrapping from Up back to Left. */
  function CounterClockwise(d: Direction): (r: Direction)
    ensures Ordinal(r) == (Ordinal(d) + 3) % 4
  {
    match d
    case Up => Left
    case Right => Up
    case Down => Right
    case Left => Down
  }

  /** The orientation `turns` quarter turns clockwise from `d`; a negative
      number of turns goes counter-clockwise.  Dafny's `%` is Euclidean, so
      the index is always in 0..3. */
  function Turned(d: Direction, turns: int): Direction
  {
    FromOrdinal((Ordinal(d) + turns) % 4)
  }

  /** `Clockwise` applied `n` times. */
  function ClockwiseTimes(d: Direction, n: nat): Direction
  {
    if n == 0 then d else Clockwise(ClockwiseTimes(d, n - 1))
  }

  /** `n` clockwise quarter turns advance the underlying value by `n`
      modulo 4. */
  lemma {:induction false} ClockwiseTimesIsTurned(d: Direction, n: nat)
    ensures ClockwiseTimes(d, n) == Turned(d, n)
  {
    if n > 0 {
      ClockwiseTimesIsTurned(d, n - 1);
      OrdinalInjective(ClockwiseTimes(d, n), Turned(d, n));
    } else {
      OrdinalInjective(d, Turned(d, 0));
    }
  }

  /** Four clockwise quarter turns give back the original orientation. */
  lemma ClockwiseFourTimes(d: Direction)
    ensures Clockwise(Clockwise(Clockwise(Clockwise(d)))) == d
  {
  }

  /** Clockwise rotation has order exactly 4: `n` quarter turns give back
      the original orientation if and only if `n` is a multiple of 4. */
  lemma ClockwiseOrder(d: Direction, n: nat)
    ensures ClockwiseTimes(d, n) == d <==> n % 4 == 0
  {
    ClockwiseTimesIsTurned(d, n);
    if n % 4 == 0 {
      OrdinalInjective(Turned(d, n), d);
    }
  }

  /** Four counter-clockwise quarter turns give back the original
      orientation. */
  lemma CounterClockwiseFourTimes(d: Direction)
    ensures CounterClockwise(CounterClockwise(CounterClockwise(CounterClockwise(d)))) == d
  {
  }

  /** The two rotations undo each other, in both orders. */
  lemma RotationsInverse(d: Direction)
    ensures CounterClockwise(Clockwise(d)) == d
    ensures Clockwise(CounterClockwise(d)) == d
  {
  }

  /** Adding a full turn does not change a remainder modulo 4. */
  lemma ModFullTurn(a: int)
    ensures (a + 4) % 4 == a % 4
  {
    var q, r := a / 4, a % 4;
    assert a + 4 == 4 * (q + 1) + r;
  }

  /** A quarter turn moves `Turned` by one step either way. */
  lemma TurnedAfterRotation(d: Direction, k: int)
    ensures Turned(Clockwise(d), k) == Turned(d, k + 1)
    ensures Turned(CounterClockwise(d), k) == Turned(d, k - 1)
  {
    match d
    case Up => ModFullTurn(k - 1);
    case Right =>
    case Down =>
    case Left => ModFullTurn(k);
  }

  // ---------------------------------------------------------------------
  // Positions and actions
  // ---------------------------------------------------------------------

  /** A board position or a displacement; y grows downward. */
  datatype Vector = Vector(x: int, y: int)

  function Add(a: Vector, b: Vector): Vector
  {
    Vector(a.x + b.x, a.y + b.y)
  }

  /** The game actions a brick responds to.  A C# enum variable can hold
      any value of its underlying type, not only the declared ones;
      `Unmatched` stands for every value the switch in `Update` does not
      name. */
  datatype Action =
    | RotateClockWise
    | RotateCounterClockWise
    | MoveLeft
    | MoveRight
    | MoveDown
    | Unmatched(value: int)

  /** The part of a brick's state that actions change. */
  datatype Pose = Pose(position: Vector, pointsAt: Direction)

  /** The pose after `Move(v)`. */
  function Moved(p: Pose, v: Vector): Pose
  {
    p.(position := Add(p.position, v))
  }

  /** The pose after `Update(a)`: one transform per named action, the pose
      itself for any other value. */
  function Apply(p: Pose, a: Action): Pose
  {
    match a
    case RotateClockWise => p.(pointsAt := Clockwise(p.pointsAt))
    case RotateCounterClockWise => p.(pointsAt := CounterClockwise(p.pointsAt))
    case MoveLeft => Moved(p, Vector(-1, 0))
    case MoveRight => Moved(p, Vector(1, 0))
    case MoveDown => Moved(p, Vector(0, 1))
    case Unmatched(_) => p
  }

  /** The pose after `Update` with each action of `actions` in turn. */
  function ApplyAll(p: Pose, actions: seq<Action>): Pose
    decreases |actions|
  {
    if |actions| == 0 then p else ApplyAll(Apply(p, actions[0]), actions[1..])
  }

  /** Each of the five named actions changes exactly one of position and
      orientation, and changes it; every other value changes nothing. */
  lemma ApplyEffect(p: Pose, a: Action)
    ensures a.RotateClockWise? || a.RotateCounterClockWise? ==>
              Apply(p, a).position == p.position && Apply(p, a).pointsAt != p.pointsAt
    ensures a.MoveLeft? || a.MoveRight? || a.MoveDown? ==>
              Apply(p, a).pointsAt == p.pointsAt && Apply(p, a).position != p.position
    ensures Apply(p, a) == p <==> a.Unmatched?
  {
  }

  /** The three moves shift the position by one cell left, right or down
      (y grows downward) and keep the orientation. */
  lemma MoveOffsets(p: Pose)
    ensures Apply(p, MoveLeft) == Pose(Vector(p.position.x - 1, p.position.y), p.pointsAt)
    ensures Apply(p, MoveRight) == Pose(Vector(p.position.x + 1, p.position.y), p.pointsAt)
    ensures Apply(p, MoveDown) == Pose(Vector(p.position.x, p.position.y + 1), p.pointsAt)
  {
  }

  /** Consecutive moves compose additively. */
  lemma MovesCompose(p: Pose, u: Vector, v: Vector)
    ensures Moved(Moved(p, u), v) == Moved(p, Add(u, v))
  {
  }

  /** A move left and a move right undo each other, in both orders. */
  lemma LateralMovesInverse(p: Pose)
    ensures Apply(Apply(p, MoveLeft), MoveRight) == p
    ensures Apply(Apply(p, MoveRight), MoveLeft) == p
  {
  }

  /** A clockwise and a counter-clockwise rotation action undo each other,
      in both orders. */
  lemma RotateActionsInverse(p: Pose)
    ensures Apply(Apply(p, RotateClockWise), RotateCounterClockWise) == p
    ensures Apply(Apply(p, RotateCounterClockWise), RotateClockWise) == p
  {
    RotationsInverse(p.pointsAt);
  }

  /** Four clockwise rotation actions give back the original pose. */
  lemma RotateActionFourTimes(p: Pose)
    ensures ApplyAll(p, [RotateClockWise, RotateClockWise, RotateClockWise, RotateClockWise]) == p
  {
    ClockwiseFourTimes(p.pointsAt);
  }

  /** Running `s` and then `t` is running `s + t`. */
  lemma {:induction false} ApplyAllAppend(p: Pose, s: seq<Action>, t: seq<Action>)
    ensures ApplyAll(p, s + t) == ApplyAll(ApplyAll(p, s), t)
    decreases |s|
  {
    if |s| > 0 {
      assert (s + t)[1..] == s[1..] + t;
      ApplyAllAppend(Apply(p, s[0]), s[1..], t);
    } else {
      assert s + t == t;
    }
  }

  /** The pose reached from `p` by the actions counted in `m`, whatever
      their order: the position moves by (#MoveRight - #MoveLeft, #MoveDown)
      and the orientation turns by #RotateClockWise - #RotateCounterClockWise
      quarter turns. */
  function ByCounts(p: Pose, m: multiset<Action>): Pose
  {
    Pose(Vector(p.position.x + m[MoveRight] - m[MoveLeft], p.position.y + m[MoveDown]),
         Turned(p.pointsAt, m[RotateClockWise] as int - m[RotateCounterClockWise]))
  }

  /** Counting one more action `a` is the same as applying `a` first. */
  lemma ByCountsStep(p: Pose, a: Action, m: multiset<Action>)
    ensures ByCounts(Apply(p, a), m) == ByCounts(p, multiset{a} + m)
  {
    TurnedAfterRotation(p.pointsAt, m[RotateClockWise] as int - m[RotateCounterClockWise]);
  }

  /** The pose after any sequence of actions is determined by how often each
      action occurs in it. */
  lemma {:induction false} ApplyAllByCounts(p: Pose, actions: seq<Action>)
    ensures ApplyAll(p, actions) == ByCounts(p, multiset(actions))
    decreases |actions|
  {
    if |actions| == 0 {
      OrdinalInjective(p.pointsAt, Turned(p.pointsAt, 0));
    } else {
      var a, rest := actions[0], actions[1..];
      assert actions == [a] + rest;
      ApplyAllByCounts(Apply(p, a), rest);
      ByCountsStep(p, a, multiset(rest));
    }
  }

  /** Actions commute: two sequences holding the same actions, in any order,
      lead to the same pose. */
  lemma ReorderedActionsSamePose(p: Pose, s: seq<Action>, t: seq<Action>)
    requires multiset(s) == multiset(t)
    ensures ApplyAll(p, s) == ApplyAll(p, t)
  {
    ApplyAllByCounts(p, s);
    ApplyAllByCounts(p, t);
  }

  // ---------------------------------------------------------------------
  // The shape map and the brick
  // ---------------------------------------------------------------------

  /** One cell of a brick as its shape map reports it (position, colour and
      state); its contents play no part in the brick's logic. */
  type Tile

  /** The shape map a brick asks for its cells.  Only the shape projection is
      modelled, as a function of the orientation and the anchor position
      alone. */
  class BrickMap {
    const project: (Direction, Vector) -> seq<Tile>

    constructor (project: (Direction, Vector) -> seq<Tile>)
      ensures this.project == project
    {
      this.project := project;
    }

    /** The cells of a brick anchored at `position` pointing at `pointsAt`. */
    function GetTilesWhenPointingAt(pointsAt: Direction, position: Vector): seq<Tile>
    {
      project(pointsAt, position)
    }
  }

  /** The cells a brick in pose `p` occupies according to shape map `m`. */
  function TilesAt(m: BrickMap, p: Pose): seq<Tile>
  {
    m.GetTilesWhenPointingAt(p.pointsAt, p.position)
  }

  /** Undoing an action undoes its effect on the brick's cells. */
  lemma InverseActionsRestoreTiles(m: BrickMap, p: Pose)
    ensures TilesAt(m, Apply(Apply(p, RotateClockWise), RotateCounterClockWise)) == TilesAt(m, p)
    ensures TilesAt(m, Apply(Apply(p, RotateCounterClockWise), RotateClockWise)) == TilesAt(m, p)
    ensures TilesAt(m, Apply(Apply(p, MoveLeft), MoveRight)) == TilesAt(m, p)
    ensures TilesAt(m, Apply(Apply(p, MoveRight), MoveLeft)) == TilesAt(m, p)
  {
  }

  /** The falling piece. */
  class Brick {
    var Position: Vector
    var PointsAt: Direction
    var BrickMap: BrickMap

    /** The current pose. */
    function State(): Pose
      reads this
    {
      Pose(Position, PointsAt)
    }

    /** The brick's cells, recomputed from the current orientation and
        position on every read; no cell list is stored. */
    function Tiles(): seq<Tile>
      reads this
    {
      BrickMap.GetTilesWhenPointingAt(PointsAt, Position)
    }

    constructor (position: Vector, pointsAt: Direction, brickMap: BrickMap)
      ensures Position == position && PointsAt == pointsAt && BrickMap == brickMap
    {
      Position := position;
      PointsAt := pointsAt;
      BrickMap := brickMap;
    }

    /** Applies one game action. */
    method Update(action: Action)
      modifies this
      ensures State() == Apply(old(State()), action)
      ensures BrickMap == old(BrickMap)
      ensures Tiles() == TilesAt(BrickMap, Apply(old(State()), action))
    {
      match action
      case RotateClockWise => RotateClockWise();
      case RotateCounterClockWise => RotateCounterClockWise();
      case MoveLeft => Move(Vector(-1, 0));
      case MoveRight => Move(Vector(1, 0));
      case MoveDown => Move(Vector(0, 1));
      case Unmatched(_) =>
    }

    /** Shifts the anchor by `v`. */
    method Move(v: Vector)
      modifies this
      ensures Position == Add(old(Position), v)
      ensures State() == Moved(old(State()), v)
      ensures PointsAt == old(PointsAt) && BrickMap == old(BrickMap)
    {
      Position := Add(Position, v);
    }

    /** Turns the brick a quarter turn clockwise. */
    method RotateClockWise()
      modifies this
      ensures PointsAt == Clockwise(old(PointsAt))
      ensures Position == old(Position) && BrickMap == old(BrickMap)
    {
      match PointsAt
      case Up => PointsAt := Right;
      case Right => PointsAt := Down;
      case Down => PointsAt := Left;
      case Left => PointsAt := Up;
    }

    /** Turns the brick a quarter turn counter-clockwise. */
    method RotateCounterClockWise()
      modifies this
      ensures PointsAt == CounterClockwise(old(PointsAt))
      ensures Position == old(Position) && BrickMap == old(BrickMap)
    {
      match PointsAt
      case Up => PointsAt := Left;
      case Right => PointsAt := Up;
      case Down => PointsAt := Right;
      case Left => PointsAt := Down;
    }
  }

  /** Two bricks in the same pose with the same shape map report the same cells:
      the cells depend on the current state and on nothing else. */
  lemma TilesDependOnlyOnState(a: Brick, b: Brick)
    requires a.BrickMap == b.BrickMap && a.State() == b.State()
    ensures a.Tiles() == b.Tiles()
  {
  }
}
