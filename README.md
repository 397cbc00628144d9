# PilesOfTiles brick model

A Dafny model of the falling piece ("brick") of the PilesOfTiles
falling-block game. A brick has three parts:

- an anchor position;
- an orientation, one of Up, Right, Down and Left;
- a reference to its shape map (`BrickMap`), which turns orientation and
  position into the cells the brick covers.

Game actions change the brick in place. Two of them rotate it a quarter
turn clockwise or counter-clockwise. Three of them move it one cell left,
right or down, with y growing downward. Any other action value does
nothing. The brick stores no cells. Its `Tiles` are recomputed from the
current orientation and position each time they are read.

Everything is in `brick.dfy`, in module `Bricks`:

- `Brick` is a class with the fields `Position`, `PointsAt` and `BrickMap`.
  Its methods `Update`, `Move`, `RotateClockWise` and
  `RotateCounterClockWise` update those fields, as the C# methods do.
- Each method's `ensures` ties the new state to a pure function of the old one:
  - `Update` to `Apply` on `Pose`, the (position, orientation) pair, and
    its reported `Tiles` to the shape map's projection of that new pose;
  - `Move` to `Add` on the position and `Moved` on the pose;
  - `RotateClockWise` and `RotateCounterClockWise` to `Clockwise` and
    `CounterClockwise` on `Direction`.
- `ApplyAll` is a specification function for a run of actions, one
  `Update` after another; only the lemmas use it.
- The lemmas prove the cycle and inverse laws of the rotations, the effect
  of each action, and that inverse actions restore the state.
- `ApplyAllByCounts` shows that the pose after any run of actions depends
  only on how often each action occurs. So actions commute
  (`ReorderedActionsSamePose`).

`Move` and the two rotations overwrite `Position` and `PointsAt` at once.
Checking a move against the settled tiles of the level belongs to the caller and is not modelled.

## Model

| member | source | states |
|---|---|---|
| `Bricks.Clockwise` | PilesOfTiles/Bricks/Brick.cs:53-70 | a clockwise quarter turn is the next enum value (Up, Right, Down, Left) modulo 4 |
| `Bricks.CounterClockwise` | PilesOfTiles/Bricks/Brick.cs:72-89 | a counter-clockwise quarter turn is the previous enum value modulo 4 |
| `Bricks.ClockwiseTimesIsTurned` | PilesOfTiles/Bricks/Brick.cs:53-70 | n clockwise turns advance the orientation's enum value by n modulo 4 |
| `Bricks.ClockwiseFourTimes` | PilesOfTiles/Bricks/Brick.cs:53-70 | four clockwise turns give back the original orientation |
| `Bricks.ClockwiseOrder` | PilesOfTiles/Bricks/Brick.cs:53-70 | n clockwise turns give back the original orientation if and only if n is a multiple of 4 |
| `Bricks.CounterClockwiseFourTimes` | PilesOfTiles/Bricks/Brick.cs:72-89 | four counter-clockwise turns give back the original orientation |
| `Bricks.RotationsInverse` | PilesOfTiles/Bricks/Brick.cs:53-89 | counter-clockwise after clockwise, and clockwise after counter-clockwise, are both the identity |
| `Bricks.TurnedAfterRotation` | PilesOfTiles/Bricks/Brick.cs:53-89 | a quarter turn either way shifts the turn count by one |
| `Bricks.ApplyEffect` | PilesOfTiles/Bricks/Brick.cs:26-46 | a rotation action keeps the position and changes the orientation; a move action keeps the orientation and changes the position; the state is unchanged exactly when the action is not one of the five the switch names |
| `Bricks.MoveOffsets` | PilesOfTiles/Bricks/Brick.cs:36-44 | MoveLeft, MoveRight and MoveDown shift the position by (-1,0), (+1,0) and (0,+1) and keep the orientation |
| `Bricks.MovesCompose` | PilesOfTiles/Bricks/Brick.cs:48-51 | moving by u and then by v is moving by u + v |
| `Bricks.LateralMovesInverse` | PilesOfTiles/Bricks/Brick.cs:36-41 | MoveLeft then MoveRight, and MoveRight then MoveLeft, restore the original state |
| `Bricks.RotateActionsInverse` | PilesOfTiles/Bricks/Brick.cs:30-35 | the two rotation actions undo each other in both orders |
| `Bricks.RotateActionFourTimes` | PilesOfTiles/Bricks/Brick.cs:30-32 | four RotateClockWise actions restore the original state |
| `Bricks.ApplyAllAppend` | PilesOfTiles/Bricks/Brick.cs:26-46 | running two action sequences one after the other is running their concatenation |
| `Bricks.ByCountsStep` | PilesOfTiles/Bricks/Brick.cs:26-89 | applying one action, then counting the rest, is counting that action too |
| `Bricks.ApplyAllByCounts` | PilesOfTiles/Bricks/Brick.cs:26-89 | after any sequence of actions the position has moved by (#MoveRight - #MoveLeft, #MoveDown) and the orientation has turned by #RotateClockWise - #RotateCounterClockWise quarter turns |
| `Bricks.ReorderedActionsSamePose` | PilesOfTiles/Bricks/Brick.cs:26-46 | two action sequences that hold the same actions in any order reach the same state |
| `Bricks.InverseActionsRestoreTiles` | PilesOfTiles/Bricks/Brick.cs:14-17 | after a rotation and its inverse, or a left and a right move, the brick reports the same cells as before |
| `Bricks.TilesDependOnlyOnState` | PilesOfTiles/Bricks/Brick.cs:14-17 | `Tiles` stores nothing: two bricks with the same position, orientation and shape map report the same cells |
| `Bricks.Brick.constructor` | PilesOfTiles/Bricks/Brick.cs:19-24 | the new brick holds exactly the given position, orientation and shape map |
| `Bricks.Brick.Update` | PilesOfTiles/Bricks/Brick.cs:26-46 | the new state is `Apply` of the old state and the action; the shape map reference is unchanged; `Tiles` then reports the shape map's projection of the new pose |
| `Bricks.Brick.Move` | PilesOfTiles/Bricks/Brick.cs:48-51 | the position becomes the old position plus v (the pose becomes `Moved` of the old one); orientation and shape map are unchanged |
| `Bricks.Brick.RotateClockWise` | PilesOfTiles/Bricks/Brick.cs:53-70 | the orientation becomes `Clockwise` of the old one; position and shape map are unchanged |
| `Bricks.Brick.RotateCounterClockWise` | PilesOfTiles/Bricks/Brick.cs:72-89 | the orientation becomes `CounterClockwise` of the old one; position and shape map are unchanged |

## Left out

- Position arithmetic: the C# position is an XNA `Vector2` of floats. The model uses a pair of unbounded integers, because every offset the brick applies is a whole unit step. Float rounding is not modelled.
- `BrickMap`: its source is not part of this model. It is a stand-in class whose shape projection is an arbitrary total function of (orientation, position), fixed when the map is built. The level that holds the settled tiles, with its bounds, overlap checks, merging and row clearing, is not part of this model either.
- `ITile`: its source is not part of this model. Tiles are an abstract type `Tile`.
- The `Action` enum: its source is not part of this model. The model has the five named values plus `Unmatched(value)`. `Unmatched` stands for any other value a C# enum variable can hold. The switch in `Update` has no `default`, so such a value does nothing.
- Collision handling: `PilesOfTiles/Collision/Messages/BrickCollided.cs` is only a property bag (a brick and a correction vector). The code does not show how the correction is computed or applied, so no collision semantics are modelled.
- `PilesOfTiles/DrawEffects/DrawEffectService.cs`: presentation only. It covers sprite drawing, event-aggregator messaging, randomised tile jitter, screen shake and key-hold timing.
- Out-of-range values: `Direction` has only its four declared values. A C# enum variable could hold another value, which the rotation switches (Brick.cs:55-69, 74-88) have no `default` for and would leave unchanged; such values are not modelled, and `ApplyEffect` and `ClockwiseOrder` hold only for the four declared ones. A null `BrickMap`, which would make the `Tiles` getter throw, is not modelled either.
- Aliasing: several bricks could share one `BrickMap`. The shape map is never modified here, and every method's `modifies` clause names only the brick itself.
