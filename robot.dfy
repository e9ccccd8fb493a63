/**
 * The robot state machine (src/domain/Robot.ts). The robot is unplaced or placed at a cell of the
 * table [0, width) x [0, height); `place` replaces the whole position, `move` steps one cell when
 * the target is on the table, and the turns rotate through NORTH, EAST, SOUTH, WEST.
 *
 * Each state-changing method of class Robot is proved against a transition function on values
 * (old position -> new position and result); the properties the source promises are stated on
 * those functions.
 */
module Robots {
  import opened Wrappers
  import opened Strings
  import opened Domain

  // ---------------------------------------------------------------------------------------------
  // Geometry: the private helpers of Robot.ts

  /** isValidPosition: the cell lies on the table. */
  predicate IsValidPosition(bounds: TableBounds, x: int, y: int) {
    0 <= x < bounds.width && 0 <= y < bounds.height
  }

  /** The robot's invariant: whenever it is placed, it is on the table. */
  predicate PlacedInBounds(bounds: TableBounds, position: Option<Position>) {
    position.Some? ==> IsValidPosition(bounds, position.value.x, position.value.y)
  }

  /** Position of a heading in the clockwise cycle NORTH -> EAST -> SOUTH -> WEST -> NORTH. */
  function Index(d: Direction): (i: nat)
    ensures i < 4
  {
    match d
    case North => 0
    case East => 1
    case South => 2
    case West => 3
  }

  /** The unit step of each heading, as an east-west and a north-south offset indexed by the cycle. */
  function DeltaX(d: Direction): int {
    [0, 1, 0, -1][Index(d)]
  }

  function DeltaY(d: Direction): int {
    [1, 0, -1, 0][Index(d)]
  }

  /** calculateNewPosition: one cell ahead in the current heading, heading unchanged. */
  function CalculateNewPosition(p: Position): (r: Position)
    ensures r.direction == p.direction
    ensures r.x == p.x + DeltaX(p.direction) && r.y == p.y + DeltaY(p.direction)
  {
    match p.direction
    case North => Position(p.x, p.y + 1, p.direction)
    case East => Position(p.x + 1, p.y, p.direction)
    case South => Position(p.x, p.y - 1, p.direction)
    case West => Position(p.x - 1, p.y, p.direction)
  }

  /** getLeftDirection: the counter-clockwise predecessor in the cycle. */
  function GetLeftDirection(d: Direction): (r: Direction)
    ensures Index(r) == (Index(d) + 3) % 4
  {
    match d
    case North => West
    case West => South
    case South => East
    case East => North
  }

  /** getRightDirection: the clockwise successor in the cycle. */
  function GetRightDirection(d: Direction): (r: Direction)
    ensures Index(r) == (Index(d) + 1) % 4
  {
    match d
    case North => East
    case East => South
    case South => West
    case West => North
  }

  lemma IndexInjective(d: Direction, e: Direction)
    requires Index(d) == Index(e)
    ensures d == e
  {
  }

  /** Left and right are inverse rotations. */
  lemma {:induction false} LeftRightInverse(d: Direction)
    ensures GetRightDirection(GetLeftDirection(d)) == d
    ensures GetLeftDirection(GetRightDirection(d)) == d
  {
    IndexInjective(GetRightDirection(GetLeftDirection(d)), d);
    IndexInjective(GetLeftDirection(GetRightDirection(d)), d);
  }

  /** Four quarter turns in the same sense come back to the starting heading. */
  lemma {:induction false} FourTurnsRestore(d: Direction)
    ensures GetLeftDirection(GetLeftDirection(GetLeftDirection(GetLeftDirection(d)))) == d
    ensures GetRightDirection(GetRightDirection(GetRightDirection(GetRightDirection(d)))) == d
  {
    IndexInjective(GetLeftDirection(GetLeftDirection(GetLeftDirection(GetLeftDirection(d)))), d);
    IndexInjective(GetRightDirection(GetRightDirection(GetRightDirection(GetRightDirection(d)))), d);
  }

  /** Stepping forward, turning round and stepping forward again comes back to the first cell. */
  lemma {:induction false} StepThereAndBack(p: Position)
    ensures var q := CalculateNewPosition(p);
            var back := CalculateNewPosition(q.(direction := GetLeftDirection(GetLeftDirection(q.direction))));
            back.x == p.x && back.y == p.y
  {
    var turned := GetLeftDirection(GetLeftDirection(p.direction));
    assert Index(turned) == (Index(p.direction) + 2) % 4;
  }

  // ---------------------------------------------------------------------------------------------
  // Transitions: what each operation does to the position and what it returns

  /** The message of a move whose target cell is off the table. */
  function MoveOutOfBoundsMessage(x: int, y: int): string {
    "Cannot move to position " + Cell(x, y) + " - outside table bounds"
  }

  /** place(x, y, direction) */
  function PlaceTransition(bounds: TableBounds, position: Option<Position>, x: int, y: int, d: Direction)
    : (r: (Option<Position>, Result<()>))
    ensures r.1.Success? <==> IsValidPosition(bounds, x, y)
    ensures r.1.Success? ==> r.0 == Some(Position(x, y, d))
    ensures r.1.Failure? ==> r.0 == position && r.1.error == InvalidPositionMessage(x, y)
    ensures PlacedInBounds(bounds, position) ==> PlacedInBounds(bounds, r.0)
  {
    if !IsValidPosition(bounds, x, y) then (position, Failure(InvalidPositionMessage(x, y)))
    else (Some(Position(x, y, d)), Success(()))
  }

  /** move() */
  function MoveTransition(bounds: TableBounds, position: Option<Position>): (r: (Option<Position>, Result<()>))
    ensures position.None? ==> r == (position, Failure(RobotNotPlacedMessage))
    ensures position.Some? ==>
              var target := CalculateNewPosition(position.value);
              && (r.1.Success? <==> IsValidPosition(bounds, target.x, target.y))
              && (r.1.Success? ==> r.0 == Some(target))
              && (r.1.Failure? ==> r.0 == position && r.1.error == MoveOutOfBoundsMessage(target.x, target.y))
    ensures r.1.Success? ==> PlacedInBounds(bounds, r.0)
    ensures PlacedInBounds(bounds, position) ==> PlacedInBounds(bounds, r.0)
  {
    if position.None? then (position, Failure(RobotNotPlacedMessage))
    else
      var target := CalculateNewPosition(position.value);
      if !IsValidPosition(bounds, target.x, target.y) then
        (position, Failure(MoveOutOfBoundsMessage(target.x, target.y)))
      else (Some(target), Success(()))
  }

  /** turnLeft() */
  function TurnLeftTransition(position: Option<Position>): (r: (Option<Position>, Result<()>))
    ensures position.None? ==> r == (position, Failure(RobotNotPlacedMessage))
    ensures position.Some? ==> r.1 == Success(()) && r.0.Some?
    ensures position.Some? ==> r.0.value.x == position.value.x && r.0.value.y == position.value.y
    ensures position.Some? ==> Index(r.0.value.direction) == (Index(position.value.direction) + 3) % 4
  {
    if position.None? then (position, Failure(RobotNotPlacedMessage))
    else (Some(position.value.(direction := GetLeftDirection(position.value.direction))), Success(()))
  }

  /** turnRight() */
  function TurnRightTransition(position: Option<Position>): (r: (Option<Position>, Result<()>))
    ensures position.None? ==> r == (position, Failure(RobotNotPlacedMessage))
    ensures position.Some? ==> r.1 == Success(()) && r.0.Some?
    ensures position.Some? ==> r.0.value.x == position.value.x && r.0.value.y == position.value.y
    ensures position.Some? ==> Index(r.0.value.direction) == (Index(position.value.direction) + 1) % 4
  {
    if position.None? then (position, Failure(RobotNotPlacedMessage))
    else (Some(position.value.(direction := GetRightDirection(position.value.direction))), Success(()))
  }

  /** Turning never moves the robot off the table (a turn keeps x and y). */
  lemma TurnsPreserveInvariant(bounds: TableBounds, position: Option<Position>)
    requires PlacedInBounds(bounds, position)
    ensures PlacedInBounds(bounds, TurnLeftTransition(position).0)
    ensures PlacedInBounds(bounds, TurnRightTransition(position).0)
  {
  }

  /** A left turn followed by a right turn (or the reverse) gives back the same position. */
  lemma {:induction false} TurnLeftThenRight(position: Option<Position>)
    ensures TurnRightTransition(TurnLeftTransition(position).0).0 == position
    ensures TurnLeftTransition(TurnRightTransition(position).0).0 == position
  {
    if position.Some? {
      LeftRightInverse(position.value.direction);
    }
  }

  /** A move rejected at the edge is rejected again, identically, if retried. */
  lemma RejectedMoveIsStable(bounds: TableBounds, position: Option<Position>)
    requires MoveTransition(bounds, position).1.Failure?
    ensures MoveTransition(bounds, MoveTransition(bounds, position).0) == MoveTransition(bounds, position)
  {
  }

  // ---------------------------------------------------------------------------------------------
  // The robot object

  class Robot {
    /** null while unplaced. */
    var position: Option<Position>
    const tableBounds: TableBounds

    ghost predicate Valid()
      reads this
    {
      PlacedInBounds(tableBounds, position)
    }

    /** A new robot is unplaced and keeps the bounds it was given. */
    constructor (tableBounds: TableBounds)
      ensures this.tableBounds == tableBounds
      ensures position == None
      ensures Valid()
    {
      this.tableBounds := tableBounds;
      position := None;
    }

    method Place(x: int, y: int, direction: Direction) returns (r: Result<()>)
      modifies this
      ensures (position, r) == PlaceTransition(tableBounds, old(position), x, y, direction)
      ensures old(Valid()) ==> Valid()
    {
      if !IsValidPosition(tableBounds, x, y) {
        return Failure(InvalidPositionMessage(x, y));
      }
      position := Some(Position(x, y, direction));
      return Success(());
    }

    method Move() returns (r: Result<()>)
      modifies this
      ensures (position, r) == MoveTransition(tableBounds, old(position))
      ensures old(Valid()) ==> Valid()
    {
      if !IsPlaced() {
        return Failure(RobotNotPlacedMessage);
      }
      var currentPosition := position.value;
      var newPosition := CalculateNewPosition(currentPosition);
      if !IsValidPosition(tableBounds, newPosition.x, newPosition.y) {
        return Failure(MoveOutOfBoundsMessage(newPosition.x, newPosition.y));
      }
      position := Some(newPosition);
      return Success(());
    }

    method TurnLeft() returns (r: Result<()>)
      modifies this
      ensures (position, r) == TurnLeftTransition(old(position))
      ensures old(Valid()) ==> Valid()
    {
      if !IsPlaced() {
        return Failure(RobotNotPlacedMessage);
      }
      var currentPosition := position.value;
      var newDirection := GetLeftDirection(currentPosition.direction);
      position := Some(currentPosition.(direction := newDirection));
      return Success(());
    }

    method TurnRight() returns (r: Result<()>)
      modifies this
      ensures (position, r) == TurnRightTransition(old(position))
      ensures old(Valid()) ==> Valid()
    {
      if !IsPlaced() {
        return Failure(RobotNotPlacedMessage);
      }
      var currentPosition := position.value;
      var newDirection := GetRightDirection(currentPosition.direction);
      position := Some(currentPosition.(direction := newDirection));
      return Success(());
    }

    /** getPosition: a copy of the position (a value here), on the table whenever present. */
    function GetPosition(): (p: Option<Position>)
      reads this
      ensures Valid() ==> PlacedInBounds(tableBounds, p)
    {
      position
    }

    /** isPlaced: true exactly when getPosition is not null. */
    function IsPlaced(): (b: bool)
      reads this
      ensures b <==> GetPosition().Some?
    {
      position != None
    }

    /** getTableBounds: the bounds given at construction. */
    function GetTableBounds(): TableBounds {
      tableBounds
    }
  }
}
