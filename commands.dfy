/**
 * PLACE (src/application/commands/PlaceCommand.ts): guards on the coordinates and the direction,
 * then robot.place, then the user-facing message.
 *
 * Coordinates are integers in this model, so the source's first guard (Number.isInteger, which
 * yields "Coordinates must be integers") always passes and is not represented.
 */
module PlaceCommand {
  import opened Wrappers
  import opened Strings
  import opened Domain
  import opened Robots

  const NegativeCoordinatesMessage: string := "Coordinates must be non-negative"

  function InvalidDirectionMessage(direction: string): string {
    "Invalid direction: " + direction + ". Must be one of: " + Join(DirectionNames, ", ")
  }

  function PlacedMessage(x: int, y: int, direction: string): string {
    "Robot placed at " + Cell(x, y) + " facing " + direction
  }

  /** The new position of the robot and the result of execute(). */
  function Effect(bounds: TableBounds, position: Option<Position>, x: int, y: int, direction: string)
    : (r: (Option<Position>, Result<string>))
    ensures x < 0 || y < 0 ==> r == (position, Failure(NegativeCoordinatesMessage))
    ensures x >= 0 && y >= 0 && direction !in DirectionNames ==>
              r == (position, Failure(InvalidDirectionMessage(direction)))
    ensures x >= 0 && y >= 0 && direction in DirectionNames && !IsValidPosition(bounds, x, y) ==>
              r == (position, Failure(InvalidPositionMessage(x, y)))
    ensures r.1.Success? <==> IsValidPosition(bounds, x, y) && direction in DirectionNames
    ensures r.1.Success? ==>
              && r.0 == Some(Position(x, y, ParseDirection(direction).value))
              && Name(r.0.value.direction) == direction
              && r.1.data == PlacedMessage(x, y, direction)
    ensures r.1.Failure? ==> r.0 == position
  {
    if x < 0 || y < 0 then (position, Failure(NegativeCoordinatesMessage))
    else
      match ParseDirection(direction)
      case None => (position, Failure(InvalidDirectionMessage(direction)))
      case Some(d) =>
        var (newPosition, result) := PlaceTransition(bounds, position, x, y, d);
        if result.Success? then (newPosition, Success(PlacedMessage(x, y, direction)))
        else (newPosition, Failure(result.error))
  }

  method Execute(robot: Robot, x: int, y: int, direction: string) returns (r: Result<string>)
    modifies robot
    ensures (robot.position, r) == Effect(robot.tableBounds, old(robot.position), x, y, direction)
  {
    if x < 0 || y < 0 {
      return Failure(NegativeCoordinatesMessage);
    }
    if direction !in DirectionNames {
      return Failure(InvalidDirectionMessage(direction));
    }
    var result := robot.Place(x, y, ParseDirection(direction).value);
    if result.Success? {
      return Success(PlacedMessage(x, y, direction));
    } else {
      return Failure(result.error);
    }
  }
}

/** MOVE (src/application/commands/MoveCommand.ts): placed guard, robot.move, message. */
module MoveCommand {
  import opened Wrappers
  import opened Strings
  import opened Domain
  import opened Robots

  const NotPlacedMessage: string := "Robot must be placed on the table before it can move"

  function MovedMessage(p: Position): string {
    "Robot moved to " + Cell(p.x, p.y) + " facing " + Name(p.direction)
  }

  /** The new position of the robot and the result of execute(). */
  function Effect(bounds: TableBounds, position: Option<Position>): (r: (Option<Position>, Result<string>))
    ensures position.None? ==> r == (position, Failure(NotPlacedMessage))
    ensures position.Some? ==> r.0 == MoveTransition(bounds, position).0
    ensures r.1.Success? ==> r.0.Some? && r.1.data == MovedMessage(r.0.value)
    ensures position.Some? && MoveTransition(bounds, position).1.Failure? ==>
              r.1 == Failure(MoveTransition(bounds, position).1.error)
    ensures r.1.Failure? ==> r.0 == position
  {
    if position.None? then (position, Failure(NotPlacedMessage))
    else
      var (newPosition, result) := MoveTransition(bounds, position);
      if result.Success? then (newPosition, Success(MovedMessage(newPosition.value)))
      else (newPosition, Failure(result.error))
  }

  /** A refused move at the edge leaves the robot where it was, with the robot's own message. */
  lemma {:induction false} EdgeMoveRefused(bounds: TableBounds, p: Position)
    requires IsValidPosition(bounds, p.x, p.y)
    requires var t := CalculateNewPosition(p); !IsValidPosition(bounds, t.x, t.y)
    ensures var t := CalculateNewPosition(p);
            Effect(bounds, Some(p)) == (Some(p), Failure(MoveOutOfBoundsMessage(t.x, t.y)))
  {
    var t := CalculateNewPosition(p);
    assert MoveTransition(bounds, Some(p)).1 == Failure(MoveOutOfBoundsMessage(t.x, t.y));
  }

  method Execute(robot: Robot) returns (r: Result<string>)
    modifies robot
    ensures (robot.position, r) == Effect(robot.tableBounds, old(robot.position))
  {
    if !robot.IsPlaced() {
      return Failure(NotPlacedMessage);
    }
    var result := robot.Move();
    if result.Success? {
      var position := robot.GetPosition().value;
      return Success(MovedMessage(position));
    } else {
      return Failure(result.error);
    }
  }
}

/**
 * LEFT (src/application/commands/LeftCommand.ts): placed guard, robot.turnLeft, message.
 * The robot refuses a turn only when unplaced, which the guard has already excluded, so the
 * source's branch that passes a robot failure through can never be taken and is not represented.
 */
module LeftCommand {
  import opened Wrappers
  import opened Strings
  import opened Domain
  import opened Robots

  const NotPlacedMessage: string := "Robot must be placed on the table before it can turn"

  function TurnedMessage(d: Direction): string {
    "Robot turned left, now facing " + Name(d)
  }

  /** The new position of the robot and the result of execute(). */
  function Effect(position: Option<Position>): (r: (Option<Position>, Result<string>))
    ensures position.None? ==> r == (position, Failure(NotPlacedMessage))
    ensures position.Some? ==> r.0 == TurnLeftTransition(position).0
    ensures position.Some? ==> r.1 == Success(TurnedMessage(r.0.value.direction))
  {
    if position.None? then (position, Failure(NotPlacedMessage))
    else
      var newPosition := TurnLeftTransition(position).0;
      (newPosition, Success(TurnedMessage(newPosition.value.direction)))
  }

  /** Four LEFT commands give back the starting position; x and y never change on the way. */
  lemma {:induction false} FourLeftsRestore(position: Option<Position>)
    ensures Effect(Effect(Effect(Effect(position).0).0).0).0 == position
  {
    if position.Some? {
      FourTurnsRestore(position.value.direction);
    }
  }

  method Execute(robot: Robot) returns (r: Result<string>)
    modifies robot
    ensures (robot.position, r) == Effect(old(robot.position))
  {
    if !robot.IsPlaced() {
      return Failure(NotPlacedMessage);
    }
    var _ := robot.TurnLeft();
    var position := robot.GetPosition().value;
    return Success(TurnedMessage(position.direction));
  }
}

/** RIGHT (src/application/commands/RightCommand.ts): as LEFT, turning clockwise. */
module RightCommand {
  import opened Wrappers
  import opened Strings
  import opened Domain
  import opened Robots

  const NotPlacedMessage: string := "Robot must be placed on the table before it can turn"

  function TurnedMessage(d: Direction): string {
    "Robot turned right, now facing " + Name(d)
  }

  /** The new position of the robot and the result of execute(). */
  function Effect(position: Option<Position>): (r: (Option<Position>, Result<string>))
    ensures position.None? ==> r == (position, Failure(NotPlacedMessage))
    ensures position.Some? ==> r.0 == TurnRightTransition(position).0
    ensures position.Some? ==> r.1 == Success(TurnedMessage(r.0.value.direction))
  {
    if position.None? then (position, Failure(NotPlacedMessage))
    else
      var newPosition := TurnRightTransition(position).0;
      (newPosition, Success(TurnedMessage(newPosition.value.direction)))
  }

  /** Four RIGHT commands give back the starting position; x and y never change on the way. */
  lemma {:induction false} FourRightsRestore(position: Option<Position>)
    ensures Effect(Effect(Effect(Effect(position).0).0).0).0 == position
  {
    if position.Some? {
      FourTurnsRestore(position.value.direction);
    }
  }

  method Execute(robot: Robot) returns (r: Result<string>)
    modifies robot
    ensures (robot.position, r) == Effect(old(robot.position))
  {
    if !robot.IsPlaced() {
      return Failure(NotPlacedMessage);
    }
    var _ := robot.TurnRight();
    var position := robot.GetPosition().value;
    return Success(TurnedMessage(position.direction));
  }
}

/** REPORT (src/application/commands/ReportCommand.ts): a read-only query rendering "Output: x,y,D". */
module ReportCommand {
  import opened Wrappers
  import opened Strings
  import opened Domain
  import opened Robots

  const NotPlacedMessage: string := "Robot has not been placed on the table yet"

  /** execute(): reads the robot and changes nothing. */
  function Execute(robot: Robot): (r: Result<string>)
    reads robot
    ensures !robot.IsPlaced() ==> r == Failure(NotPlacedMessage)
    ensures robot.IsPlaced() ==> r == Success(Render(robot.GetPosition().value))
    ensures robot.IsPlaced() ==> ReadReport(r.data) == robot.GetPosition()
  {
    if !robot.IsPlaced() then Failure(NotPlacedMessage)
    else
      var p := robot.GetPosition().value;
      ReportReadsBack(p);
      Success(Render(p))
  }

  /** "Output: x,y,D". */
  function Render(p: Position): string {
    "Output: " + Join([IntToString(p.x), IntToString(p.y), Name(p.direction)], ",")
  }

  /** Reads a report line back into the position it describes. */
  function ReadReport(line: string): Option<Position> {
    if |line| < 8 || line[..8] != "Output: " then None
    else
      var fields := SplitOn(line[8..], ',');
      if |fields| != 3 then None
      else
        match (ParseInt(fields[0]), ParseInt(fields[1]), ParseDirection(fields[2]))
        case (Some(x), Some(y), Some(d)) => Some(Position(x, y, d))
        case _ => None
  }

  /** The report of a position names that position and nothing else. */
  lemma ReportReadsBack(p: Position)
    ensures ReadReport(Render(p)) == Some(p)
  {
    RenderFields(p);
    ParseIntRendering(p.x);
    ParseIntRendering(p.y);
    ParseDirectionName(p.direction);
  }

  /** A report line is the prefix and the three fields, which a split on commas gives back. */
  lemma RenderFields(p: Position)
    ensures var line := Render(p);
            && |line| >= 8 && line[..8] == "Output: "
            && SplitOn(line[8..], ',') == [IntToString(p.x), IntToString(p.y), Name(p.direction)]
  {
    var fields := [IntToString(p.x), IntToString(p.y), Name(p.direction)];
    IntToStringPlain(p.x);
    IntToStringPlain(p.y);
    assert ',' !in Name(p.direction);
    SplitOnJoin(fields, ',');
    var line := Render(p);
    assert line[..8] == "Output: " && line[8..] == Join(fields, ",");
  }
}

/**
 * The Command interface (src/application/commands/Command.ts). The source's command objects have
 * only readonly fields, so a command is a value holding the robot it is bound to. Custom stands
 * for a command registered from outside the five built-in ones; it leaves its robot alone and
 * either returns a fixed result or throws.
 */
module Commands {
  import opened Wrappers
  import opened ErrorHandling
  import opened Domain
  import opened Robots
  import PlaceCommand
  import MoveCommand
  import LeftCommand
  import RightCommand
  import ReportCommand

  datatype Command =
    | Place(robot: Robot, x: int, y: int, direction: string)
    | Move(robot: Robot)
    | Left(robot: Robot)
    | Right(robot: Robot)
    | Report(robot: Robot)
    | Custom(robot: Robot, outcome: Attempt<Result<string>>)

  /** What execute() does: the bound robot's new position, and the result or the fault. */
  function Effect(c: Command): (r: (Option<Position>, Attempt<Result<string>>))
    reads c.robot
    ensures !c.Custom? ==> r.1.Returned?
    ensures c.Report? || c.Custom? ==> r.0 == c.robot.position
    ensures r.1.Returned? && r.1.value.Failure? ==> r.0 == c.robot.position
    ensures PlacedInBounds(c.robot.tableBounds, c.robot.position) ==> PlacedInBounds(c.robot.tableBounds, r.0)
  {
    var bounds, position := c.robot.tableBounds, c.robot.position;
    match c
    case Place(_, x, y, direction) =>
      var (p, result) := PlaceCommand.Effect(bounds, position, x, y, direction);
      (p, Returned(result))
    case Move(_) =>
      var (p, result) := MoveCommand.Effect(bounds, position);
      (p, Returned(result))
    case Left(_) =>
      var (p, result) := LeftCommand.Effect(position);
      (p, Returned(result))
    case Right(_) =>
      var (p, result) := RightCommand.Effect(position);
      (p, Returned(result))
    case Report(robot) => (position, Returned(ReportCommand.Execute(robot)))
    case Custom(_, outcome) => (position, outcome)
  }

  /** execute() */
  method Execute(c: Command) returns (r: Attempt<Result<string>>)
    modifies c.robot
    ensures (c.robot.position, r) == old(Effect(c))
  {
    match c
    case Place(robot, x, y, direction) =>
      var result := PlaceCommand.Execute(robot, x, y, direction);
      r := Returned(result);
    case Move(robot) =>
      var result := MoveCommand.Execute(robot);
      r := Returned(result);
    case Left(robot) =>
      var result := LeftCommand.Execute(robot);
      r := Returned(result);
    case Right(robot) =>
      var result := RightCommand.Execute(robot);
      r := Returned(result);
    case Report(robot) =>
      r := Returned(ReportCommand.Execute(robot));
    case Custom(_, outcome) =>
      r := outcome;
  }
}
