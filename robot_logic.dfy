/**
 * The legacy simulator (src/components/robotLogic.ts, constants in src/constants.ts): one
 * module-level position with a row, a column and a direction string, on a fixed 5 x 5 grid.
 * NORTH steps to col + 1 and EAST to row + 1. There is no unplaced state: the robot starts at
 * row 4, col 0, facing NORTH. Messages printed in red are recorded in order.
 */
module RobotLogic {
  import opened Wrappers
  import opened Strings
  import opened Domain
  import opened Robots
  import opened TestPlace

  const Rows: int := 5
  const Cols: int := 5

  const PlaceError: string := "You must provide a coordinate and a direction. E.g.: 0,0 NORTH"
  const InGridError: string := "You are outise of the grid, make sure your coordinates are between 0 and 4"

  datatype GridPosition = GridPosition(row: int, col: int, direction: string)

  /** isInsideGrid: the cell lies on the domain robot's 5 x 5 table, with row as x and col as y. */
  predicate IsInsideGrid(row: int, col: int): (b: bool)
    ensures b <==> IsValidPosition(TableBounds(Rows, Cols), row, col)
  {
    row >= 0 && row < Rows && col >= 0 && col < Cols
  }

  /** moveLeft's switch: the counter-clockwise neighbour, and NORTH for any other text. */
  function TurnLeft(direction: string): (r: string)
    ensures r in DirectionNames
    ensures direction in DirectionNames ==> r == Name(GetLeftDirection(ParseDirection(direction).value))
    ensures direction !in DirectionNames ==> r == "NORTH"
  {
    match direction
    case "NORTH" => "WEST"
    case "EAST" => "NORTH"
    case "SOUTH" => "EAST"
    case "WEST" => "SOUTH"
    case _ => "NORTH"
  }

  /** moveRight's switch: the clockwise neighbour, and NORTH for any other text. */
  function TurnRight(direction: string): (r: string)
    ensures r in DirectionNames
    ensures direction in DirectionNames ==> r == Name(GetRightDirection(ParseDirection(direction).value))
    ensures direction !in DirectionNames ==> r == "NORTH"
  {
    match direction
    case "NORTH" => "EAST"
    case "EAST" => "SOUTH"
    case "SOUTH" => "WEST"
    case "WEST" => "NORTH"
    case _ => "NORTH"
  }

  /** On the four names the legacy turns are the domain robot's turns. */
  lemma TurnsAgreeWithRobot(d: Direction)
    ensures TurnLeft(Name(d)) == Name(GetLeftDirection(d))
    ensures TurnRight(Name(d)) == Name(GetRightDirection(d))
  {
  }

  /** Left and right undo each other on the four names; on any other text both give NORTH. */
  lemma {:induction false} TurnsInverse(direction: string)
    requires direction in DirectionNames
    ensures TurnRight(TurnLeft(direction)) == direction
    ensures TurnLeft(TurnRight(direction)) == direction
  {
    var d := ParseDirection(direction).value;
    TurnsAgreeWithRobot(d);
    TurnsAgreeWithRobot(GetLeftDirection(d));
    TurnsAgreeWithRobot(GetRightDirection(d));
    LeftRightInverse(d);
  }

  /** moveForward's target cell: NORTH col + 1, EAST row + 1, SOUTH col - 1, WEST row - 1, else the same cell. */
  function ForwardTarget(p: GridPosition): (r: (int, int))
    ensures p.direction !in DirectionNames ==> r == (p.row, p.col)
  {
    match p.direction
    case "NORTH" => (p.row, p.col + 1)
    case "EAST" => (p.row + 1, p.col)
    case "SOUTH" => (p.row, p.col - 1)
    case "WEST" => (p.row - 1, p.col)
    case _ => (p.row, p.col)
  }

  /**
   * On the legacy grid (the domain robot's 5 x 5 table with row as x and col as y) the forward
   * step agrees with calculateNewPosition.
   */
  lemma GridAgreesWithTable(row: int, col: int, d: Direction)
    ensures var target := CalculateNewPosition(Position(row, col, d));
            ForwardTarget(GridPosition(row, col, Name(d))) == (target.x, target.y)
  {
  }

  /** The text of a PLACE line taken apart: the row, the column and the direction, as matched. */
  datatype PlaceMatch = PlaceMatch(row: string, col: string, direction: string)

  /** The coordinate extraction: the match of the line against the coordinates pattern, if any. */
  type Extractor = string -> Option<PlaceMatch>

  /** The module-level state: the position, and the red messages printed so far. */
  class RobotGrid {
    var position: GridPosition
    var errors: seq<string>

    predicate InGrid()
      reads this
    {
      IsInsideGrid(position.row, position.col)
    }

    /** The initial position, row 4, col 0, facing NORTH, lies on the grid. */
    constructor ()
      ensures position == GridPosition(4, 0, "NORTH") && errors == []
      ensures InGrid()
    {
      position := GridPosition(4, 0, "NORTH");
      errors := [];
    }

    /** moveLeft: only the direction changes. */
    method MoveLeft()
      modifies this
      ensures position == old(position).(direction := TurnLeft(old(position).direction))
      ensures errors == old(errors)
      ensures old(InGrid()) ==> InGrid()
    {
      match position.direction
      case "NORTH" =>
        position := GridPosition(position.row, position.col, "WEST");
      case "EAST" =>
        position := GridPosition(position.row, position.col, "NORTH");
      case "SOUTH" =>
        position := GridPosition(position.row, position.col, "EAST");
      case "WEST" =>
        position := GridPosition(position.row, position.col, "SOUTH");
      case _ =>
        position := position.(direction := "NORTH");
    }

    /** moveRight: only the direction changes. */
    method MoveRight()
      modifies this
      ensures position == old(position).(direction := TurnRight(old(position).direction))
      ensures errors == old(errors)
      ensures old(InGrid()) ==> InGrid()
    {
      match position.direction
      case "NORTH" =>
        position := GridPosition(position.row, position.col, "EAST");
      case "EAST" =>
        position := GridPosition(position.row, position.col, "SOUTH");
      case "SOUTH" =>
        position := GridPosition(position.row, position.col, "WEST");
      case "WEST" =>
        position := GridPosition(position.row, position.col, "NORTH");
      case _ =>
        position := position.(direction := "NORTH");
    }

    /** moveForward: steps to the target cell when it is on the grid; otherwise prints the grid error. */
    method MoveForward()
      modifies this
      ensures var (row, col) := ForwardTarget(old(position));
              && (IsInsideGrid(row, col) ==> position == GridPosition(row, col, old(position).direction) && errors == old(errors))
              && (!IsInsideGrid(row, col) ==> position == old(position) && errors == old(errors) + [InGridError])
      ensures old(InGrid()) ==> InGrid()
    {
      var newRow := position.row;
      var newCol := position.col;
      match position.direction {
        case "NORTH" =>
          newCol := newCol + 1;
        case "EAST" =>
          newRow := newRow + 1;
        case "SOUTH" =>
          newCol := newCol - 1;
        case "WEST" =>
          newRow := newRow - 1;
        case _ =>
      }
      if IsInsideGrid(newRow, newCol) {
        position := GridPosition(newRow, newCol, position.direction);
      } else {
        errors := errors + [InGridError];
      }
    }

    /**
     * findPlaceCoordinates: a line that fails the PLACE syntax check, or that the extraction does
     * not match, prints an error and changes nothing; a matched cell off the grid (or a coordinate
     * that reads as NaN) prints the grid error; otherwise the robot is placed there, facing the
     * upper-cased direction.
     */
    method FindPlaceCoordinates(text: string, extract: Extractor)
      modifies this
      ensures !IsPlaceInputCorrect(text) ==> position == old(position) && errors == old(errors) + [PlaceError]
      ensures IsPlaceInputCorrect(text) && extract(text).None? ==>
                position == old(position) && errors == old(errors) + [PlaceError + " or turn mr.robot with left or right"]
      ensures IsPlaceInputCorrect(text) && extract(text).Some? ==>
                var m := extract(text).value;
                var row := ParseInt(m.row);
                var col := ParseInt(m.col);
                if row.Some? && col.Some? && IsInsideGrid(row.value, col.value) then
                  position == GridPosition(row.value, col.value, Upper(m.direction)) && errors == old(errors)
                else
                  position == old(position) && errors == old(errors) + [InGridError]
      ensures position != old(position) ==> InGrid()
    {
      if !IsPlaceInputCorrect(text) {
        errors := errors + [PlaceError];
        return;
      }
      var matched := extract(text);
      if matched.Some? {
        var row := ParseInt(matched.value.row);
        var col := ParseInt(matched.value.col);
        var direction := Upper(matched.value.direction);
        if row.Some? && col.Some? && IsInsideGrid(row.value, col.value) {
          position := GridPosition(row.value, col.value, direction);
        } else {
          errors := errors + [InGridError];
        }
      } else {
        errors := errors + [PlaceError + " or turn mr.robot with left or right"];
      }
    }

    /** placeOnGrid: sets the position as given, with no check of the cell. */
    method PlaceOnGrid(row: int, col: int, direction: Direction)
      modifies this
      ensures position == GridPosition(row, col, Name(direction))
      ensures errors == old(errors)
    {
      position := GridPosition(row, col, Name(direction));
    }
  }

  /**
   * From a cell on the grid, the legacy forward move lands where the domain robot's move does on a
   * 5 x 5 table (row as x, col as y), and is refused exactly when the domain move is refused.
   */
  lemma {:induction false} ForwardAgreesWithMove(row: int, col: int, d: Direction)
    requires IsInsideGrid(row, col)
    ensures var (r, c) := ForwardTarget(GridPosition(row, col, Name(d)));
            var (moved, result) := MoveTransition(TableBounds(Rows, Cols), Some(Position(row, col, d)));
            && (IsInsideGrid(r, c) <==> result.Success?)
            && (IsInsideGrid(r, c) ==> moved == Some(Position(r, c, d)))
  {
    GridAgreesWithTable(row, col, d);
    var target := CalculateNewPosition(Position(row, col, d));
    GridAgreesWithTable(target.x, target.y, d);
  }
}
