/** The value types of the layered simulator (src/domain/types.ts) and its error texts (src/domain/errors.ts). */
module Domain {
  import opened Wrappers
  import opened Strings

  /** The four headings, listed in the clockwise order NORTH, EAST, SOUTH, WEST. */
  datatype Direction = North | East | South | West

  /** The enum's string value. */
  function Name(d: Direction): string {
    match d
    case North => "NORTH"
    case East => "EAST"
    case South => "SOUTH"
    case West => "WEST"
  }

  /** `Object.values(Direction)`, in declaration order. */
  const DirectionNames: seq<string> := ["NORTH", "EAST", "SOUTH", "WEST"]

  /** The enum member whose value is exactly s (no case folding, no trimming). */
  function ParseDirection(s: string): (r: Option<Direction>)
    ensures r.Some? <==> s in DirectionNames
    ensures r.Some? ==> Name(r.value) == s
  {
    if s == "NORTH" then Some(North)
    else if s == "EAST" then Some(East)
    else if s == "SOUTH" then Some(South)
    else if s == "WEST" then Some(West)
    else None
  }

  lemma ParseDirectionName(d: Direction)
    ensures ParseDirection(Name(d)) == Some(d)
  {
  }

  /** A cell of the table and a heading; x grows to the east, y to the north. */
  datatype Position = Position(x: int, y: int, direction: Direction)

  datatype TableBounds = TableBounds(width: int, height: int)

  /** The source's Result<T, string>: success with a payload or failure with a message. */
  datatype Result<+T> = Success(data: T) | Failure(error: string)

  /** RobotNotPlacedError's message; the robot uses it for turns as well as moves. */
  const RobotNotPlacedMessage: string := "Robot must be placed on the table before it can move"

  /** InvalidPositionError's message. */
  function InvalidPositionMessage(x: int, y: int): string {
    "Position " + Cell(x, y) + " is outside the table bounds"
  }

  /** InvalidCommandError's message. */
  function InvalidCommandMessage(command: string): string {
    "Invalid command: " + command
  }

  /** "(x, y)" as the messages print a cell. */
  function Cell(x: int, y: int): string {
    "(" + IntToString(x) + ", " + IntToString(y) + ")"
  }
}
