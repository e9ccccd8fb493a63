/**
 * The pieces together: the default parser feeding the factory built by createWithDefaultCommands,
 * and the command that comes out, as src/infrastructure/di/setupContainer.ts wires them.
 */
module EndToEnd {
  import opened Wrappers
  import opened ErrorHandling
  import opened Strings
  import opened Domain
  import opened Robots
  import opened Commands
  import opened CommandFactory
  import opened RegexInputParser

  /** A factory as the container builds it: the default registry for the robot and the default parser. */
  ghost predicate DefaultWiring(robot: Robot, factory: DefaultCommandFactory)
    reads factory
  {
    && factory.commandRegistry == DefaultRegistry(robot)
    && factory.inputParser == New(DefaultCommandTypes).AsInputParser()
  }

  /**
   * "PLACE x,y,D", with D any letter case of a direction name, becomes the PLACE command for the
   * robot with the numbers as written and the upper-case name.
   */
  lemma {:induction false} PlaceLineCreatesPlace(robot: Robot, factory: DefaultCommandFactory,
                                                 x: int, y: int, d: Direction, directionText: string)
    requires DefaultWiring(robot, factory)
    requires Upper(directionText) == Name(d)
    requires NoSpaces(directionText) && ',' !in directionText
    ensures factory.CreateCommand("PLACE " + IntToString(x) + "," + IntToString(y) + "," + directionText)
              == Some(Place(robot, x, y, Name(d)))
  {
    var input := "PLACE " + IntToString(x) + "," + IntToString(y) + "," + directionText;
    var p := New(DefaultCommandTypes);
    DefaultParserTypes();
    ParsePlaceRendering(p, x, y, d, directionText);
    assert factory.Parsed(input) == p.Parse(input);
    StandardTypesUpper();
    DefaultPlaceCreation(robot, factory, input);
  }

  /**
   * Running that command puts the robot at (x, y) facing D when the cell is on the table, and
   * otherwise fails and leaves the robot where it was.
   */
  lemma {:induction false} PlaceCommandPlaces(robot: Robot, x: int, y: int, d: Direction)
    ensures var (position, outcome) := Effect(Place(robot, x, y, Name(d)));
            && outcome.Returned?
            && (outcome.value.Success? <==> IsValidPosition(robot.tableBounds, x, y))
            && (outcome.value.Success? ==> position == Some(Position(x, y, d)))
            && (outcome.value.Failure? ==> position == robot.position)
  {
    ParseDirectionName(d);
  }

  /** A bare MOVE, LEFT, RIGHT or REPORT in any letter case becomes that command for the robot. */
  lemma {:induction false} KeywordLineCreatesCommand(robot: Robot, factory: DefaultCommandFactory, keyword: string)
    requires DefaultWiring(robot, factory)
    requires keyword != "" && NoSpaces(keyword)
    requires Upper(keyword) in {"MOVE", "LEFT", "RIGHT", "REPORT"}
    ensures var c := factory.CreateCommand(keyword);
            && (Upper(keyword) == "MOVE" ==> c == Some(Move(robot)))
            && (Upper(keyword) == "LEFT" ==> c == Some(Left(robot)))
            && (Upper(keyword) == "RIGHT" ==> c == Some(Right(robot)))
            && (Upper(keyword) == "REPORT" ==> c == Some(Report(robot)))
  {
    DefaultParsesKeyword(keyword);
    assert factory.inputParser(keyword) == Returned(New(DefaultCommandTypes).Parse(keyword));
    assert factory.Parsed(keyword) == Some(ParsedCommand(Upper(keyword), None));
    UpperIdempotent(keyword);
    DefaultSimpleCreation(robot, factory, keyword);
  }

  /** The default parser reads a bare non-PLACE keyword as its upper-cased type. */
  lemma DefaultParsesKeyword(keyword: string)
    requires keyword != "" && NoSpaces(keyword)
    requires Upper(keyword) in {"MOVE", "LEFT", "RIGHT", "REPORT"}
    ensures New(DefaultCommandTypes).Parse(keyword) == Some(ParsedCommand(Upper(keyword), None))
  {
    DefaultParserTypes();
    ParseKeyword(New(DefaultCommandTypes), keyword);
  }

  /** A line whose first word names no command creates nothing. */
  lemma {:induction false} UnknownLineCreatesNothing(robot: Robot, factory: DefaultCommandFactory, input: string)
    requires DefaultWiring(robot, factory)
    requires Trim(input) != ""
    requires Upper(Tokens(input)[0]) !in {"PLACE", "MOVE", "LEFT", "RIGHT", "REPORT"}
    ensures factory.CreateCommand(input) == None
  {
    var p := New(DefaultCommandTypes);
    DefaultParserTypes();
    assert Upper(Tokens(input)[0]) !in p.validCommandTypes;
    ParseUnknownType(p, input);
    assert factory.inputParser(input) == Returned(None);
  }
}
