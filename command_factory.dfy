/**
 * The command registry (src/application/commands/CommandFactory.ts): a map from upper-cased
 * command type to a creator, consulted after the input parser. A parse that fails or throws, a
 * type with no creator and a creator that throws all yield no command; no fault escapes.
 */
module CommandFactory {
  import opened Wrappers
  import opened ErrorHandling
  import opened Strings
  import opened Domain
  import opened Robots
  import opened Commands

  /** The values a parsed command's parameters can hold. */
  datatype Value = Num(n: int) | Str(s: string)

  /** JavaScript truthiness of a parameter value. */
  predicate Truthy(v: Value) {
    match v
    case Num(n) => n != 0
    case Str(s) => s != ""
  }

  type Parameters = map<string, Value>

  /** ParsedCommand: a type and, for PLACE, the parameters x, y and direction. */
  datatype ParsedCommand = ParsedCommand(commandType: string, parameters: Option<Parameters>)

  /** An InputParser: parse(input), which may return null or throw. */
  type InputParser = string -> Attempt<Option<ParsedCommand>>

  /** A CommandCreator: builds a command from the parsed parameters, or throws. */
  type CommandCreator = Option<Parameters> -> Attempt<Command>

  const InvalidPlaceParametersMessage: string := "Invalid PLACE parameters"

  /** What the PLACE creator demands: numeric x and y and a truthy direction. */
  predicate PlaceParametersAccepted(params: Option<Parameters>) {
    && params.Some?
    && "x" in params.value && params.value["x"].Num?
    && "y" in params.value && params.value["y"].Num?
    && "direction" in params.value && Truthy(params.value["direction"])
  }

  /** The direction as PlaceCommand receives it: the string itself, or a number's rendering. */
  function DirectionText(v: Value): string {
    match v
    case Str(s) => s
    case Num(n) => IntToString(n)
  }

  /** The PLACE creator registered by createWithDefaultCommands. */
  function CreatePlace(robot: Robot, params: Option<Parameters>): (r: Attempt<Command>)
    ensures r.Threw? <==> !PlaceParametersAccepted(params)
    ensures r.Threw? ==> r.fault == InvalidPlaceParametersMessage
    ensures r.Returned? ==> && r.value.Place? && r.value.robot == robot
                            && Num(r.value.x) == params.value["x"] && Num(r.value.y) == params.value["y"]
  {
    if !PlaceParametersAccepted(params) then Threw(InvalidPlaceParametersMessage)
    else
      var p := params.value;
      Returned(Place(robot, p["x"].n, p["y"].n, DirectionText(p["direction"])))
  }

  function PlaceCreator(robot: Robot): CommandCreator {
    params => CreatePlace(robot, params)
  }

  function MoveCreator(robot: Robot): CommandCreator {
    params => Returned(Move(robot))
  }

  function LeftCreator(robot: Robot): CommandCreator {
    params => Returned(Left(robot))
  }

  function RightCreator(robot: Robot): CommandCreator {
    params => Returned(Right(robot))
  }

  function ReportCreator(robot: Robot): CommandCreator {
    params => Returned(Report(robot))
  }

  /** The registry createWithDefaultCommands builds: the five commands, all bound to one robot. */
  function DefaultRegistry(robot: Robot): map<string, CommandCreator> {
    map[
      "PLACE" := PlaceCreator(robot),
      "MOVE" := MoveCreator(robot),
      "LEFT" := LeftCreator(robot),
      "RIGHT" := RightCreator(robot),
      "REPORT" := ReportCreator(robot)
    ]
  }

  /** The command a creator yields, or none when it throws. */
  function Create(creator: CommandCreator, params: Option<Parameters>): Option<Command> {
    match creator(params)
    case Returned(c) => Some(c)
    case Threw(_) => None
  }

  /** Proof helper: the five standard command types are already upper case. */
  lemma StandardTypesUpper()
    ensures Upper("PLACE") == "PLACE" && Upper("MOVE") == "MOVE" && Upper("LEFT") == "LEFT"
    ensures Upper("RIGHT") == "RIGHT" && Upper("REPORT") == "REPORT"
  {
  }

  class DefaultCommandFactory {
    var commandRegistry: map<string, CommandCreator>
    const inputParser: InputParser

    constructor (inputParser: InputParser)
      ensures commandRegistry == map[]
      ensures this.inputParser == inputParser
    {
      commandRegistry := map[];
      this.inputParser := inputParser;
    }

    /** createWithDefaultCommands: a new factory with the five standard creators. */
    static method CreateWithDefaultCommands(robot: Robot, inputParser: InputParser)
      returns (factory: DefaultCommandFactory)
      ensures fresh(factory)
      ensures factory.inputParser == inputParser
      ensures factory.commandRegistry == DefaultRegistry(robot)
    {
      factory := new DefaultCommandFactory(inputParser);
      StandardTypesUpper();
      factory.RegisterCommand("PLACE", PlaceCreator(robot));
      factory.RegisterCommand("MOVE", MoveCreator(robot));
      factory.RegisterCommand("LEFT", LeftCreator(robot));
      factory.RegisterCommand("RIGHT", RightCreator(robot));
      factory.RegisterCommand("REPORT", ReportCreator(robot));
    }

    /** The parsed command for input, when the parser returned one (and did not throw). */
    function Parsed(input: string): Option<ParsedCommand> {
      SafeExecute(inputParser(input), None)
    }

    /** createCommand */
    function CreateCommand(input: string): (r: Option<Command>)
      reads this
      ensures Parsed(input).None? ==> r == None
      ensures Parsed(input).Some? && Upper(Parsed(input).value.commandType) !in commandRegistry ==> r == None
      ensures Parsed(input).Some? && Upper(Parsed(input).value.commandType) in commandRegistry ==>
                r == Create(commandRegistry[Upper(Parsed(input).value.commandType)], Parsed(input).value.parameters)
    {
      match Parsed(input)
      case None => None
      case Some(parsed) =>
        var key := Upper(parsed.commandType);
        if key !in commandRegistry then None
        else Create(commandRegistry[key], parsed.parameters)
    }

    /**
     * registerCommand: stores the creator under the upper-cased type, replacing any earlier one;
     * from then on every input whose parsed type matches, in any letter case, uses it.
     */
    method RegisterCommand(commandType: string, creator: CommandCreator)
      modifies this
      ensures commandRegistry == old(commandRegistry)[Upper(commandType) := creator]
      ensures forall input | Parsed(input).Some? && Upper(Parsed(input).value.commandType) == Upper(commandType) ::
                CreateCommand(input) == Create(creator, Parsed(input).value.parameters)
      ensures forall input | Parsed(input).Some? && Upper(Parsed(input).value.commandType) != Upper(commandType) ::
                CreateCommand(input) == old(CreateCommand(input))
    {
      commandRegistry := commandRegistry[Upper(commandType) := creator];
    }
  }

  /**
   * With the default registry, a parsed PLACE whose parameters the creator refuses (x or y not a
   * number, direction missing or empty) yields no command, and a well-formed one yields the PLACE
   * command bound to the factory's robot.
   */
  lemma DefaultPlaceCreation(robot: Robot, factory: DefaultCommandFactory, input: string)
    requires factory.commandRegistry == DefaultRegistry(robot)
    requires factory.Parsed(input).Some? && Upper(factory.Parsed(input).value.commandType) == "PLACE"
    ensures var params := factory.Parsed(input).value.parameters;
            && (!PlaceParametersAccepted(params) ==> factory.CreateCommand(input) == None)
            && (PlaceParametersAccepted(params) ==>
                  factory.CreateCommand(input) ==
                    Some(Place(robot, params.value["x"].n, params.value["y"].n, DirectionText(params.value["direction"]))))
  {
  }

  /** With the default registry, MOVE, LEFT, RIGHT and REPORT ignore parameters and never fail. */
  lemma DefaultSimpleCreation(robot: Robot, factory: DefaultCommandFactory, input: string)
    requires factory.commandRegistry == DefaultRegistry(robot)
    requires factory.Parsed(input).Some?
    ensures var key := Upper(factory.Parsed(input).value.commandType);
            && (key == "MOVE" ==> factory.CreateCommand(input) == Some(Move(robot)))
            && (key == "LEFT" ==> factory.CreateCommand(input) == Some(Left(robot)))
            && (key == "RIGHT" ==> factory.CreateCommand(input) == Some(Right(robot)))
            && (key == "REPORT" ==> factory.CreateCommand(input) == Some(Report(robot)))
            && (key !in {"PLACE", "MOVE", "LEFT", "RIGHT", "REPORT"} ==> factory.CreateCommand(input) == None)
  {
  }
}
