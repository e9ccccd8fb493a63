/**
 * The application service (src/application/RobotApplicationService.ts): turns one input line into
 * a command through the factory, runs it and returns its Result, logging as it goes. A line that
 * yields no command and a command that throws both end in a failure Result; nothing escapes.
 * The logger is modelled by the sequence of entries it receives.
 */
module RobotApplicationService {
  import opened Wrappers
  import opened ErrorHandling
  import opened Strings
  import opened Domain
  import opened Robots
  import opened Commands
  import opened CommandFactory
  import ReportCommand

  datatype LogLevel = Debug | Info | Warn | Error

  datatype LogEntry = LogEntry(level: LogLevel, message: string)

  /** The Result returned in place of a command that threw. */
  function ExecutionErrorMessage(input: string): string {
    "An error occurred while executing the command: " + input
  }

  /** The entry logged for the Result a command produced. */
  function OutcomeEntry(result: Result<string>): (e: LogEntry)
    ensures result.Success? ==> e.level == Debug
    ensures result.Failure? ==> e.level == Warn
  {
    match result
    case Success(data) => LogEntry(Debug, "Command executed successfully: " + data)
    case Failure(error) => LogEntry(Warn, "Command execution failed: " + error)
  }

  /** The robots a command may change: the one it is bound to, or none when there is no command. */
  function Targets(command: Option<Command>): set<Robot> {
    if command.Some? then {command.value.robot} else {}
  }

  class RobotApplicationServiceImpl {
    const robot: Robot
    const commandFactory: DefaultCommandFactory
    /** Everything sent to the logger, oldest first. */
    var log: seq<LogEntry>

    constructor (robot: Robot, commandFactory: DefaultCommandFactory)
      ensures this.robot == robot && this.commandFactory == commandFactory
      ensures log == []
    {
      this.robot := robot;
      this.commandFactory := commandFactory;
      log := [];
    }

    /**
     * executeCommand(input): with no command, a failure "Invalid command: <input>" and the robot
     * untouched; otherwise the command's own Result, or, when it throws, a failure naming the
     * input. The log gains the opening debug entry, the error entry of a throw, and one entry
     * for the outcome.
     */
    method ExecuteCommand(input: string) returns (r: Result<string>)
      modifies this, Targets(commandFactory.CreateCommand(input))
      ensures var command := old(commandFactory.CreateCommand(input));
              command.None? ==>
                && r == Failure(InvalidCommandMessage(input))
                && robot.position == old(robot.position)
                && log == old(log) + [LogEntry(Debug, "Executing command: " + input),
                                      LogEntry(Warn, InvalidCommandMessage(input))]
      ensures var command := old(commandFactory.CreateCommand(input));
              command.Some? ==>
                var outcome := old(Commands.Effect(command.value));
                && command.value.robot.position == outcome.0
                && r == SafeExecute(outcome.1, Failure(ExecutionErrorMessage(input)))
                && (outcome.1.Returned? ==> r == outcome.1.value)
                && log == old(log) + [LogEntry(Debug, "Executing command: " + input)]
                                   + (if outcome.1.Threw? then [LogEntry(Error, "Error executing command: " + input)] else [])
                                   + [OutcomeEntry(r)]
    {
      log := log + [LogEntry(Debug, "Executing command: " + input)];
      var command := commandFactory.CreateCommand(input);
      if command.None? {
        log := log + [LogEntry(Warn, InvalidCommandMessage(input))];
        return Failure(InvalidCommandMessage(input));
      }
      var attempt := Commands.Execute(command.value);
      if attempt.Threw? {
        log := log + [LogEntry(Error, "Error executing command: " + input)];
      }
      r := SafeExecute(attempt, Failure(ExecutionErrorMessage(input)));
      log := log + [OutcomeEntry(r)];
    }

    /**
     * getRobotState: the unplaced text (the same one REPORT fails with) exactly when the robot is
     * unplaced, otherwise its cell and heading.
     */
    function GetRobotState(): (s: string)
      reads robot
      ensures s == ReportCommand.NotPlacedMessage <==> !robot.IsPlaced()
      ensures robot.IsPlaced() ==>
                var p := robot.GetPosition().value;
                s == "Robot is at position " + Cell(p.x, p.y) + " facing " + Name(p.direction)
    {
      match robot.GetPosition()
      case None => ReportCommand.NotPlacedMessage
      case Some(p) =>
        var s := "Robot is at position " + Cell(p.x, p.y) + " facing " + Name(p.direction);
        assert s[6] != ReportCommand.NotPlacedMessage[6];
        s
    }
  }
}
