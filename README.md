# mr-robot in Dafny

A model of the toy-robot simulator mr-robot, with proofs about it. A robot stands on a rectangular
table, is placed with `PLACE x,y,DIRECTION`, steps with `MOVE`, turns with `LEFT` and `RIGHT`,
and tells where it is with `REPORT`. Moves that would take it off the table are refused.

The model follows the layered application:

- The robot state machine, `Robot.ts`, lives in `robot.dfy` (module `Robots`). Class `Robot` has
  an `Option<Position>` field. Each of its methods is proved against a pure transition function,
  and the geometry and the invariant are stated on those functions. `getTableBounds` is the
  constant field `tableBounds`.
- The value types and error texts, `types.ts` and `errors.ts`, live in `domain.dfy`.
- The five commands and the `Command` interface live in `commands.dfy`. Each command module has an
  `Effect` function: the robot's new position and the result, on values. Its `Execute` method
  changes the shared `Robot` and is proved equal to `Effect`. A command is a value bound to its
  robot. `Custom` stands for any other registered command, including one that throws.
- The line parser `RegexInputParser`, with its trim, split and `parseInt` primitives in
  `strings.dfy`, lives in `regex_input_parser.dfy`.
- The command registry `DefaultCommandFactory` lives in `command_factory.dfy`.
- The service `RobotApplicationServiceImpl` lives in `application_service.dfy`. The logger is
  modelled as the sequence of (level, message) entries it receives.
- The dependency-injection container `SimpleContainer` lives in `container.dfy`.
- The environment configuration reader lives in `configuration.dfy`. The environment is a map
  parameter.
- The legacy simulator, `robotLogic.ts` with `testPlace.ts`, lives in `robot_logic.dfy` and
  `test_place.dfy`. Its module-level `position` becomes a class `RobotGrid`, and the red messages
  it prints are recorded in a sequence.
- `end_to_end.dfy` follows a line through the default parser and factory to the robot.

A thrown fault is a value: `Attempt<T>` is `Returned(value)` or `Threw(message)`. A `null` is
`Option.None`.

## Model

| member | source | states |
|---|---|---|
| Robots.CalculateNewPosition | src/domain/Robot.ts:122-137 | The target is one cell ahead with the heading unchanged: NORTH is y+1, EAST x+1, SOUTH y-1, WEST x-1. |
| Robots.GetLeftDirection | src/domain/Robot.ts:139-152 | A left turn goes one step counter-clockwise in the cycle NORTH, EAST, SOUTH, WEST. |
| Robots.GetRightDirection | src/domain/Robot.ts:154-167 | A right turn goes one step clockwise in the same cycle. |
| Robots.LeftRightInverse | src/domain/Robot.ts:139-167 | A left turn and a right turn undo each other, in either order. |
| Robots.FourTurnsRestore | src/domain/Robot.ts:139-167 | Four turns in the same sense give back the starting heading. |
| Robots.StepThereAndBack | src/domain/Robot.ts:122-137 | A step forward, an about-turn and a step forward return to the starting cell. |
| Robots.PlaceTransition | src/domain/Robot.ts:15-25 | place succeeds exactly when the cell is on the table. It then sets the position to (x, y, d), whatever it was before. Otherwise it fails with "Position (x, y) is outside the table bounds" and keeps the position. It preserves the on-table invariant. |
| Robots.MoveTransition | src/domain/Robot.ts:30-50 | Unplaced, move fails with the not-placed message. Placed, it succeeds exactly when the target is on the table and then moves there. Otherwise it fails with "Cannot move to position (nx, ny) - outside table bounds" and keeps the position. It preserves the invariant. |
| Robots.TurnLeftTransition | src/domain/Robot.ts:55-72 | Unplaced, turnLeft fails with the move-worded not-placed message. Placed, it succeeds, keeps x and y, and turns one step counter-clockwise. |
| Robots.TurnRightTransition | src/domain/Robot.ts:77-94 | As turnLeft, turning one step clockwise. |
| Robots.TurnsPreserveInvariant | src/domain/Robot.ts:63-71 | A turn never takes a robot on the table off it. |
| Robots.TurnLeftThenRight | src/domain/Robot.ts:55-94 | turnLeft then turnRight, or the reverse, leaves the position as it was, placed or not. |
| Robots.RejectedMoveIsStable | src/domain/Robot.ts:41-46 | A refused move, retried, is refused again with the same message and no change. |
| Robots.Robot.constructor | src/domain/Robot.ts:5-10 | A new robot is unplaced, keeps the bounds it was given, and satisfies the invariant. |
| Robots.Robot.Place | src/domain/Robot.ts:15-25 | The new position and the result are those of PlaceTransition on the old position. The invariant is kept. |
| Robots.Robot.Move | src/domain/Robot.ts:30-50 | The new position and the result are those of MoveTransition. The invariant is kept. |
| Robots.Robot.TurnLeft | src/domain/Robot.ts:55-72 | The new position and the result are those of TurnLeftTransition. The invariant is kept. |
| Robots.Robot.TurnRight | src/domain/Robot.ts:77-94 | The new position and the result are those of TurnRightTransition. The invariant is kept. |
| Robots.Robot.GetPosition | src/domain/Robot.ts:99-101 | The position, on the table whenever the robot is valid. |
| Robots.Robot.IsPlaced | src/domain/Robot.ts:106-108 | isPlaced holds exactly when getPosition is not null. |
| Domain.ParseDirection | src/domain/types.ts:1-6 | A string is a Direction exactly when it is one of the four enum values, and the Direction's value is that string. |
| Domain.ParseDirectionName | src/domain/types.ts:1-6 | Every enum value reads back as its own member. |
| PlaceCommand.Effect | src/application/commands/PlaceCommand.ts:17-55 | A negative coordinate fails with "Coordinates must be non-negative". Then a direction outside the enum fails with "Invalid direction: D. Must be one of: NORTH, EAST, SOUTH, WEST". Then an off-table cell fails with the robot's message, passed through. Success happens exactly for an on-table cell and a valid direction: the robot is at (x, y, D) and the data is "Robot placed at (x, y) facing D". Every failure leaves the robot untouched. |
| PlaceCommand.Execute | src/application/commands/PlaceCommand.ts:17-55 | Changes the shared robot and returns exactly what Effect says. |
| MoveCommand.Effect | src/application/commands/MoveCommand.ts:12-36 | Unplaced, it fails with "Robot must be placed on the table before it can move" and does not move. Placed, the position is that of robot.move, applied once. Success reports "Robot moved to (x, y) facing D" for the new position. The robot's own error is passed through, and failure leaves the position. |
| MoveCommand.EdgeMoveRefused | src/application/commands/MoveCommand.ts:22-35 | A move refused at the table edge keeps the robot where it was and returns the robot's out-of-bounds message. |
| MoveCommand.Execute | src/application/commands/MoveCommand.ts:12-36 | Changes the shared robot and returns exactly what Effect says. |
| LeftCommand.Effect | src/application/commands/LeftCommand.ts:12-36 | Unplaced, it fails with "Robot must be placed on the table before it can turn" and leaves the robot. Placed, it turns left once and reports "Robot turned left, now facing D" with the new heading. |
| LeftCommand.FourLeftsRestore | src/application/commands/LeftCommand.ts:12-36 | Four LEFT commands give back the starting position, with x and y unchanged. |
| LeftCommand.Execute | src/application/commands/LeftCommand.ts:12-36 | Changes the shared robot and returns exactly what Effect says. |
| RightCommand.Effect | src/application/commands/RightCommand.ts:12-36 | As LEFT, turning right and reporting "Robot turned right, now facing D". |
| RightCommand.FourRightsRestore | src/application/commands/RightCommand.ts:12-36 | Four RIGHT commands give back the starting position. |
| RightCommand.Execute | src/application/commands/RightCommand.ts:12-36 | Changes the shared robot and returns exactly what Effect says. |
| ReportCommand.Execute | src/application/commands/ReportCommand.ts:12-28 | Unplaced, it fails with "Robot has not been placed on the table yet". Placed, it succeeds with "Output: x,y,D", which reads back as the robot's position. It only reads the robot, so a repeat gives the same result. |
| ReportCommand.ReportReadsBack | src/application/commands/ReportCommand.ts:24-27 | The report line of any position reads back as exactly that position. |
| Commands.Effect | src/application/commands/Command.ts:8-13 | execute() of a built-in command always returns a Result. REPORT and custom commands leave the robot. A failure Result leaves the robot. No command takes a robot on the table off it. |
| Commands.Execute | src/application/commands/Command.ts:8-13 | Running a command changes its robot and returns exactly what Effect says. |
| Strings.Trim | src/infrastructure/io/RegexInputParser.ts:26-29 | The trimmed text neither starts nor ends with whitespace. It is empty exactly when the input is all whitespace, the case `parse` refuses. |
| Strings.SplitOnSpaceRuns | src/infrastructure/io/RegexInputParser.ts:31 | Splitting on whitespace runs gives at least one word, and no word holds whitespace. |
| Strings.SplitLeadingWord | src/infrastructure/io/RegexInputParser.ts:31 | The first word is the longest whitespace-free prefix. A text splits into one word, itself, exactly when it holds no whitespace. |
| Strings.SplitOn | src/infrastructure/io/RegexInputParser.ts:62 | Splitting on a separator gives at least one field, and no field holds the separator. |
| Strings.ParseInt | src/infrastructure/io/RegexInputParser.ts:75-76 | A digit string reads as its decimal value, and "-" followed by digits reads as the negated value. |
| Strings.IntToString | src/application/commands/ReportCommand.ts:26 | A number renders as digits, with a leading "-" exactly for negative numbers, never empty and never starting with whitespace. |
| Strings.Upper | src/infrastructure/io/RegexInputParser.ts:32 | Upper-casing keeps the length. |
| Strings.Lower | src/infrastructure/config/EnvironmentConfigurationProvider.ts:52 | Lower-casing keeps the length. |
| Strings.UpperCharacters | src/infrastructure/io/RegexInputParser.ts:32 | Each lower-case ASCII letter becomes its capital, 32 code points lower. Every other character is kept, and no lower-case ASCII letter is left. |
| Strings.LowerCharacters | src/infrastructure/config/EnvironmentConfigurationProvider.ts:52 | Each capital ASCII letter becomes its lower-case letter, 32 code points higher. Every other character is kept, and no capital ASCII letter is left. |
| Strings.TrimIgnoresPadding | src/infrastructure/io/RegexInputParser.ts:26 | Surrounding a string with whitespace does not change its trim. |
| Strings.SplitOnJoin | src/infrastructure/io/RegexInputParser.ts:62 | Splitting comma-free pieces joined by commas gives the pieces back. |
| Strings.JoinSplitOn | src/infrastructure/io/RegexInputParser.ts:62 | Joining the pieces of a split with the separator gives the string back. |
| Strings.SplitFirstWord | src/infrastructure/io/RegexInputParser.ts:31 | A word, a whitespace run and a text starting with a non-space split into the word followed by the words of that text. |
| Strings.SplitTwoWords | src/infrastructure/io/RegexInputParser.ts:31 | Two words separated by any whitespace run split into exactly those two words. |
| Strings.TrimEndKeepsHead | src/infrastructure/io/RegexInputParser.ts:26 | Trimming the end of a text with a non-space character removes only its trailing whitespace, whatever precedes it. |
| Strings.ParseIntRendering | src/infrastructure/io/RegexInputParser.ts:75-76 | parseInt reads every integer back from its decimal rendering. |
| Strings.IntegerLiteralParses | src/infrastructure/io/RegexInputParser.ts:71-81 | Text matching `^-?\d+$` never parses to NaN. |
| CommandFactory.DefaultCommandFactory.constructor | src/application/commands/CommandFactory.ts:50-59 | A new factory has an empty registry and the given parser. |
| CommandFactory.DefaultCommandFactory.CreateWithDefaultCommands | src/application/commands/CommandFactory.ts:66-83 | The registry holds exactly PLACE, MOVE, LEFT, RIGHT and REPORT, each bound to the given robot. |
| CommandFactory.DefaultCommandFactory.CreateCommand | src/application/commands/CommandFactory.ts:88-111 | A parse that returns null or throws gives no command. So does a type with no creator under its upper-cased name. Otherwise the result is the creator's command, or none if the creator throws. |
| CommandFactory.DefaultCommandFactory.RegisterCommand | src/application/commands/CommandFactory.ts:116-118 | The creator is stored under the upper-cased type, overwriting any earlier one. Every input whose parsed type matches in any letter case now uses it. Every other input gives what it gave before. |
| CommandFactory.CreatePlace | src/application/commands/CommandFactory.ts:70-75 | The PLACE creator throws "Invalid PLACE parameters" exactly when the parameters lack a numeric x or y or a truthy direction. Otherwise it returns the PLACE command for its robot with those x and y. |
| CommandFactory.DefaultPlaceCreation | src/application/commands/CommandFactory.ts:70-75 | With the default registry, PLACE parameters without numeric x and y or with a missing or empty direction give no command. Well-formed ones give the PLACE command with those values. |
| CommandFactory.DefaultSimpleCreation | src/application/commands/CommandFactory.ts:77-80 | With the default registry, MOVE, LEFT, RIGHT and REPORT always give their commands for the same robot. Any other type gives none. |
| RegexInputParser.New | src/infrastructure/io/RegexInputParser.ts:16-18 | The valid types are exactly the upper-cased given types. |
| RegexInputParser.DefaultParserTypes | src/infrastructure/io/RegexInputParser.ts:16-17 | The default parser accepts exactly PLACE, MOVE, LEFT, RIGHT and REPORT. |
| RegexInputParser.Parser.Parse | src/infrastructure/io/RegexInputParser.ts:25-54 | A blank line gives null. A result's type is the upper-cased first word, and it is a configured type. PLACE results have exactly one argument and carry its parsed parameters. Other results have no argument and no parameters. |
| RegexInputParser.Parser.AsInputParser | src/infrastructure/io/RegexInputParser.ts:25-54 | parse never throws: every input returns its Parse result. |
| RegexInputParser.ReadCoordinate | src/infrastructure/io/RegexInputParser.ts:68-81 | A coordinate is read exactly when its trimmed text matches `^-?\d+$`, so decimals, letters and empty fields are refused. The value is parseInt of the trimmed text. |
| RegexInputParser.ReadDirection | src/infrastructure/io/RegexInputParser.ts:77-85 | A direction is read exactly when the trimmed, upper-cased text is one of the four names, and it is that name. |
| RegexInputParser.ReadPlaceArguments | src/infrastructure/io/RegexInputParser.ts:61-85 | The argument is read exactly when it splits on commas into three fields, both coordinates read and the direction reads. The position is then those two values and that direction. |
| RegexInputParser.PlaceParameters | src/infrastructure/io/RegexInputParser.ts:87 | The record carries numeric x and y and the upper-case direction name, the shape the PLACE creator accepts. |
| RegexInputParser.ParsePlaceParameters | src/infrastructure/io/RegexInputParser.ts:61-88 | It returns a record exactly when the checks pass, and the record is always one the PLACE creator accepts. It holds the two coordinates as read and the trimmed, upper-cased direction text. |
| RegexInputParser.ParsePlaceParametersRejects | src/infrastructure/io/RegexInputParser.ts:71-85 | "x,y,D" gives no record when x or y is not an integer literal once trimmed, or D is not a name in any letter case. |
| RegexInputParser.DecimalCoordinateRejected | src/infrastructure/io/RegexInputParser.ts:67-73 | A decimal x such as "1.5" gives no record, whatever y and the direction are. |
| RegexInputParser.ReadCoordinateRendering | src/infrastructure/io/RegexInputParser.ts:68-76 | Every integer written in decimal, negative ones included, is read back as itself. |
| RegexInputParser.ReadDirectionSpelling | src/infrastructure/io/RegexInputParser.ts:77-85 | Any letter case of a direction name reads as that direction. |
| RegexInputParser.SplitPlaceArguments | src/infrastructure/io/RegexInputParser.ts:62-65 | "x,y,text" splits into the two renderings and the text. |
| RegexInputParser.ParsePlaceParametersRendering | src/infrastructure/io/RegexInputParser.ts:61-88 | "x,y,D" with any integers and any spelling of a name gives the record for (x, y, D). |
| RegexInputParser.ParseIgnoresPadding | src/infrastructure/io/RegexInputParser.ts:26 | Whitespace around a line never changes how it parses. |
| RegexInputParser.ParsePlaceLine | src/infrastructure/io/RegexInputParser.ts:31-46 | A PLACE keyword in any letter case, any whitespace run and one argument parse to PLACE with the argument's parameters, or to null when the argument is malformed. |
| RegexInputParser.ParsePlaceRendering | src/infrastructure/io/RegexInputParser.ts:25-88 | "PLACE x,y,D" parses to PLACE with x, y and the upper-case name of D. |
| RegexInputParser.ParseKeyword | src/infrastructure/io/RegexInputParser.ts:49-51 | A lone configured keyword other than PLACE, in any letter case, parses to its upper-cased type with no parameters. |
| RegexInputParser.TokensAfterKeyword | src/infrastructure/io/RegexInputParser.ts:26-31 | A line made of a keyword, a whitespace run and more text is non-blank. Its words are the keyword followed by the words of that text. |
| RegexInputParser.ParseKeywordWithArgument | src/infrastructure/io/RegexInputParser.ts:48-53 | A non-PLACE keyword followed by anything other than whitespace gives null, however many words follow. |
| RegexInputParser.ParseExtraWords | src/infrastructure/io/RegexInputParser.ts:38-53 | A line of three or more words gives null, whatever its keyword. PLACE needs exactly one argument and the other types none. |
| RegexInputParser.ParseUnknownType | src/infrastructure/io/RegexInputParser.ts:31-37 | A line whose upper-cased first word is not configured gives null. |
| RobotApplicationService.OutcomeEntry | src/application/RobotApplicationService.ts:77-82 | A success is logged at debug and a failure at warn. |
| RobotApplicationService.RobotApplicationServiceImpl.constructor | src/application/RobotApplicationService.ts:37-41 | The service holds the given robot and factory, and nothing is logged yet. |
| RobotApplicationService.RobotApplicationServiceImpl.ExecuteCommand | src/application/RobotApplicationService.ts:48-92 | The factory is consulted once. With no command, the result is failure "Invalid command: input", the robot is untouched, and a warn is logged. Otherwise the robot ends where the command leaves it. A returned Result is passed back unchanged. A throw becomes failure "An error occurred while executing the command: input", with an error entry. The log gets the debug entry, then the error entry if it threw, then the outcome entry. |
| RobotApplicationService.RobotApplicationServiceImpl.GetRobotState | src/application/RobotApplicationService.ts:98-106 | The text is "Robot has not been placed on the table yet" exactly when the robot is unplaced. Otherwise it is "Robot is at position (x, y) facing D". |
| Container.Constant | src/infrastructure/di/Container.ts:97 | The registerValue factory returns the value on every run. |
| Container.Resolve | src/infrastructure/di/Container.ts:116-124 | This is get's branch as written. A transient runs its factory every time. A singleton with a truthy cached instance returns it without running the factory. Any other singleton runs the factory and caches what it returns. |
| Container.TransientRunsEachTime | src/infrastructure/di/Container.ts:124 | Two gets of a transient see two separate runs of its factory. |
| Container.SingletonReused | src/infrastructure/di/Container.ts:116-121 | Once a singleton has produced a truthy instance, every later get returns that instance and runs nothing. |
| Container.ValueServed | src/infrastructure/di/Container.ts:95-101 | A value registration returns its value on every get. |
| Container.FalsySingletonRerun | src/infrastructure/di/Container.ts:117-118 | As written, a singleton whose factory returns 0 runs its factory on each of two gets. |
| Container.ResolveOnce | src/infrastructure/di/Container.ts:78-79 | This is get with the documented singleton check. A cached instance is returned without a run. Otherwise the factory runs. |
| Container.SingletonResolvedOnce | src/infrastructure/di/Container.ts:78-79 | With the corrected check, a singleton's factory runs only until it first returns, whatever the value's truthiness. |
| Container.ResolveAgreesUnlessFalsy | src/infrastructure/di/Container.ts:116-121 | The written and corrected checks agree exactly when no falsy instance is cached. |
| Container.SimpleContainer.constructor | src/infrastructure/di/Container.ts:63 | A new container has no registrations. |
| Container.SimpleContainer.Register | src/infrastructure/di/Container.ts:70-75 | The token gets a fresh transient registration, replacing any earlier one. has becomes true for it and is unchanged for other tokens. |
| Container.SimpleContainer.RegisterSingleton | src/infrastructure/di/Container.ts:83-88 | The token gets a singleton with nothing cached, dropping any cached instance. has changes as for register. |
| Container.SimpleContainer.RegisterValue | src/infrastructure/di/Container.ts:95-101 | The token gets a singleton whose instance is the value, and it serves that value. has changes as for register. |
| Container.SimpleContainer.Get | src/infrastructure/di/Container.ts:109-125 | An unknown token throws "Service not registered: token" and changes nothing. Otherwise the outcome and stored registration are ResolveOnce's. The set of tokens never changes. |
| Container.SimpleContainer.Has | src/infrastructure/di/Container.ts:132-134 | has is true exactly for registered tokens, the ones get does not reject. |
| Configuration.ParsePositiveInteger | src/infrastructure/config/EnvironmentConfigurationProvider.ts:33-44 | An unset or empty value gives the default. Otherwise it succeeds exactly when parseInt gives a number above zero, which it returns. Else it throws "Invalid F: must be a positive integer, got "v"". |
| Configuration.PositiveIntegerRendering | src/infrastructure/config/EnvironmentConfigurationProvider.ts:38-43 | A positive integer written in decimal is accepted as itself. Zero and negatives are refused with the message. |
| Configuration.ParseChoice | src/infrastructure/config/EnvironmentConfigurationProvider.ts:46-89 | An unset value gives the default. Otherwise it succeeds exactly when the lower-cased text is a valid choice, which it returns. Else it throws the message listing the choices. |
| Configuration.ParseLogLevel | src/infrastructure/config/EnvironmentConfigurationProvider.ts:46-59 | A level read from the environment is one of debug, info, warn and error. |
| Configuration.ParseLogFormat | src/infrastructure/config/EnvironmentConfigurationProvider.ts:61-74 | A format read from the environment is text or json. |
| Configuration.ParseOutputFormat | src/infrastructure/config/EnvironmentConfigurationProvider.ts:76-89 | An output format read from the environment is console or json. |
| Configuration.ChoiceIgnoresCase | src/infrastructure/config/EnvironmentConfigurationProvider.ts:52-58 | A text and its lower-cased form are accepted alike, and give the same value. |
| Configuration.ParseBoolean | src/infrastructure/config/EnvironmentConfigurationProvider.ts:91-107 | An unset value gives the default. Otherwise true, 1 and yes give true, and false, 0 and no give false, in any letter case. Anything else throws the boolean message. |
| Configuration.GetTableConfiguration | src/infrastructure/config/EnvironmentConfigurationProvider.ts:12-17 | A table read successfully has positive width and height. |
| Configuration.GetLoggingConfiguration | src/infrastructure/config/EnvironmentConfigurationProvider.ts:19-24 | A level and format read successfully are valid choices. |
| Configuration.GetOutputConfiguration | src/infrastructure/config/EnvironmentConfigurationProvider.ts:26-31 | An output format read successfully is a valid choice. |
| Configuration.GetConfiguration | src/infrastructure/config/EnvironmentConfigurationProvider.ts:4-10 | It succeeds exactly when all three parts do, and the result is then valid throughout. |
| Configuration.DefaultConfiguration | src/infrastructure/config/EnvironmentConfigurationProvider.ts:4-31 | With nothing set, the result is a 5 x 5 table, info, text, console and colours on. |
| Configuration.TableFromEnvironment | src/infrastructure/config/EnvironmentConfigurationProvider.ts:12-17 | Positive width and height written in the environment are taken as written. |
| TestPlace.IsPlaceInputCorrect | src/util/testPlace.ts:1-3 | An accepted line is at least 14 characters long ("PLACE 0,0,EAST"). After the one space that follows the keyword, it holds no whitespace. |
| TestPlace.PlaceSyntaxAccepted | src/util/testPlace.ts:1-3 | Every "PLACE x,y,D" is accepted when the keyword and D are in any letter case and x and y are digit strings. |
| TestPlace.PlaceSyntaxShape | src/util/testPlace.ts:1-3 | Every accepted line is of that shape: keyword and one space, two digit strings and a direction, separated by single commas. |
| TestPlace.LeadingCharacterRejected | src/util/testPlace.ts:1-3 | The match is anchored at the start: a leading character other than p or P, such as a space, rejects. |
| TestPlace.TrailingCharacterRejected | src/util/testPlace.ts:1-3 | The match is anchored at the end: no character can follow an accepted line. |
| TestPlace.SignedCoordinateRejected | src/util/testPlace.ts:1-3 | A sign before x rejects the line. |
| RobotLogic.IsInsideGrid | src/components/robotLogic.ts:17-19 | A cell is on the grid exactly when it is on the domain robot's 5 x 5 table, with row as x and col as y. |
| RobotLogic.TurnLeft | src/components/robotLogic.ts:21-38 | moveLeft's heading is always one of the four names. A name becomes its counter-clockwise neighbour, as the robot turns left. Any other text becomes NORTH. |
| RobotLogic.TurnRight | src/components/robotLogic.ts:40-57 | moveRight's heading is always one of the four names. A name becomes its clockwise neighbour, as the robot turns right. Any other text becomes NORTH. |
| RobotLogic.TurnsAgreeWithRobot | src/components/robotLogic.ts:21-57 | On the four names, the legacy turns are the robot's turns: N to W to S to E to N, and the reverse. |
| RobotLogic.TurnsInverse | src/components/robotLogic.ts:21-57 | On the four names, a left turn and a right turn undo each other. |
| RobotLogic.ForwardTarget | src/components/robotLogic.ts:59-76 | Any other text keeps the cell. |
| RobotLogic.GridAgreesWithTable | src/components/robotLogic.ts:59-75 | The forward target is calculateNewPosition's: NORTH col+1, EAST row+1, SOUTH col-1, WEST row-1. |
| RobotLogic.ForwardAgreesWithMove | src/components/robotLogic.ts:59-83 | From a cell on the grid, the legacy forward step commits exactly when the robot's move succeeds, and lands on the same cell. |
| RobotLogic.RobotGrid.constructor | src/components/robotLogic.ts:5 | The start is row 4, col 0, NORTH, on the grid. |
| RobotLogic.RobotGrid.MoveLeft | src/components/robotLogic.ts:21-38 | Only the heading changes, to TurnLeft of the old one. Being on the grid is kept. |
| RobotLogic.RobotGrid.MoveRight | src/components/robotLogic.ts:40-57 | Only the heading changes, to TurnRight of the old one. Being on the grid is kept. |
| RobotLogic.RobotGrid.MoveForward | src/components/robotLogic.ts:59-83 | It moves to the target when that is on the grid, keeping the heading. Otherwise nothing changes and the grid error is printed. Being on the grid is kept. |
| RobotLogic.RobotGrid.FindPlaceCoordinates | src/components/robotLogic.ts:85-105 | A line failing the PLACE syntax check prints the PLACE error and changes nothing. An unmatched line prints the error with the turn hint. A matched cell off the grid, or NaN, prints the grid error. Otherwise the robot is placed with the upper-cased heading. The position changes only to a cell on the grid. |
| RobotLogic.RobotGrid.PlaceOnGrid | src/components/robotLogic.ts:107-109 | The position is set as given, with no bounds check. |
| EndToEnd.PlaceLineCreatesPlace | src/infrastructure/di/setupContainer.ts:35-68 | With the default parser and factory, "PLACE x,y,D" with D in any letter case becomes the PLACE command for the robot with x, y and the upper-case name. |
| EndToEnd.PlaceCommandPlaces | src/application/commands/PlaceCommand.ts:42-54 | That command succeeds exactly when the cell is on the table, and then puts the robot at (x, y, D). Otherwise the robot stays where it was. |
| EndToEnd.KeywordLineCreatesCommand | src/infrastructure/di/setupContainer.ts:35-68 | A bare MOVE, LEFT, RIGHT or REPORT in any letter case becomes that command for the robot. |
| EndToEnd.UnknownLineCreatesNothing | src/infrastructure/di/setupContainer.ts:35-68 | A line whose first word names no command creates nothing. |
| ErrorHandling.SafeExecute | src/infrastructure/io/ErrorHandling.ts:31-72 | Without rethrow, it returns what the call returned, or the default value when the call threw. |

ReportCommand.Render (the `Output: x,y,D` template at src/application/commands/ReportCommand.ts:26) and ReportCommand.ReadReport (its independent reading) have no contract of their own and so no row. The row for ReportCommand.ReportReadsBack states them together: ReadReport(Render(p)) is p for every position. Robots.Robot.GetTableBounds (src/domain/Robot.ts:113-115) returns the bounds the constructor stored, and it has no contract and no row. The bounds are a `const` field set by the constructor, whose row states them, so no method can change them.

## Left out

- PlaceCommand.Effect: coordinates are integers, so the `Number.isInteger` guard and its "Coordinates must be integers" failure cannot arise. Floating-point coordinates are not modelled.
- LeftCommand.Effect, RightCommand.Effect: the branch that passes a robot failure through is not represented. The robot refuses a turn only when unplaced, which the command has already ruled out.
- RobotApplicationService.RobotApplicationServiceImpl.ExecuteCommand: the final "unexpected error" return (lines 87-91) is not represented. It is reached only when `execute()` resolves to a falsy value. The typed `Command` interface rules that out, and the model's `Custom` command always yields a `Result` or a fault. The default value covers only a thrown fault. `async`/`await` is not modelled, and a command's effect is taken as one step.
- Strings.Upper, Strings.Lower: case mapping covers ASCII letters only. JavaScript's full Unicode case mapping is not modelled. The `/i` flag of the PLACE syntax check folds only to ASCII, so it is covered exactly.
- ErrorHandling.SafeExecute: the `rethrow` option and the logging of the caught error are not modelled. The model covers the default path, which catches the fault and returns the default value.
- SplitOnSpaceRuns: its own contract states only that no word holds whitespace and that there is at least one word. The rest of what `split(/\s+/)` does is proved in lemmas: SplitLeadingWord fixes the first word and the one-word case, and SplitFirstWord and SplitOneWord fix the later words, one word at a time. Stating these inside the contract makes every proof that uses the split much slower.
- Strings.ParseInt: it reads an unbounded integer. Precision loss beyond 2^53 and exponent rendering of large numbers are not modelled.
- RobotLogic.RobotGrid.FindPlaceCoordinates: the coordinate extraction is a parameter. The pattern it uses, `PLACE_COORDINATES_REGEX`, is imported but not defined in src/constants.ts. Lines are matched against whatever extraction is supplied.
- Container.SimpleContainer.Get: it follows the corrected singleton check of ResolveOnce (run the factory only while nothing is cached), not the truthiness test written at Container.ts:117. For a singleton whose cached instance is falsy (0, "", false, null) it returns the cached value where the code as written runs the factory again. Resolve models the code as written, and ResolveAgreesUnlessFalsy proves that the two differ only in that case. See "## Findings".
- Container.SimpleContainer.Get: a factory is modelled by the outcome of each run. A factory that itself calls `get` on the same container is not modelled as re-entry. Re-registering a token restarts its run count.
- Commands.Effect: a command registered from outside is represented by `Custom`. Its result or fault is fixed, and it leaves its robot alone.
- Logging is a trace of (level, message) entries. Timestamps, formats and console output are left out.
- Out of scope: the CLI loop (CLIApplication, index.ts), console input and output, output formatters, and the container wiring in setupContainer beyond the factory and parser it builds. Also out: the unused grid.ts and the legacy printGrid, which only prints.

## Findings

| source | as written | input that shows it | evidently intended | confidence | as-written member | corrected member |
|---|---|---|---|---|---|---|
| src/infrastructure/di/Container.ts:117 | A singleton runs its factory again whenever its cached instance is falsy, because `if (!registration.instance)` tests truthiness. | A singleton whose factory returns 0, "", false or null: two `get` calls run the factory twice. | The documentation at lines 78-79 says a singleton is created only once and reused, so its factory should run only while nothing is cached. | not executed | Container.FalsySingletonRerun | Container.SingletonResolvedOnce |
