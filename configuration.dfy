/**
 * The configuration reader (src/infrastructure/config/EnvironmentConfigurationProvider.ts). The
 * process environment is a parameter: a map from variable name to value. An unset or empty
 * variable takes the default; a set one must be valid or the read throws, and the first fault in
 * the order table, logging, output is the one reported.
 */
module Configuration {
  import opened Wrappers
  import opened ErrorHandling
  import opened Strings
  import opened Domain

  datatype LoggingConfiguration = LoggingConfiguration(level: string, format: string)

  datatype OutputConfiguration = OutputConfiguration(format: string, colors: bool)

  datatype Configuration = Configuration(table: TableBounds, logging: LoggingConfiguration, output: OutputConfiguration)

  type Environment = map<string, string>

  /** `process.env[name]`: undefined when the variable is not set. */
  function Lookup(env: Environment, name: string): Option<string> {
    if name in env then Some(env[name]) else None
  }

  /** `!value`: the variable is unset or empty, so the default applies. */
  predicate Unset(value: Option<string>) {
    value.None? || value.value == ""
  }

  function PositiveIntegerMessage(fieldName: string, value: string): string {
    "Invalid " + fieldName + ": must be a positive integer, got \"" + value + "\""
  }

  /** parsePositiveInteger: parseInt of the text, which must be a number above zero. */
  function ParsePositiveInteger(value: Option<string>, defaultValue: int, fieldName: string): (r: Attempt<int>)
    ensures Unset(value) ==> r == Returned(defaultValue)
    ensures !Unset(value) ==>
              && (r.Returned? <==> ParseInt(value.value).Some? && ParseInt(value.value).value > 0)
              && (r.Returned? ==> r.value == ParseInt(value.value).value)
              && (r.Threw? ==> r.fault == PositiveIntegerMessage(fieldName, value.value))
  {
    if Unset(value) then Returned(defaultValue)
    else
      var parsed := ParseInt(value.value);
      if parsed.None? || parsed.value <= 0 then Threw(PositiveIntegerMessage(fieldName, value.value))
      else Returned(parsed.value)
  }

  /** A positive integer written out is read back as itself; zero and negatives are refused. */
  lemma PositiveIntegerRendering(n: int, defaultValue: int, fieldName: string)
    ensures n > 0 ==> ParsePositiveInteger(Some(IntToString(n)), defaultValue, fieldName) == Returned(n)
    ensures n <= 0 ==> ParsePositiveInteger(Some(IntToString(n)), defaultValue, fieldName)
                         == Threw(PositiveIntegerMessage(fieldName, IntToString(n)))
  {
    ParseIntRendering(n);
  }

  function ChoiceMessage(fieldName: string, valid: seq<string>, value: string): string {
    "Invalid " + fieldName + ": must be one of " + Join(valid, ", ") + ", got \"" + value + "\""
  }

  /**
   * The shape shared by parseLogLevel, parseLogFormat and parseOutputFormat: the lower-cased text
   * must be one of the valid choices.
   */
  function ParseChoice(value: Option<string>, defaultValue: string, valid: seq<string>, fieldName: string)
    : (r: Attempt<string>)
    ensures Unset(value) ==> r == Returned(defaultValue)
    ensures !Unset(value) ==>
              && (r.Returned? <==> Lower(value.value) in valid)
              && (r.Returned? ==> r.value == Lower(value.value))
              && (r.Threw? ==> r.fault == ChoiceMessage(fieldName, valid, value.value))
  {
    if Unset(value) then Returned(defaultValue)
    else
      var lowercaseValue := Lower(value.value);
      if lowercaseValue !in valid then Threw(ChoiceMessage(fieldName, valid, value.value))
      else Returned(lowercaseValue)
  }

  const LogLevels: seq<string> := ["debug", "info", "warn", "error"]
  const LogFormats: seq<string> := ["text", "json"]
  const OutputFormats: seq<string> := ["console", "json"]

  function ParseLogLevel(value: Option<string>, defaultValue: string): (r: Attempt<string>)
    ensures r.Returned? && !Unset(value) ==> r.value in LogLevels
  {
    ParseChoice(value, defaultValue, LogLevels, "LOG_LEVEL")
  }

  function ParseLogFormat(value: Option<string>, defaultValue: string): (r: Attempt<string>)
    ensures r.Returned? && !Unset(value) ==> r.value in LogFormats
  {
    ParseChoice(value, defaultValue, LogFormats, "LOG_FORMAT")
  }

  function ParseOutputFormat(value: Option<string>, defaultValue: string): (r: Attempt<string>)
    ensures r.Returned? && !Unset(value) ==> r.value in OutputFormats
  {
    ParseChoice(value, defaultValue, OutputFormats, "OUTPUT_FORMAT")
  }

  /** Letter case never matters to a choice: a text and its lower-cased form are accepted alike. */
  lemma {:induction false} ChoiceIgnoresCase(s: string, defaultValue: string, valid: seq<string>, fieldName: string)
    requires s != ""
    ensures (ParseChoice(Some(s), defaultValue, valid, fieldName).Returned?
             <==> ParseChoice(Some(Lower(s)), defaultValue, valid, fieldName).Returned?)
    ensures ParseChoice(Some(s), defaultValue, valid, fieldName).Returned? ==>
              ParseChoice(Some(s), defaultValue, valid, fieldName) == ParseChoice(Some(Lower(s)), defaultValue, valid, fieldName)
  {
    assert Lower(Lower(s)) == Lower(s);
  }

  const BooleanMessagePrefix: string := "Invalid boolean value: must be true/false, 1/0, or yes/no, got \""

  /** parseBoolean: true, 1 or yes and false, 0 or no, in any letter case. */
  function ParseBoolean(value: Option<string>, defaultValue: bool): (r: Attempt<bool>)
    ensures Unset(value) ==> r == Returned(defaultValue)
    ensures !Unset(value) ==>
              && (r == Returned(true) <==> Lower(value.value) in ["true", "1", "yes"])
              && (r == Returned(false) <==> Lower(value.value) in ["false", "0", "no"])
              && (r.Threw? ==> r.fault == BooleanMessagePrefix + value.value + "\"")
  {
    if Unset(value) then Returned(defaultValue)
    else
      var lowercaseValue := Lower(value.value);
      if lowercaseValue == "true" || lowercaseValue == "1" || lowercaseValue == "yes" then Returned(true)
      else if lowercaseValue == "false" || lowercaseValue == "0" || lowercaseValue == "no" then Returned(false)
      else Threw(BooleanMessagePrefix + value.value + "\"")
  }

  /** getTableConfiguration: TABLE_WIDTH then TABLE_HEIGHT, each 5 by default. */
  function GetTableConfiguration(env: Environment): (r: Attempt<TableBounds>)
    ensures r.Returned? ==> r.value.width > 0 && r.value.height > 0
  {
    match ParsePositiveInteger(Lookup(env, "TABLE_WIDTH"), 5, "TABLE_WIDTH")
    case Threw(fault) => Threw(fault)
    case Returned(width) =>
      match ParsePositiveInteger(Lookup(env, "TABLE_HEIGHT"), 5, "TABLE_HEIGHT")
      case Threw(fault) => Threw(fault)
      case Returned(height) => Returned(TableBounds(width, height))
  }

  /** getLoggingConfiguration: LOG_LEVEL (default info) then LOG_FORMAT (default text). */
  function GetLoggingConfiguration(env: Environment): (r: Attempt<LoggingConfiguration>)
    ensures r.Returned? ==> r.value.level in LogLevels && r.value.format in LogFormats
  {
    match ParseLogLevel(Lookup(env, "LOG_LEVEL"), "info")
    case Threw(fault) => Threw(fault)
    case Returned(level) =>
      match ParseLogFormat(Lookup(env, "LOG_FORMAT"), "text")
      case Threw(fault) => Threw(fault)
      case Returned(format) => Returned(LoggingConfiguration(level, format))
  }

  /** getOutputConfiguration: OUTPUT_FORMAT (default console) then OUTPUT_COLORS (default true). */
  function GetOutputConfiguration(env: Environment): (r: Attempt<OutputConfiguration>)
    ensures r.Returned? ==> r.value.format in OutputFormats
  {
    match ParseOutputFormat(Lookup(env, "OUTPUT_FORMAT"), "console")
    case Threw(fault) => Threw(fault)
    case Returned(format) =>
      match ParseBoolean(Lookup(env, "OUTPUT_COLORS"), true)
      case Threw(fault) => Threw(fault)
      case Returned(colors) => Returned(OutputConfiguration(format, colors))
  }

  /** getConfiguration: every field valid, or the first fault. */
  function GetConfiguration(env: Environment): (r: Attempt<Configuration>)
    ensures r.Returned? ==>
              && r.value.table.width > 0 && r.value.table.height > 0
              && r.value.logging.level in LogLevels && r.value.logging.format in LogFormats
              && r.value.output.format in OutputFormats
    ensures r.Returned? <==>
              GetTableConfiguration(env).Returned? && GetLoggingConfiguration(env).Returned?
              && GetOutputConfiguration(env).Returned?
  {
    match GetTableConfiguration(env)
    case Threw(fault) => Threw(fault)
    case Returned(table) =>
      match GetLoggingConfiguration(env)
      case Threw(fault) => Threw(fault)
      case Returned(logging) =>
        match GetOutputConfiguration(env)
        case Threw(fault) => Threw(fault)
        case Returned(output) => Returned(Configuration(table, logging, output))
  }

  /** With nothing set, the configuration is the documented default: a 5 x 5 table, info, text, console, colours. */
  lemma DefaultConfiguration(env: Environment)
    requires forall name :: name in env ==> env[name] == ""
    ensures GetConfiguration(env) == Returned(Configuration(
              TableBounds(5, 5), LoggingConfiguration("info", "text"), OutputConfiguration("console", true)))
  {
  }

  /** Width and height set to positive numbers are taken as they are written. */
  lemma TableFromEnvironment(env: Environment, width: int, height: int)
    requires width > 0 && height > 0
    requires Lookup(env, "TABLE_WIDTH") == Some(IntToString(width))
    requires Lookup(env, "TABLE_HEIGHT") == Some(IntToString(height))
    ensures GetTableConfiguration(env) == Returned(TableBounds(width, height))
  {
    PositiveIntegerRendering(width, 5, "TABLE_WIDTH");
    PositiveIntegerRendering(height, 5, "TABLE_HEIGHT");
  }
}
