/**
 * The line parser (src/infrastructure/io/RegexInputParser.ts): trims the line, splits it on runs
 * of whitespace, upper-cases the first word and accepts it when it is a configured command type.
 * PLACE takes exactly one argument "x,y,direction"; every other type takes none.
 */
module RegexInputParser {
  import opened Wrappers
  import opened ErrorHandling
  import opened Strings
  import opened Domain
  import opened CommandFactory

  /** The words of a line as the parser sees them: `input.trim().split(/\s+/)`. */
  function Tokens(input: string): (r: seq<string>)
    ensures |r| >= 1
  {
    SplitOnSpaceRuns(Trim(input))
  }

  /** The parameter record of a well-formed PLACE: the one shape the PLACE creator accepts. */
  function PlaceParameters(p: Position): (r: Parameters)
    ensures PlaceParametersAccepted(Some(r))
    ensures r["x"] == Num(p.x) && r["y"] == Num(p.y) && r["direction"] == Str(Name(p.direction))
  {
    map["x" := Num(p.x), "y" := Num(p.y), "direction" := Str(Name(p.direction))]
  }

  /** A coordinate field: an integer literal once trimmed (`^-?\d+$`), read with parseInt. */
  function ReadCoordinate(field: string): (r: Option<int>)
    ensures r.Some? <==> IsIntegerLiteral(Trim(field))
    ensures r.Some? ==> ParseInt(Trim(field)) == r
  {
    var text := Trim(field);
    if !IsIntegerLiteral(text) then None
    else
      IntegerLiteralParses(text);
      ParseInt(text)
  }

  /** The direction field: trimmed and upper-cased, it must be one of the four names. */
  function ReadDirection(field: string): (r: Option<Direction>)
    ensures r.Some? <==> Upper(Trim(field)) in DirectionNames
    ensures r.Some? ==> Name(r.value) == Upper(Trim(field))
  {
    ParseDirection(Upper(Trim(field)))
  }

  /**
   * The checks of parsePlaceParameters: "x,y,direction" split on commas into exactly three
   * fields, x and y integer literals once trimmed, the direction a name in any letter case.
   */
  function ReadPlaceArguments(paramString: string): (r: Option<Position>)
    ensures var parts := SplitOn(paramString, ',');
            r.Some? <==> (&& |parts| == 3
                          && ReadCoordinate(parts[0]).Some?
                          && ReadCoordinate(parts[1]).Some?
                          && ReadDirection(parts[2]).Some?)
    ensures var parts := SplitOn(paramString, ',');
            r.Some? ==> r.value == Position(ReadCoordinate(parts[0]).value, ReadCoordinate(parts[1]).value,
                                            ReadDirection(parts[2]).value)
  {
    var parts := SplitOn(paramString, ',');
    if |parts| != 3 then None
    else
      var x := ReadCoordinate(parts[0]);
      var y := ReadCoordinate(parts[1]);
      var direction := ReadDirection(parts[2]);
      if x.None? || y.None? || direction.None? then None
      else Some(Position(x.value, y.value, direction.value))
  }

  /** A coordinate field holding an integer's rendering reads back as that integer. */
  lemma ReadCoordinateRendering(i: int)
    ensures ReadCoordinate(IntToString(i)) == Some(i)
  {
    IntToStringPlain(i);
    TrimUnpadded(IntToString(i));
    ParseIntRendering(i);
  }

  /** A direction field spelling a name in any letter case reads as that direction. */
  lemma ReadDirectionSpelling(d: Direction, text: string)
    requires Upper(text) == Name(d) && NoSpaces(text)
    ensures ReadDirection(text) == Some(d)
  {
    TrimUnpadded(text);
    ParseDirectionName(d);
  }

  /** parsePlaceParameters: the record { x, y, direction } when the checks pass. */
  function ParsePlaceParameters(paramString: string): (r: Option<Parameters>)
    ensures r.Some? ==> PlaceParametersAccepted(r)
    ensures r.Some? <==> ReadPlaceArguments(paramString).Some?
    ensures r.Some? ==> var parts := SplitOn(paramString, ',');
                        && r.value["x"] == Num(ReadCoordinate(parts[0]).value)
                        && r.value["y"] == Num(ReadCoordinate(parts[1]).value)
                        && r.value["direction"] == Str(Upper(Trim(parts[2])))
  {
    match ReadPlaceArguments(paramString)
    case None => None
    case Some(p) => Some(PlaceParameters(p))
  }

  /** The three fields of "x,y,direction" built from x's and y's renderings and a direction text. */
  lemma SplitPlaceArguments(x: int, y: int, directionText: string)
    requires ',' !in directionText
    ensures SplitOn(IntToString(x) + "," + IntToString(y) + "," + directionText, ',')
              == [IntToString(x), IntToString(y), directionText]
  {
    IntToStringPlain(x);
    IntToStringPlain(y);
    SplitThreeFields(IntToString(x), IntToString(y), directionText);
  }

  /**
   * Reading back "x,y,direction" built from the renderings of x and y and any spelling of a
   * direction's name (letter case free) gives exactly x, y and that direction.
   */
  lemma ParsePlaceParametersRendering(x: int, y: int, d: Direction, directionText: string)
    requires Upper(directionText) == Name(d)
    requires NoSpaces(directionText) && ',' !in directionText
    ensures ReadPlaceArguments(IntToString(x) + "," + IntToString(y) + "," + directionText)
              == Some(Position(x, y, d))
    ensures ParsePlaceParameters(IntToString(x) + "," + IntToString(y) + "," + directionText)
              == Some(PlaceParameters(Position(x, y, d)))
  {
    SplitPlaceArguments(x, y, directionText);
    ReadCoordinateRendering(x);
    ReadCoordinateRendering(y);
    ReadDirectionSpelling(d, directionText);
  }

  /**
   * The rejection half: "x,y,direction" is refused when x or y is not an integer literal once
   * trimmed (a decimal such as 1.5, a letter, an empty field) or the direction is not a name in
   * any letter case.
   */
  lemma {:induction false} ParsePlaceParametersRejects(xs: string, ys: string, directionText: string)
    requires ',' !in xs && ',' !in ys && ',' !in directionText
    requires || !IsIntegerLiteral(Trim(xs))
             || !IsIntegerLiteral(Trim(ys))
             || Upper(Trim(directionText)) !in DirectionNames
    ensures ParsePlaceParameters(xs + "," + ys + "," + directionText) == None
  {
    SplitThreeFields(xs, ys, directionText);
    assert ReadPlaceArguments(xs + "," + ys + "," + directionText).None?;
  }

  /** A decimal coordinate is refused: "i.f,y,D" gives no parameters, whatever y and D are. */
  lemma {:induction false} DecimalCoordinateRejected(i: nat, f: nat, ys: string, directionText: string)
    requires ',' !in ys && ',' !in directionText
    ensures ParsePlaceParameters(NatToString(i) + "." + NatToString(f) + "," + ys + "," + directionText) == None
  {
    var whole, fraction := NatToString(i), NatToString(f);
    var xs := whole + "." + fraction;
    assert xs[0] == whole[0] && xs[|xs| - 1] == fraction[|fraction| - 1];
    assert !IsSpace(xs[0]) && !IsSpace(xs[|xs| - 1]);
    TrimUnpadded(xs);
    assert xs[|whole|] == '.';
    assert !IsIntegerLiteral(xs);
    assert ',' !in xs by {
      assert forall k :: 0 <= k < |whole| ==> IsDigit(whole[k]);
      assert forall k :: 0 <= k < |fraction| ==> IsDigit(fraction[k]);
      assert forall k :: 0 <= k < |xs| ==> xs[k] == '.' || IsDigit(xs[k]);
    }
    ParsePlaceParametersRejects(xs, ys, directionText);
  }

  /** The parser: the set of accepted command types, stored upper-cased. */
  datatype Parser = Parser(validCommandTypes: set<string>) {

    /** parse(input) */
    function Parse(input: string): (r: Option<ParsedCommand>)
      ensures Trim(input) == "" ==> r.None?
      ensures r.Some? ==> r.value.commandType == Upper(Tokens(input)[0])
      ensures r.Some? ==> r.value.commandType in validCommandTypes
      ensures r.Some? && r.value.commandType == "PLACE" ==>
                |Tokens(input)| == 2 && r.value.parameters == ParsePlaceParameters(Tokens(input)[1])
                && PlaceParametersAccepted(r.value.parameters)
      ensures r.Some? && r.value.commandType != "PLACE" ==> |Tokens(input)| == 1 && r.value.parameters.None?
    {
      var trimmedInput := Trim(input);
      if trimmedInput == "" then None
      else
        var parts := SplitOnSpaceRuns(trimmedInput);
        var commandType := Upper(parts[0]);
        if commandType !in validCommandTypes then None
        else if commandType == "PLACE" then
          if |parts| != 2 then None
          else
            var placeParams := ParsePlaceParameters(parts[1]);
            if placeParams.Some? then Some(ParsedCommand(commandType, placeParams)) else None
        else if |parts| == 1 then Some(ParsedCommand(commandType, None))
        else None
    }

    /** The parser as the factory consumes it; it never throws. */
    function AsInputParser(): (p: InputParser)
      ensures forall input :: p(input) == Returned(Parse(input))
    {
      input => Returned(Parse(input))
    }
  }

  /** new RegexInputParser(validCommandTypes): the types are stored upper-cased. */
  function New(validCommandTypes: seq<string>): (p: Parser)
    ensures forall t :: t in validCommandTypes ==> Upper(t) in p.validCommandTypes
    ensures forall u :: u in p.validCommandTypes ==> exists t :: t in validCommandTypes && u == Upper(t)
  {
    Parser(set t | t in validCommandTypes :: Upper(t))
  }

  const DefaultCommandTypes: seq<string> := ["PLACE", "MOVE", "LEFT", "RIGHT", "REPORT"]

  /** The parser built with no argument: exactly the five standard commands. */
  lemma DefaultParserTypes()
    ensures New(DefaultCommandTypes).validCommandTypes == {"PLACE", "MOVE", "LEFT", "RIGHT", "REPORT"}
  {
    StandardTypesUpper();
  }

  /** Whitespace around a line never changes how it parses. */
  lemma ParseIgnoresPadding(p: Parser, front: string, input: string, back: string)
    requires AllSpaces(front) && AllSpaces(back)
    ensures p.Parse(front + input + back) == p.Parse(input)
  {
    TrimIgnoresPadding(front, input, back);
  }

  /**
   * A PLACE line: the keyword in any letter case, any whitespace run before the argument and any
   * padding around the line; it parses to PLACE exactly when its argument does.
   */
  lemma {:induction false} ParsePlaceLine(p: Parser, keyword: string, gap: string, argument: string)
    requires "PLACE" in p.validCommandTypes
    requires keyword != "" && NoSpaces(keyword) && Upper(keyword) == "PLACE"
    requires gap != "" && AllSpaces(gap)
    requires argument != "" && NoSpaces(argument)
    ensures var params := ParsePlaceParameters(argument);
            p.Parse(keyword + gap + argument)
              == if params.Some? then Some(ParsedCommand("PLACE", params)) else None
  {
    var line := keyword + gap + argument;
    assert line[0] == keyword[0] && line[|line| - 1] == argument[|argument| - 1];
    TrimUnpadded(line);
    SplitTwoWords(keyword, gap, argument);
    assert Trim(line) != "" && SplitOnSpaceRuns(Trim(line)) == [keyword, argument];
  }

  /** "PLACE x,y,D" (any spelling of D) parses to x, y and D's name. */
  lemma ParsePlaceRendering(p: Parser, x: int, y: int, d: Direction, directionText: string)
    requires "PLACE" in p.validCommandTypes
    requires Upper(directionText) == Name(d)
    requires NoSpaces(directionText) && ',' !in directionText
    ensures p.Parse("PLACE " + IntToString(x) + "," + IntToString(y) + "," + directionText)
              == Some(ParsedCommand("PLACE", Some(PlaceParameters(Position(x, y, d)))))
  {
    var xs, ys := IntToString(x), IntToString(y);
    var argument := xs + "," + ys + "," + directionText;
    assert "PLACE " + xs + "," + ys + "," + directionText == "PLACE" + " " + argument;
    PlaceArgumentPlain(x, y, directionText);
    StandardTypesUpper();
    ParsePlaceLine(p, "PLACE", " ", argument);
    ParsePlaceParametersRendering(x, y, d, directionText);
  }

  lemma PlaceArgumentPlain(x: int, y: int, directionText: string)
    requires NoSpaces(directionText)
    ensures NoSpaces(IntToString(x) + "," + IntToString(y) + "," + directionText)
  {
    IntToStringPlain(x);
    IntToStringPlain(y);
  }

  /** A lone keyword other than PLACE parses, in any letter case, to its upper-cased type. */
  lemma ParseKeyword(p: Parser, keyword: string)
    requires keyword != "" && NoSpaces(keyword)
    requires Upper(keyword) in p.validCommandTypes && Upper(keyword) != "PLACE"
    ensures p.Parse(keyword) == Some(ParsedCommand(Upper(keyword), None))
  {
    TrimUnpadded(keyword);
    SplitOneWord(keyword);
  }

  /**
   * The words of a line that starts with a keyword and a whitespace run: the keyword, then the
   * words of what follows, trailing whitespace dropped.
   */
  lemma {:induction false} TokensAfterKeyword(keyword: string, gap: string, rest: string)
    requires keyword != "" && NoSpaces(keyword)
    requires gap != "" && AllSpaces(gap)
    requires rest != "" && !IsSpace(rest[0])
    ensures Trim(keyword + gap + rest) != ""
    ensures Tokens(keyword + gap + rest) == [keyword] + SplitOnSpaceRuns(TrimEnd(rest))
  {
    var line := keyword + gap + rest;
    assert line == keyword + (gap + rest);
    TrimStartKeepsTail(keyword, gap + rest);
    TrimEndKeepsHead(keyword + gap, rest);
    assert Trim(line) == keyword + gap + TrimEnd(rest);
    SplitFirstWord(keyword, gap, TrimEnd(rest));
  }

  /** A keyword other than PLACE followed by anything but whitespace is refused. */
  lemma {:induction false} ParseKeywordWithArgument(p: Parser, keyword: string, gap: string, rest: string)
    requires keyword != "" && NoSpaces(keyword) && Upper(keyword) != "PLACE"
    requires gap != "" && AllSpaces(gap)
    requires rest != "" && !IsSpace(rest[0])
    ensures p.Parse(keyword + gap + rest) == None
  {
    TokensAfterKeyword(keyword, gap, rest);
  }

  /**
   * A line of three or more words is refused whatever its keyword: PLACE takes exactly one
   * argument and every other type none ("PLACE 1,2,NORTH x" is not a PLACE).
   */
  lemma {:induction false} ParseExtraWords(p: Parser, keyword: string, gap: string, argument: string,
                                            gap2: string, rest: string)
    requires keyword != "" && NoSpaces(keyword)
    requires gap != "" && AllSpaces(gap)
    requires argument != "" && NoSpaces(argument)
    requires gap2 != "" && AllSpaces(gap2)
    requires rest != "" && !IsSpace(rest[0])
    ensures p.Parse(keyword + gap + argument + gap2 + rest) == None
  {
    var tail := argument + gap2 + rest;
    assert keyword + gap + argument + gap2 + rest == keyword + gap + tail;
    TokensAfterKeyword(keyword, gap, tail);
    TrimEndKeepsHead(argument + gap2, rest);
    assert TrimEnd(tail) == argument + gap2 + TrimEnd(rest);
    SplitFirstWord(argument, gap2, TrimEnd(rest));
  }

  /** A word that is not a configured type is refused, whatever follows it. */
  lemma ParseUnknownType(p: Parser, input: string)
    requires Trim(input) != "" && Upper(Tokens(input)[0]) !in p.validCommandTypes
    ensures p.Parse(input) == None
  {
  }
}
