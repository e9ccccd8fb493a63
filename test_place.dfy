/**
 * The PLACE syntax check of the legacy command line (src/util/testPlace.ts): the whole input must
 * be "PLACE x,y,D" with one space after the keyword, unsigned decimal x and y, single commas and
 * no other whitespace, D one of the four names, and letter case free throughout.
 */
module TestPlace {
  import opened Strings
  import opened Domain

  /** An unsigned decimal field: `\d+`. */
  predicate IsUnsigned(field: string) {
    field != "" && AllDigits(field)
  }

  /**
   * isPlaceInputCorrect: the anchored, case-insensitive pattern `^PLACE \d+,\d+,(NORTH|EAST|SOUTH|WEST)$`.
   * The keyword and the space are the first six characters; the rest splits on commas into the
   * three fields (digits and names contain no comma, so a split is exactly the pattern's shape).
   * An accepted line is at least 14 characters long ("PLACE 0,0,EAST") and holds no whitespace
   * after the single space that follows the keyword.
   */
  predicate IsPlaceInputCorrect(input: string): (b: bool)
    ensures b ==> |input| >= 14 && NoSpaces(input[6..])
  {
    if |input| < 6 || Upper(input[..6]) != "PLACE " then false
    else
      var fields := SplitOn(input[6..], ',');
      if |fields| == 3 && IsUnsigned(fields[0]) && IsUnsigned(fields[1]) && Upper(fields[2]) in DirectionNames then
        CompactFields(input[6..], fields);
        true
      else false
  }

  /** The three fields of an accepted line hold no whitespace, and the name at least four letters. */
  lemma CompactFields(rest: string, fields: seq<string>)
    requires fields == SplitOn(rest, ',') && |fields| == 3
    requires IsUnsigned(fields[0]) && IsUnsigned(fields[1]) && Upper(fields[2]) in DirectionNames
    ensures |rest| >= 8 && NoSpaces(rest)
  {
    JoinThree(rest, fields);
    SpellingIsPlain(fields[2]);
    CompactLine(fields[0], fields[1], fields[2]);
  }

  /** Two digit strings and a plain word joined with commas hold no whitespace. */
  lemma CompactLine(x: string, y: string, text: string)
    requires IsUnsigned(x) && IsUnsigned(y) && NoSpaces(text)
    ensures NoSpaces(x + "," + y + "," + text)
  {
    DigitsArePlain(x);
    DigitsArePlain(y);
    assert NoSpaces(",") by {
      assert !IsSpace(',');
    }
    PlainConcat(x, ",");
    PlainConcat(x + ",", y);
    PlainConcat(x + "," + y, ",");
    PlainConcat(x + "," + y + ",", text);
  }

  /** Text without whitespace joined to text without whitespace has none. */
  lemma PlainConcat(a: string, b: string)
    requires NoSpaces(a) && NoSpaces(b)
    ensures NoSpaces(a + b)
  {
    forall k | 0 <= k < |a + b|
      ensures !IsSpace((a + b)[k])
    {
      if k < |a| {
        assert (a + b)[k] == a[k];
      } else {
        assert (a + b)[k] == b[k - |a|];
      }
    }
  }

  /** A digit string holds no whitespace. */
  lemma DigitsArePlain(field: string)
    requires IsUnsigned(field)
    ensures NoSpaces(field)
  {
    assert forall k :: 0 <= k < |field| ==> IsDigit(field[k]);
  }

  /** A spelling of a direction name holds no whitespace and has at least four letters. */
  lemma SpellingIsPlain(text: string)
    requires Upper(text) in DirectionNames
    ensures |text| >= 4 && NoSpaces(text)
  {
    var name := Upper(text);
    assert NoSpaces(name) by {
      assert name == "NORTH" || name == "EAST" || name == "SOUTH" || name == "WEST";
    }
    forall k | 0 <= k < |text|
      ensures !IsSpace(text[k])
    {
      assert name[k] == UpperChar(text[k]);
    }
  }

  /** Direction names contain no comma, and neither does any spelling of one. */
  lemma SpellingHasNoComma(d: Direction, text: string)
    requires Upper(text) == Name(d)
    ensures ',' !in text
  {
    forall k | 0 <= k < |text|
      ensures text[k] != ','
    {
      assert Upper(text)[k] == UpperChar(text[k]);
      assert Name(d)[k] != ',';
    }
  }

  /**
   * Every input of the documented shape is accepted: the keyword in any letter case, one space,
   * two unsigned numbers and a spelling of a direction, separated by single commas.
   */
  lemma {:induction false} PlaceSyntaxAccepted(keyword: string, x: string, y: string, d: Direction, text: string)
    requires Upper(keyword) == "PLACE"
    requires IsUnsigned(x) && IsUnsigned(y)
    requires Upper(text) == Name(d)
    ensures IsPlaceInputCorrect(keyword + " " + x + "," + y + "," + text)
  {
    var input := keyword + " " + x + "," + y + "," + text;
    assert |keyword| == 5;
    assert input[..6] == keyword + " ";
    UpperConcat(keyword, " ");
    var rest := x + "," + y + "," + text;
    assert input[6..] == rest;
    assert ',' !in x && ',' !in y by {
      assert forall k :: 0 <= k < |x| ==> IsDigit(x[k]);
      assert forall k :: 0 <= k < |y| ==> IsDigit(y[k]);
    }
    SpellingHasNoComma(d, text);
    SplitThreeFields(x, y, text);
    ParseDirectionName(d);
  }

  /**
   * And only inputs of that shape: an accepted input is the keyword and space followed by two
   * unsigned numbers and a direction spelling joined with commas.
   */
  lemma {:induction false} PlaceSyntaxShape(input: string)
    requires IsPlaceInputCorrect(input)
    ensures var fields := SplitOn(input[6..], ',');
            && input[6..] == fields[0] + "," + fields[1] + "," + fields[2]
            && Upper(input[..6]) == "PLACE "
            && IsUnsigned(fields[0]) && IsUnsigned(fields[1])
            && exists d :: Upper(fields[2]) == Name(d)
  {
    var fields := SplitOn(input[6..], ',');
    JoinThree(input[6..], fields);
    var d := ParseDirection(Upper(fields[2])).value;
    assert Upper(fields[2]) == Name(d);
  }

  /** A string that splits into three fields is those fields joined by commas. */
  lemma JoinThree(s: string, fields: seq<string>)
    requires fields == SplitOn(s, ',') && |fields| == 3
    ensures s == fields[0] + "," + fields[1] + "," + fields[2]
  {
    JoinSplitOn(s, ',');
    assert fields == [fields[0], fields[1], fields[2]];
    JoinOfThree(fields[0], fields[1], fields[2]);
  }

  /** The pattern is anchored at the start: a leading space (or any leading character other than p/P) rejects. */
  lemma LeadingCharacterRejected(c: char, input: string)
    requires UpperChar(c) != 'P'
    ensures !IsPlaceInputCorrect([c] + input)
  {
    if |[c] + input| >= 6 {
      assert Upper(([c] + input)[..6])[0] == UpperChar(c);
    }
  }

  /** The pattern is anchored at the end: no character can follow an accepted input. */
  lemma {:induction false} TrailingCharacterRejected(input: string, c: char)
    requires IsPlaceInputCorrect(input)
    ensures !IsPlaceInputCorrect(input + [c])
  {
    var longer := input + [c];
    assert longer[..6] == input[..6];
    assert longer[6..] == input[6..] + [c];
    SplitOnAppend(input[6..], c, ',');
    if c != ',' {
      var fields := SplitOn(input[6..], ',');
      var last := fields[2] + [c];
      UpperConcat(fields[2], [c]);
      assert Upper(last) == Upper(fields[2]) + [UpperChar(c)];
      NoNameExtendsAnother(Upper(fields[2]), UpperChar(c));
    }
  }

  /** No direction name is another name followed by one more character. */
  lemma NoNameExtendsAnother(name: string, c: char)
    requires name in DirectionNames
    ensures name + [c] !in DirectionNames
  {
    var longer := name + [c];
    assert longer[0] == name[0];
    assert |longer| == |name| + 1;
  }

  /** A signed coordinate is rejected: the pattern's `\d+` admits no '-' or '+'. */
  lemma SignedCoordinateRejected(keyword: string, sign: char, rest: string)
    requires |keyword| == 6 && (sign == '-' || sign == '+')
    ensures !IsPlaceInputCorrect(keyword + [sign] + rest)
  {
    var input := keyword + [sign] + rest;
    var fields := SplitOn(input[6..], ',');
    assert input[6..] == [sign] + rest;
    assert IndexOf(input[6..], ',', 0) > 0;
    assert fields[0][0] == sign;
  }
}
