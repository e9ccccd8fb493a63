/**
 * The JavaScript string and number primitives the core relies on: whitespace (the `\s` class and
 * `String.prototype.trim`), `split`, ASCII case mapping, the decimal rendering of an integer in a
 * template string, and `parseInt(s, 10)`.
 */
module Strings {
  import opened Wrappers

  // ---------------------------------------------------------------------------------------------
  // Whitespace, trim and split

  /** JavaScript WhiteSpace and LineTerminator code points: the `\s` class and what `trim` removes. */
  predicate IsSpace(c: char) {
    || c == ' ' || c == '\t' || c == '\n' || c == '\r' || c == '\U{000B}' || c == '\U{000C}'
    || c == '\U{00A0}' || c == '\U{1680}' || ('\U{2000}' <= c <= '\U{200A}')
    || c == '\U{2028}' || c == '\U{2029}' || c == '\U{202F}' || c == '\U{205F}'
    || c == '\U{3000}' || c == '\U{FEFF}'
  }

  predicate AllSpaces(s: string) {
    forall i :: 0 <= i < |s| ==> IsSpace(s[i])
  }

  predicate NoSpaces(s: string) {
    forall i :: 0 <= i < |s| ==> !IsSpace(s[i])
  }

  /** Drops leading whitespace: the result is the suffix that starts at the first non-space. */
  function TrimStart(s: string): (r: string)
    ensures |r| <= |s| && r == s[|s| - |r|..]
    ensures AllSpaces(s[..|s| - |r|])
    ensures r == "" || !IsSpace(r[0])
  {
    if s != "" && IsSpace(s[0]) then
      var r := TrimStart(s[1..]);
      assert s[..|s| - |r|] == [s[0]] + s[1..][..|s| - 1 - |r|];
      r
    else s
  }

  /** Drops trailing whitespace: the result is the prefix that ends at the last non-space. */
  function TrimEnd(s: string): (r: string)
    ensures |r| <= |s| && r == s[..|r|]
    ensures AllSpaces(s[|r|..])
    ensures r == "" || !IsSpace(r[|r| - 1])
  {
    if s != "" && IsSpace(s[|s| - 1]) then TrimEnd(s[..|s| - 1]) else s
  }

  /**
   * `String.prototype.trim`: the result neither starts nor ends with whitespace, and it is empty
   * exactly when the string is all whitespace.
   */
  function Trim(s: string): (r: string)
    ensures r == "" || (!IsSpace(r[0]) && !IsSpace(r[|r| - 1]))
    ensures r == "" <==> AllSpaces(s)
  {
    TrimEnd(TrimStart(s))
  }

  lemma {:induction false} TrimStartSkipsSpaces(pad: string, s: string)
    requires AllSpaces(pad)
    ensures TrimStart(pad + s) == TrimStart(s)
    decreases |pad|
  {
    if pad != "" {
      assert (pad + s)[1..] == pad[1..] + s;
      TrimStartSkipsSpaces(pad[1..], s);
    } else {
      assert pad + s == s;
    }
  }

  lemma {:induction false} TrimEndSkipsSpaces(s: string, pad: string)
    requires AllSpaces(pad)
    ensures TrimEnd(s + pad) == TrimEnd(s)
    decreases |pad|
  {
    if pad != "" {
      assert (s + pad)[..|s + pad| - 1] == s + pad[..|pad| - 1];
      TrimEndSkipsSpaces(s, pad[..|pad| - 1]);
    } else {
      assert s + pad == s;
    }
  }

  /** Whitespace appended after a word with a non-space first character survives TrimStart. */
  lemma TrimStartKeepsTail(s: string, pad: string)
    requires s != "" && !IsSpace(s[0])
    ensures TrimStart(s + pad) == s + pad
  {
  }

  /** Surrounding a string with whitespace does not change what `trim` returns. */
  lemma {:induction false} TrimIgnoresPadding(front: string, s: string, back: string)
    requires AllSpaces(front) && AllSpaces(back)
    ensures Trim(front + s + back) == Trim(s)
  {
    assert front + s + back == front + (s + back);
    TrimStartSkipsSpaces(front, s + back);
    if TrimStart(s) == "" {
      BlankPadding(s, back);
    } else {
      WordPadding(s, back);
    }
  }

  /** A blank string followed by whitespace trims to nothing. */
  lemma {:induction false} BlankPadding(s: string, back: string)
    requires AllSpaces(back) && TrimStart(s) == ""
    ensures TrimStart(s + back) == ""
  {
    assert s[..|s|] == s;
    var padded := s + back;
    forall i | 0 <= i < |padded|
      ensures IsSpace(padded[i])
    {
      if i < |s| {
        assert padded[i] == s[i];
      } else {
        assert padded[i] == back[i - |s|];
      }
    }
    TrimStartSkipsSpaces(padded, "");
    assert padded + "" == padded;
  }

  /** Whitespace after a string with a non-space character is dropped again by `trim`. */
  lemma {:induction false} WordPadding(s: string, back: string)
    requires AllSpaces(back) && TrimStart(s) != ""
    ensures TrimEnd(TrimStart(s + back)) == TrimEnd(TrimStart(s))
  {
    var t := TrimStart(s);
    var k := |s| - |t|;
    var lead := s[..k];
    assert s + back == lead + (t + back);
    TrimStartSkipsSpaces(lead, t + back);
    assert TrimStart(s + back) == TrimStart(t + back);
    TrimStartKeepsTail(t, back);
    TrimEndSkipsSpaces(t, back);
  }

  /** Trailing whitespace after a text with a non-space character is all TrimEnd removes. */
  lemma TrimEndKeepsHead(a: string, b: string)
    requires b != "" && !IsSpace(b[0])
    ensures TrimEnd(b) != "" && TrimEnd(b)[0] == b[0]
    ensures TrimEnd(a + b) == a + TrimEnd(b)
  {
    var t := TrimEnd(b);
    var pad := b[|t|..];
    assert |t| == 0 ==> pad == b;
    assert b == t + pad;
    assert a + b == (a + t) + pad;
    TrimEndSkipsSpaces(a + t, pad);
    assert (a + t)[|a + t| - 1] == t[|t| - 1];
  }

  /** A string that neither starts nor ends with whitespace is its own trim. */
  lemma TrimUnpadded(s: string)
    requires s == "" || (!IsSpace(s[0]) && !IsSpace(s[|s| - 1]))
    ensures Trim(s) == s
  {
    assert TrimStart(s) == s;
  }

  /** Index of the first whitespace character at or after i (|s| when there is none). */
  function FirstSpace(s: string, i: nat): (j: nat)
    requires i <= |s|
    ensures i <= j <= |s|
    ensures forall k :: i <= k < j ==> !IsSpace(s[k])
    ensures j < |s| ==> IsSpace(s[j])
    decreases |s| - i
  {
    if i == |s| || IsSpace(s[i]) then i else FirstSpace(s, i + 1)
  }

  /** Index of the first non-whitespace character at or after i (|s| when there is none). */
  function SkipSpaces(s: string, i: nat): (j: nat)
    requires i <= |s|
    ensures i <= j <= |s|
    ensures forall k :: i <= k < j ==> IsSpace(s[k])
    ensures j < |s| ==> !IsSpace(s[j])
    decreases |s| - i
  {
    if i == |s| || !IsSpace(s[i]) then i else SkipSpaces(s, i + 1)
  }

  /**
   * `s.split(/\s+/)`: the pieces between maximal runs of whitespace. Like JavaScript, a leading
   * (trailing) run yields an empty first (last) piece, and the empty string gives [""].
   */
  function SplitOnSpaceRuns(s: string): (r: seq<string>)
    ensures |r| >= 1
    ensures forall k :: 0 <= k < |r| ==> NoSpaces(r[k])
    decreases |s|
  {
    var i := FirstSpace(s, 0);
    if i == |s| then [s] else [s[..i]] + SplitOnSpaceRuns(s[SkipSpaces(s, i)..])
  }

  lemma SplitOneWord(w: string)
    requires NoSpaces(w)
    ensures SplitOnSpaceRuns(w) == [w]
  {
    assert FirstSpace(w, 0) == |w|;
  }

  /**
   * The first word of a split is the longest whitespace-free prefix of the text, and the text
   * splits into that one word alone exactly when it holds no whitespace.
   */
  lemma SplitLeadingWord(s: string)
    ensures var r := SplitOnSpaceRuns(s);
            |r[0]| <= |s| && r[0] == s[..|r[0]|] && (|r[0]| < |s| ==> IsSpace(s[|r[0]|]))
    ensures |SplitOnSpaceRuns(s)| == 1 <==> NoSpaces(s)
    ensures |SplitOnSpaceRuns(s)| == 1 ==> SplitOnSpaceRuns(s)[0] == s
  {
    var i := FirstSpace(s, 0);
    assert SplitOnSpaceRuns(s)[0] == s[..i];
    if i < |s| {
      assert IsSpace(s[i]);
    }
  }

  /**
   * A word, a whitespace run and a text starting with a non-space split into the word followed by
   * the split of that text. With SplitOneWord this fixes the words of every line that neither
   * starts nor ends with whitespace: they are its maximal non-space runs, in order.
   */
  lemma SplitFirstWord(w: string, gap: string, rest: string)
    requires w != "" && NoSpaces(w)
    requires gap != "" && AllSpaces(gap)
    requires rest != "" && !IsSpace(rest[0])
    ensures SplitOnSpaceRuns(w + gap + rest) == [w] + SplitOnSpaceRuns(rest)
  {
    var s := w + gap + rest;
    var i := FirstSpace(s, 0);
    assert s[|w|] == gap[0];
    assert i == |w|;
    var j := SkipSpaces(s, i);
    assert s[|w| + |gap|] == rest[0];
    assert j == |w| + |gap|;
    assert s[..i] == w;
    assert s[j..] == rest;
  }

  /** Two words separated by any non-empty run of whitespace split into exactly those two words. */
  lemma SplitTwoWords(w1: string, gap: string, w2: string)
    requires w1 != "" && w2 != "" && NoSpaces(w1) && NoSpaces(w2)
    requires gap != "" && AllSpaces(gap)
    ensures SplitOnSpaceRuns(w1 + gap + w2) == [w1, w2]
  {
    SplitFirstWord(w1, gap, w2);
    SplitOneWord(w2);
  }

  /** Index of the first occurrence of sep at or after i (|s| when there is none). */
  function IndexOf(s: string, sep: char, i: nat): (j: nat)
    requires i <= |s|
    ensures i <= j <= |s|
    ensures forall k :: i <= k < j ==> s[k] != sep
    ensures j < |s| ==> s[j] == sep
    decreases |s| - i
  {
    if i == |s| || s[i] == sep then i else IndexOf(s, sep, i + 1)
  }

  /** `s.split(sep)` for a one-character separator: |r| - 1 is the number of separators in s. */
  function SplitOn(s: string, sep: char): (r: seq<string>)
    ensures |r| >= 1
    ensures forall k :: 0 <= k < |r| ==> sep !in r[k]
    decreases |s|
  {
    var i := IndexOf(s, sep, 0);
    if i == |s| then [s] else [s[..i]] + SplitOn(s[i + 1..], sep)
  }

  /** The inverse of SplitOn: the pieces joined with the separator between them. */
  function Join(parts: seq<string>, sep: string): string {
    if |parts| == 0 then ""
    else if |parts| == 1 then parts[0]
    else parts[0] + sep + Join(parts[1..], sep)
  }

  /** Proof helper: three pieces joined with a comma between them. */
  lemma JoinOfThree(a: string, b: string, c: string)
    ensures Join([a, b, c], [',']) == a + "," + b + "," + c
  {
    var parts := [a, b, c];
    assert parts[1..] == [b, c] && parts[1..][1..] == [c];
    assert Join([c], [',']) == c;
    assert Join([b, c], [',']) == b + [','] + c;
    assert Join(parts, [',']) == a + [','] + (b + [','] + c);
  }

  /** Three comma-free fields joined by commas split back into those fields. */
  lemma SplitThreeFields(a: string, b: string, c: string)
    requires ',' !in a && ',' !in b && ',' !in c
    ensures SplitOn(a + "," + b + "," + c, ',') == [a, b, c]
  {
    JoinOfThree(a, b, c);
    SplitOnJoin([a, b, c], ',');
  }

  lemma SplitOnWithout(s: string, sep: char)
    requires sep !in s
    ensures SplitOn(s, sep) == [s]
  {
    assert IndexOf(s, sep, 0) == |s|;
  }

  lemma {:induction false} SplitOnJoin(parts: seq<string>, sep: char)
    requires |parts| >= 1
    requires forall k :: 0 <= k < |parts| ==> sep !in parts[k]
    ensures SplitOn(Join(parts, [sep]), sep) == parts
    decreases |parts|
  {
    if |parts| == 1 {
      SplitOnWithout(parts[0], sep);
    } else {
      var s := Join(parts, [sep]);
      var p := parts[0];
      var rest := Join(parts[1..], [sep]);
      assert s == p + [sep] + rest;
      FirstSeparator(p, sep, rest);
      assert s[..|p|] == p;
      assert s[|p| + 1..] == rest;
      SplitOnJoin(parts[1..], sep);
    }
  }

  /** The first separator of p + [sep] + tail, when p holds none, is the one after p. */
  lemma FirstSeparator(p: string, sep: char, tail: string)
    requires sep !in p
    ensures IndexOf(p + [sep] + tail, sep, 0) == |p|
  {
    var s := p + [sep] + tail;
    var j := IndexOf(s, sep, 0);
    assert s[|p|] == sep;
  }

  /** Joining the pieces of a split with the separator gives back the original string. */
  lemma {:induction false} JoinSplitOn(s: string, sep: char)
    ensures Join(SplitOn(s, sep), [sep]) == s
    decreases |s|
  {
    var i := IndexOf(s, sep, 0);
    if i < |s| {
      var rest := s[i + 1..];
      JoinSplitOn(rest, sep);
      var parts := SplitOn(s, sep);
      assert parts[1..] == SplitOn(rest, sep);
      assert s == s[..i] + [sep] + rest;
    }
  }

  /** The first separator of s + [c]: the first of s, else c itself when it is one. */
  lemma IndexOfAppend(s: string, c: char, sep: char)
    ensures var i := IndexOf(s, sep, 0);
            IndexOf(s + [c], sep, 0) == if i < |s| then i else if c == sep then |s| else |s| + 1
  {
    var t := s + [c];
    var i := IndexOf(s, sep, 0);
    var j := IndexOf(t, sep, 0);
    assert forall k :: 0 <= k < |s| ==> t[k] == s[k];
    assert t[|s|] == c;
    assert j < |s| ==> t[j] == s[j];
    assert i < |s| ==> t[i] == s[i];
  }

  /** Appending a character extends the last piece, or starts a new empty one when it is the separator. */
  lemma SplitOnAppend(s: string, c: char, sep: char)
    ensures c == sep ==> SplitOn(s + [c], sep) == SplitOn(s, sep) + [""]
    ensures c != sep ==>
              var parts := SplitOn(s, sep);
              SplitOn(s + [c], sep) == parts[..|parts| - 1] + [parts[|parts| - 1] + [c]]
  {
    if c == sep {
      SplitOnAppendSeparator(s, sep);
    } else {
      SplitOnAppendOther(s, c, sep);
    }
  }

  /** Appending the separator starts a new, empty last piece. */
  lemma {:induction false} SplitOnAppendSeparator(s: string, sep: char)
    ensures SplitOn(s + [sep], sep) == SplitOn(s, sep) + [""]
    decreases |s|
  {
    var t := s + [sep];
    var i := IndexOf(s, sep, 0);
    IndexOfAppend(s, sep, sep);
    if i < |s| {
      var rest := s[i + 1..];
      assert t[..i] == s[..i];
      assert t[i + 1..] == rest + [sep];
      SplitOnAppendSeparator(rest, sep);
      assert SplitOn(s, sep) == [s[..i]] + SplitOn(rest, sep);
      assert SplitOn(t, sep) == [s[..i]] + SplitOn(rest + [sep], sep);
    } else {
      assert t[..|s|] == s && t[|s| + 1..] == "";
      assert IndexOf("", sep, 0) == 0;
    }
  }

  /** Appending any other character extends the last piece. */
  lemma {:induction false} SplitOnAppendOther(s: string, c: char, sep: char)
    requires c != sep
    ensures var parts := SplitOn(s, sep);
            SplitOn(s + [c], sep) == parts[..|parts| - 1] + [parts[|parts| - 1] + [c]]
    decreases |s|
  {
    var t := s + [c];
    var i := IndexOf(s, sep, 0);
    IndexOfAppend(s, c, sep);
    if i < |s| {
      var rest := s[i + 1..];
      assert t[..i] == s[..i];
      assert t[i + 1..] == rest + [c];
      SplitOnAppendOther(rest, c, sep);
      var inner := SplitOn(rest, sep);
      assert SplitOn(s, sep) == [s[..i]] + inner;
      assert SplitOn(t, sep) == [s[..i]] + SplitOn(rest + [c], sep);
      assert ([s[..i]] + inner)[..|inner|] == [s[..i]] + inner[..|inner| - 1];
    }
  }

  /** Upper-casing works character by character, so it distributes over concatenation. */
  lemma UpperConcat(a: string, b: string)
    ensures Upper(a + b) == Upper(a) + Upper(b)
  {
  }

  /**
   * Upper-casing maps each lower-case ASCII letter to its capital (32 code points lower), keeps
   * every other character, and so leaves no lower-case ASCII letter.
   */
  lemma UpperCharacters(s: string)
    ensures forall k :: 0 <= k < |s| && 'a' <= s[k] <= 'z' ==> Upper(s)[k] as int == s[k] as int - 32
    ensures forall k :: 0 <= k < |s| && !('a' <= s[k] <= 'z') ==> Upper(s)[k] == s[k]
    ensures forall k :: 0 <= k < |s| ==> !('a' <= Upper(s)[k] <= 'z')
  {
  }

  /**
   * Lower-casing maps each capital ASCII letter to its lower-case letter (32 code points higher),
   * keeps every other character, and so leaves no capital ASCII letter.
   */
  lemma LowerCharacters(s: string)
    ensures forall k :: 0 <= k < |s| && 'A' <= s[k] <= 'Z' ==> Lower(s)[k] as int == s[k] as int + 32
    ensures forall k :: 0 <= k < |s| && !('A' <= s[k] <= 'Z') ==> Lower(s)[k] == s[k]
    ensures forall k :: 0 <= k < |s| ==> !('A' <= Lower(s)[k] <= 'Z')
  {
  }

  /** Upper-casing twice is upper-casing once. */
  lemma UpperIdempotent(s: string)
    ensures Upper(Upper(s)) == Upper(s)
  {
  }

  // ---------------------------------------------------------------------------------------------
  // Case mapping (ASCII letters only)

  function UpperChar(c: char): char {
    if 'a' <= c <= 'z' then (c as int - 'a' as int + 'A' as int) as char else c
  }

  function LowerChar(c: char): char {
    if 'A' <= c <= 'Z' then (c as int - 'A' as int + 'a' as int) as char else c
  }

  /**
   * `toUpperCase`, restricted to the ASCII letters: same length, no lower-case letter left, and
   * every other character kept.
   */
  function Upper(s: string): (r: string)
    ensures |r| == |s|
  {
    seq(|s|, i requires 0 <= i < |s| => UpperChar(s[i]))
  }

  /** `toLowerCase`, restricted to the ASCII letters; the characters are given by LowerCharacters. */
  function Lower(s: string): (r: string)
    ensures |r| == |s|
  {
    seq(|s|, i requires 0 <= i < |s| => LowerChar(s[i]))
  }

  predicate IsUpper(s: string) {
    Upper(s) == s
  }

  // ---------------------------------------------------------------------------------------------
  // Decimal digits, rendering and parseInt

  predicate IsDigit(c: char) {
    '0' <= c <= '9'
  }

  predicate AllDigits(s: string) {
    forall i :: 0 <= i < |s| ==> IsDigit(s[i])
  }

  function DigitChar(d: nat): (c: char)
    requires d < 10
    ensures IsDigit(c)
  {
    ('0' as int + d) as char
  }

  /** The number a string of decimal digits denotes (leading zeros allowed). */
  function DigitsValue(s: string): nat
    requires AllDigits(s)
  {
    if s == "" then 0 else DigitsValue(s[..|s| - 1]) * 10 + (s[|s| - 1] as int - '0' as int)
  }

  /** The decimal rendering of a natural number, as `${n}` prints it. */
  function NatToString(n: nat): (r: string)
    ensures r != "" && AllDigits(r)
    ensures DigitsValue(r) == n
    ensures r[0] == '0' ==> r == "0"
  {
    if n < 10 then [DigitChar(n)]
    else
      var prefix := NatToString(n / 10);
      var r := prefix + [DigitChar(n % 10)];
      assert r[..|r| - 1] == prefix;
      r
  }

  /** The decimal rendering of an integer, with a leading '-' when it is negative. */
  function IntToString(i: int): (r: string)
    ensures r != "" && !IsSpace(r[0])
    ensures i >= 0 ==> AllDigits(r)
    ensures i < 0 ==> r[0] == '-' && |r| > 1 && AllDigits(r[1..])
  {
    if i < 0 then "-" + NatToString(-i) else NatToString(i)
  }

  /** The longest prefix of s made of decimal digits. */
  function DigitPrefix(s: string): (r: string)
    ensures |r| <= |s| && r == s[..|r|] && AllDigits(r)
    ensures |r| < |s| ==> !IsDigit(s[|r|])
  {
    if s != "" && IsDigit(s[0]) then [s[0]] + DigitPrefix(s[1..]) else ""
  }

  /**
   * `parseInt(s, 10)`: leading whitespace is skipped, one '+' or '-' is accepted, and the longest
   * run of digits that follows is read; None stands for NaN (no digit at all). Later characters
   * are ignored, so "5x" reads as 5.
   */
  function ParseInt(s: string): (r: Option<int>)
    ensures AllDigits(s) && s != "" ==> r == Some(DigitsValue(s))
    ensures |s| > 1 && s[0] == '-' && AllDigits(s[1..]) ==> r == Some(0 - DigitsValue(s[1..]))
  {
    var t := TrimStart(s);
    assert |t| < |s| ==> IsSpace(s[0]) by {
      if |t| < |s| {
        assert s[..|s| - |t|][0] == s[0];
      }
    }
    var signed := t != "" && (t[0] == '-' || t[0] == '+');
    var unsigned := if signed then t[1..] else t;
    var digits := DigitPrefix(unsigned);
    assert AllDigits(unsigned) ==> digits == unsigned;
    if digits == "" then None
    else if signed && t[0] == '-' then Some(0 - DigitsValue(digits))
    else Some(DigitsValue(digits))
  }

  /** `parseInt` reads back every integer from its own decimal rendering. */
  lemma ParseIntRendering(i: int)
    ensures ParseInt(IntToString(i)) == Some(i)
  {
  }

  /** The regular expression `^-?\d+$`: an optional minus sign followed by at least one digit. */
  predicate IsIntegerLiteral(s: string) {
    if s != "" && s[0] == '-' then |s| > 1 && AllDigits(s[1..]) else s != "" && AllDigits(s)
  }

  /** An integer literal always reads as a number (never NaN), and renderings are literals. */
  lemma IntegerLiteralParses(s: string)
    requires IsIntegerLiteral(s)
    ensures ParseInt(s).Some?
  {
  }

  /** A rendering has no whitespace and no comma, and matches `^-?\d+$`. */
  lemma IntToStringPlain(i: int)
    ensures NoSpaces(IntToString(i)) && ',' !in IntToString(i) && IsIntegerLiteral(IntToString(i))
  {
    var r := IntToString(i);
    assert forall k :: 0 < k < |r| ==> IsDigit(r[k]) by {
      if i < 0 {
        assert forall k :: 0 < k < |r| ==> r[k] == r[1..][k - 1];
      }
    }
  }
}
