/** Escaping a string for a Python double-quoted literal by four replaces over the
    whole string, and decoding such a literal again. */
module PythonEscape {
  import opened Wrappers

  /** `str::replace` of one character by a text. */
  function Replace(s: string, c: char, subst: string): string {
    if s == "" then "" else (if s[0] == c then subst else [s[0]]) + Replace(s[1..], c, subst)
  }

  function EscapePythonString(s: string): string {
    Replace(Replace(Replace(Replace(s, '\\', "\\\\"), '"', "\\\""), '\n', "\\n"), '\r', "\\r")
  }

  /** The escape of one character. */
  function EscapeChar(c: char): string {
    if c == '\\' then "\\\\"
    else if c == '"' then "\\\""
    else if c == '\n' then "\\n"
    else if c == '\r' then "\\r"
    else [c]
  }

  function EscapeEach(s: string): string {
    if s == "" then "" else EscapeChar(s[0]) + EscapeEach(s[1..])
  }

  lemma {:induction false} ReplaceConcat(s: string, t: string, c: char, subst: string)
    ensures Replace(s + t, c, subst) == Replace(s, c, subst) + Replace(t, c, subst)
  {
    if s == "" {
      assert s + t == t;
    } else {
      assert (s + t)[0] == s[0] && (s + t)[1..] == s[1..] + t;
      ReplaceConcat(s[1..], t, c, subst);
    }
  }

  lemma ReplaceOne(x: char, c: char, subst: string)
    ensures Replace([x], c, subst) == if x == c then subst else [x]
  {
    assert [x][1..] == "";
  }

  /** A replace that finds nothing in a two-character text. */
  lemma ReplaceTwo(x: char, y: char, c: char, subst: string)
    requires x != c && y != c
    ensures Replace([x, y], c, subst) == [x, y]
  {
    assert [x, y] == [x] + [y];
    ReplaceConcat([x], [y], c, subst);
    ReplaceOne(x, c, subst);
    ReplaceOne(y, c, subst);
  }

  /** Later replaces leave the output of earlier ones alone. */
  lemma EscapeOne(c: char)
    ensures EscapePythonString([c]) == EscapeChar(c)
  {
    ReplaceOne(c, '\\', "\\\\");
    ReplaceOne(c, '"', "\\\"");
    ReplaceOne(c, '\n', "\\n");
    ReplaceOne(c, '\r', "\\r");
    ReplaceTwo('\\', '\\', '"', "\\\"");
    ReplaceTwo('\\', '\\', '\n', "\\n");
    ReplaceTwo('\\', '\\', '\r', "\\r");
    ReplaceTwo('\\', '"', '\n', "\\n");
    ReplaceTwo('\\', '"', '\r', "\\r");
    ReplaceTwo('\\', 'n', '\r', "\\r");
  }

  lemma EscapeConcat(s: string, t: string)
    ensures EscapePythonString(s + t) == EscapePythonString(s) + EscapePythonString(t)
  {
    var s1, t1 := Replace(s, '\\', "\\\\"), Replace(t, '\\', "\\\\");
    var s2, t2 := Replace(s1, '"', "\\\""), Replace(t1, '"', "\\\"");
    var s3, t3 := Replace(s2, '\n', "\\n"), Replace(t2, '\n', "\\n");
    ReplaceConcat(s, t, '\\', "\\\\");
    ReplaceConcat(s1, t1, '"', "\\\"");
    ReplaceConcat(s2, t2, '\n', "\\n");
    ReplaceConcat(s3, t3, '\r', "\\r");
  }

  /** The four sequential whole-string replaces are one pass over the characters. */
  lemma {:induction false} EscapeIsPerCharacter(s: string)
    ensures EscapePythonString(s) == EscapeEach(s)
  {
    if s != "" {
      assert s == [s[0]] + s[1..];
      EscapeConcat([s[0]], s[1..]);
      EscapeOne(s[0]);
      EscapeIsPerCharacter(s[1..]);
    }
  }

  // ---- Python's side ----

  /** The body of a double-quoted, single-line Python literal (section 2.4.1 of the
      Python Language Reference), for the escapes that stand for one character.
      A raw quote or line end would end the literal, so there is no value then. */
  function Decode(body: string): Option<string> {
    if body == "" then Some("")
    else if body[0] == '"' || body[0] == '\n' || body[0] == '\r' then None
    else if body[0] != '\\' then Prepend(body[0], Decode(body[1..]))
    else if |body| == 1 then None
    else if body[1] == '\\' || body[1] == '"' || body[1] == '\'' then Prepend(body[1], Decode(body[2..]))
    else if body[1] == 'n' then Prepend('\n', Decode(body[2..]))
    else if body[1] == 'r' then Prepend('\r', Decode(body[2..]))
    else if body[1] == 't' then Prepend('\t', Decode(body[2..]))
    else None
  }

  function Prepend(c: char, rest: Option<string>): Option<string> {
    if rest.Some? then Some([c] + rest.value) else None
  }

  lemma {:induction false} DecodeEach(s: string)
    ensures Decode(EscapeEach(s)) == Some(s)
  {
    if s != "" {
      var e, rest := EscapeChar(s[0]), EscapeEach(s[1..]);
      DecodeEach(s[1..]);
      assert (e + rest)[|e|..] == rest;
      assert s == [s[0]] + s[1..];
    }
  }

  /** Round trip: Python reads back exactly the string that was escaped. */
  lemma EscapeRoundTrip(s: string)
    ensures Decode(EscapePythonString(s)) == Some(s)
  {
    EscapeIsPerCharacter(s);
    DecodeEach(s);
  }

  /** The literal around the escaped text ends at its own closing quote, not before:
      the text holds no raw line end, and every quote is behind an odd run of backslashes. */
  lemma EscapedIsOneLiteral(s: string)
    ensures '\n' !in EscapePythonString(s) && '\r' !in EscapePythonString(s)
    ensures FirstQuote(EscapePythonString(s) + "\"") == Some(|EscapePythonString(s)|)
  {
    EscapeIsPerCharacter(s);
    EachIsSafe(s, "\"");
  }

  /** Where the tokenizer finds the end of the literal: the first quote that is not escaped. */
  function FirstQuote(text: string): Option<nat> {
    if text == "" then None
    else if text[0] == '"' then Some(0)
    else if text[0] == '\\' then
      if |text| == 1 then None else Shift(2, FirstQuote(text[2..]))
    else Shift(1, FirstQuote(text[1..]))
  }

  function Shift(n: nat, at: Option<nat>): Option<nat> {
    if at.Some? then Some(at.value + n) else None
  }

  /** The tokenizer passes over the escape of one character as a whole. */
  lemma SkipsEscape(c: char, after: string)
    ensures '\n' !in EscapeChar(c) && '\r' !in EscapeChar(c)
    ensures FirstQuote(EscapeChar(c) + after) == Shift(|EscapeChar(c)|, FirstQuote(after))
  {
    var e := EscapeChar(c);
    assert (e + after)[|e|..] == after;
  }

  lemma {:induction false} EachIsSafe(s: string, after: string)
    ensures '\n' !in EscapeEach(s) && '\r' !in EscapeEach(s)
    ensures FirstQuote(EscapeEach(s) + after) == Shift(|EscapeEach(s)|, FirstQuote(after))
  {
    if s == "" {
      assert EscapeEach(s) + after == after;
    } else {
      var e, rest := EscapeChar(s[0]), EscapeEach(s[1..]);
      EachIsSafe(s[1..], after);
      SkipsEscape(s[0], rest + after);
      assert EscapeEach(s) + after == e + (rest + after);
    }
  }
}
