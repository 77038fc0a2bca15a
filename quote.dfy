/**
 * `quote_` of the VRMath generator: escape a text and wrap it in the quote
 * character CPython's `repr()` would choose. `ReadLiteral` is a reference
 * reading of such a literal (a backslash makes the next character literal;
 * an unescaped delimiter closes it); the round-trip lemma ties the two.
 */
module Quote {
  import opened Wrappers
  import opened Text

  /** The three global replacements, in the order they run: backslash, then newline, then percent. */
  function Escape(s: string): string
  {
    Replace(Replace(Replace(s, '\\', "\\\\"), '\n', "\\\n"), '%', "\\%")
  }

  /** `quote_(s)`. */
  function Quote(s: string): string
  {
    var e := Escape(s);
    if '\'' in e then
      if '"' !in e then "\"" + e + "\"" else "'" + Replace(e, '\'', "\\'") + "'"
    else
      "'" + e + "'"
  }

  /** Whether a text holds both quote kinds, the case where the body escapes apostrophes. */
  predicate HasBothQuotes(s: string)
  {
    '\'' in s && '"' in s
  }

  /** How one input character is written in the body: backslash, newline and percent get a backslash in front, and so does the apostrophe when `apostrophe` is set. */
  function EscapeChar(c: char, apostrophe: bool): string
  {
    if c == '\\' || c == '\n' || c == '%' || (apostrophe && c == '\'') then ['\\', c] else [c]
  }

  function EscapeEach(s: string, apostrophe: bool): string
  {
    if s == [] then [] else EscapeChar(s[0], apostrophe) + EscapeEach(s[1..], apostrophe)
  }

  lemma {:induction false} EscapeAppend(a: string, b: string)
    ensures Escape(a + b) == Escape(a) + Escape(b)
  {
    ReplaceAppend(a, b, '\\', "\\\\");
    var a1, b1 := Replace(a, '\\', "\\\\"), Replace(b, '\\', "\\\\");
    ReplaceAppend(a1, b1, '\n', "\\\n");
    var a2, b2 := Replace(a1, '\n', "\\\n"), Replace(b1, '\n', "\\\n");
    ReplaceAppend(a2, b2, '%', "\\%");
  }

  lemma EscapeOne(c: char)
    ensures Escape([c]) == EscapeChar(c, false)
  {
    ReplaceOne(c, '\\', "\\\\");
    if c == '\\' {
      ReplaceAppend(['\\'], ['\\'], '\n', "\\\n");
      ReplaceOne('\\', '\n', "\\\n");
      ReplaceAppend(['\\'], ['\\'], '%', "\\%");
      ReplaceOne('\\', '%', "\\%");
    } else if c == '\n' {
      ReplaceOne(c, '\n', "\\\n");
      ReplaceAppend(['\\'], ['\n'], '%', "\\%");
      ReplaceOne('\\', '%', "\\%");
      ReplaceOne('\n', '%', "\\%");
    } else {
      ReplaceOne(c, '\n', "\\\n");
      ReplaceOne(c, '%', "\\%");
    }
  }

  /**
   * Because backslashes are doubled first, the three passes together escape
   * each backslash, newline and percent of the input exactly once: the
   * backslashes the later passes add are not doubled again.
   */
  lemma {:induction false} EscapeIsPerCharacter(s: string)
    ensures Escape(s) == EscapeEach(s, false)
  {
    if s != [] {
      assert s == [s[0]] + s[1..];
      EscapeAppend([s[0]], s[1..]);
      EscapeOne(s[0]);
      EscapeIsPerCharacter(s[1..]);
    }
  }

  /** The apostrophe pass of the both-quotes case only adds a backslash before each apostrophe. */
  lemma {:induction false} ApostrophePass(s: string)
    ensures Replace(EscapeEach(s, false), '\'', "\\'") == EscapeEach(s, true)
  {
    if s != [] {
      var c := s[0];
      ReplaceAppend(EscapeChar(c, false), EscapeEach(s[1..], false), '\'', "\\'");
      if c == '\\' || c == '\n' || c == '%' {
        assert EscapeChar(c, false) == ['\\'] + [c];
        ReplaceAppend(['\\'], [c], '\'', "\\'");
      }
      ApostrophePass(s[1..]);
    }
  }

  /** Escaping adds only backslashes, so any other character occurs in the body iff it occurs in the input. */
  lemma {:induction false} EscapeEachMembers(s: string, apostrophe: bool, c: char)
    requires c != '\\'
    ensures c in EscapeEach(s, apostrophe) <==> c in s
  {
    if s != [] {
      EscapeEachMembers(s[1..], apostrophe, c);
      assert s == [s[0]] + s[1..];
      assert c in EscapeChar(s[0], apostrophe) <==> c == s[0];
    }
  }

  /** The body of `Quote(s)`: the input with its characters escaped, apostrophes included exactly when both quote kinds occur. */
  lemma QuoteShape(s: string)
    ensures var r := Quote(s); var q := if '\'' in s && '"' !in s then '"' else '\'';
      r == [q] + EscapeEach(s, HasBothQuotes(s)) + [q]
  {
    EscapeIsPerCharacter(s);
    EscapeEachMembers(s, false, '\'');
    EscapeEachMembers(s, false, '"');
    if HasBothQuotes(s) {
      ApostrophePass(s);
    }
  }

  /**
   * The output starts and ends with the same quote character, which is `"`
   * exactly when the input holds an apostrophe but no double quote, and `'`
   * otherwise.
   */
  lemma QuoteDelimiters(s: string)
    ensures var r := Quote(s);
      && |r| >= 2 && r[0] == r[|r| - 1]
      && (r[0] == '\'' || r[0] == '"')
      && (r[0] == '"' <==> '\'' in s && '"' !in s)
  {
    QuoteShape(s);
  }

  lemma {:induction false} EscapeEachLength(s: string, apostrophe: bool)
    ensures |EscapeEach(s, apostrophe)|
         == |s| + Count(s, '\\') + Count(s, '\n') + Count(s, '%') + (if apostrophe then Count(s, '\'') else 0)
  {
    if s != [] {
      EscapeEachLength(s[1..], apostrophe);
    }
  }

  /** One extra character per backslash, newline and percent, per apostrophe in the both-quotes case, and two delimiters. */
  lemma QuoteLength(s: string)
    ensures |Quote(s)| == |s| + Count(s, '\\') + Count(s, '\n') + Count(s, '%')
                        + (if HasBothQuotes(s) then Count(s, '\'') else 0) + 2
  {
    QuoteShape(s);
    EscapeEachLength(s, HasBothQuotes(s));
  }

  /**
   * Reads a literal body up to its closing delimiter `q`: a backslash makes the
   * next character literal, an unescaped `q` ends the literal. Returns the text
   * it denotes and what follows the closing delimiter.
   */
  function ReadBody(t: string, q: char): Option<(string, string)>
    decreases |t|
  {
    if t == [] then None
    else if t[0] == q then Some(([], t[1..]))
    else if t[0] == '\\' then
      if |t| < 2 then None
      else match ReadBody(t[2..], q)
        case None => None
        case Some(r) => Some(([t[1]] + r.0, r.1))
    else match ReadBody(t[1..], q)
      case None => None
      case Some(r) => Some(([t[0]] + r.0, r.1))
  }

  /** Reads a literal that opens with `'` or `"`. */
  function ReadLiteral(t: string): Option<(string, string)>
  {
    if t == [] || (t[0] != '\'' && t[0] != '"') then None else ReadBody(t[1..], t[0])
  }

  /** An escaped pair stands for its second character. */
  lemma ReadPairStep(c: char, tail: string, q: char, s: string, rest: string)
    requires q != '\\'
    requires ReadBody(tail, q) == Some((s, rest))
    ensures ReadBody(['\\', c] + tail, q) == Some(([c] + s, rest))
  {
    var t := ['\\', c] + tail;
    assert t[2..] == tail;
  }

  /** A character that is neither a backslash nor the delimiter stands for itself. */
  lemma ReadPlainStep(c: char, tail: string, q: char, s: string, rest: string)
    requires c != q && c != '\\'
    requires ReadBody(tail, q) == Some((s, rest))
    ensures ReadBody([c] + tail, q) == Some(([c] + s, rest))
  {
    var t := [c] + tail;
    assert t[1..] == tail;
  }

  lemma {:induction false} ReadEscaped(s: string, apostrophe: bool, q: char, rest: string)
    requires q == '\'' || q == '"'
    requires q !in s || (apostrophe && q == '\'')
    ensures ReadBody(EscapeEach(s, apostrophe) + [q] + rest, q) == Some((s, rest))
  {
    if s == [] {
      assert EscapeEach(s, apostrophe) + [q] + rest == [q] + rest;
    } else {
      var c := s[0];
      var tail := EscapeEach(s[1..], apostrophe) + [q] + rest;
      assert s == [c] + s[1..];
      ReadEscaped(s[1..], apostrophe, q, rest);
      assert EscapeEach(s, apostrophe) + [q] + rest == EscapeChar(c, apostrophe) + tail;
      if |EscapeChar(c, apostrophe)| == 2 {
        ReadPairStep(c, tail, q, s[1..], rest);
      } else {
        ReadPlainStep(c, tail, q, s[1..], rest);
      }
    }
  }

  /**
   * Reading `Quote(s)` back yields `s` and stops exactly at its last
   * character: the chosen delimiter never occurs unescaped in the body.
   */
  lemma QuoteRoundTrip(s: string, rest: string)
    ensures ReadLiteral(Quote(s) + rest) == Some((s, rest))
  {
    QuoteShape(s);
    var q := if '\'' in s && '"' !in s then '"' else '\'';
    var body := EscapeEach(s, HasBothQuotes(s));
    assert Quote(s) + rest == [q] + (body + [q] + rest);
    ReadEscaped(s, HasBothQuotes(s), q, rest);
  }

  /** Escaping is applied once per literal: applying it again escapes the added backslashes too. */
  lemma EscapeNotIdempotent()
    ensures Escape("\\") == "\\\\"
    ensures Escape(Escape("\\")) == "\\\\\\\\"
  {
    EscapeIsPerCharacter("\\");
    EscapeIsPerCharacter("\\\\");
  }
}
