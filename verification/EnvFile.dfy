/** The value printer and parser of the secrets file. */
module EnvFile {
  import opened Common

  predicate PlainChar(c: char) {
    'A' <= c <= 'Z' || 'a' <= c <= 'z' || '0' <= c <= '9' || c in "_./:@+,%=-"
  }

  function EncodeValue(value: string): string {
    if value == "" then "\"\""
    else if forall c | c in value :: PlainChar(c) then value
    else "\"" + ReplaceChar(ReplaceChar(ReplaceChar(value, '\\', "\\\\"), '"', "\\\""), '\n', "\\n") + "\""
  }

  function DecodeValue(raw: string): string {
    var value := Strip(raw);
    if |value| >= 2 && value[0] == value[|value| - 1] && value[0] in {'\'', '"'} then
      var inner := value[1..|value| - 1];
      if value[0] == '"' then Unescape(inner) else inner
    else value
  }

  function Unescape(inner: string): string {
    var s1 := ReplacePair(inner, '\\', 'n', '\n');
    var s2 := ReplacePair(s1, '\\', 'r', '\r');
    var s3 := ReplacePair(s2, '\\', 't', '\t');
    var s4 := ReplacePair(s3, '\\', '"', '"');
    ReplacePair(s4, '\\', '\\', '\\')
  }

  /** A backslash directly followed by n, r or t: text that looks like an escape. */
  ghost predicate HasEscapeLookalike(v: string) {
    exists i {:trigger v[i]} :: 0 <= i < |v| - 1 && v[i] == '\\' && v[i + 1] in {'n', 'r', 't'}
  }

  // ----- what the parser's passes undo -----

  /** What is left to escape after the parser's passes: first everything, then all but newlines, then all
      but newlines and carriage returns, then only backslashes. */
  function Escaped(v: string, quotes: bool, newlines: bool, returns': bool): string {
    if v == "" then "" else EscapedChar(v[0], quotes, newlines, returns') + Escaped(v[1..], quotes, newlines, returns')
  }

  function EscapedChar(c: char, quotes: bool, newlines: bool, returns': bool): string {
    if c == '\\' then "\\\\"
    else if c == '"' && quotes then "\\\""
    else if c == '\n' && newlines then "\\n"
    else if c == '\r' && returns' then "\\r"
    else [c]
  }

  lemma {:induction false} PrinterIsPerCharacter(v: string)
    ensures ReplaceChar(ReplaceChar(ReplaceChar(v, '\\', "\\\\"), '"', "\\\""), '\n', "\\n")
            == Escaped(v, true, true, false)
  {
    if v != "" {
      PrinterIsPerCharacter(v[1..]);
      var head := if v[0] == '\\' then "\\\\" else [v[0]];
      var rest := ReplaceChar(v[1..], '\\', "\\\\");
      assert ReplaceChar(v, '\\', "\\\\") == head + rest;
      ReplaceCharConcat(head, rest, '"', "\\\"");
      var head2 := ReplaceChar(head, '"', "\\\"");
      ReplaceCharConcat(head2, ReplaceChar(rest, '"', "\\\""), '\n', "\\n");
      SmallReplacements(v[0]);
    }
  }

  lemma SmallReplacements(c: char)
    ensures ReplaceChar(ReplaceChar(if c == '\\' then "\\\\" else [c], '"', "\\\""), '\n', "\\n")
         == (if c == '\\' then "\\\\" else if c == '"' then "\\\"" else if c == '\n' then "\\n" else [c])
  {
    if c == '\\' {
      assert "\\\\" == "\\" + "\\";
      ReplaceCharConcat("\\", "\\", '"', "\\\"");
      ReplaceCharConcat("\\", "\\", '\n', "\\n");
    } else if c == '"' {
      assert ReplaceChar([c], '"', "\\\"") == "\\" + "\"";
      ReplaceCharConcat("\\", "\"", '\n', "\\n");
    }
  }

  /** One parser pass over backslash-x undoes exactly the escaping of newlines (x = n) or of carriage
      returns (x = r), or leaves the text alone, as long as the value holds no backslash-x itself. */
  lemma {:induction false} LetterPass(v: string, x: char, sub: char, newlines: bool, returns': bool)
    requires || (x == 'n' && sub == '\n' && newlines) || (x == 'r' && sub == '\r' && !newlines)
             || (x == 't' && !newlines && !returns')
    requires NoPair(v, '\\', x)
    ensures ReplacePair(Escaped(v, true, newlines, returns'), '\\', x, sub)
            == Escaped(v, true, false, returns' && x == 'n')
  {
    if v != "" {
      var w := v[1..];
      assert NoPair(w, '\\', x) by { forall i | 0 <= i < |w| - 1 ensures w[i] == v[i + 1] {} }
      LetterPass(w, x, sub, newlines, returns');
      var e := Escaped(w, true, newlines, returns');
      if v[0] == '\\' {
        EscapedHead(w, newlines, returns');
        ReplacePairSkipsTwo('\\', '\\', e, '\\', x, sub);
      } else if v[0] == '"' {
        ReplacePairSkipsTwo('\\', '"', e, '\\', x, sub);
      } else if v[0] == '\n' && newlines {
        ReplacePairMatches(e, '\\', 'n', sub);
      } else if v[0] == '\r' && returns' {
        if x == 'r' {
          ReplacePairMatches(e, '\\', 'r', sub);
        } else {
          ReplacePairSkipsTwo('\\', 'r', e, '\\', x, sub);
        }
      } else {
        ReplacePairSkips(v[0], e, '\\', x, sub);
      }
    }
  }

  /** Escaped text begins with a backslash or with the value's own first character. */
  lemma EscapedHead(w: string, newlines: bool, returns': bool)
    ensures Escaped(w, true, newlines, returns') != "" ==>
              w != "" && Escaped(w, true, newlines, returns')[0] in {'\\', w[0]}
  {
  }

  lemma {:induction false} QuotePass(v: string)
    ensures ReplacePair(Escaped(v, true, false, false), '\\', '"', '"') == Escaped(v, false, false, false)
  {
    if v != "" {
      QuotePass(v[1..]);
      var e := Escaped(v[1..], true, false, false);
      if v[0] == '\\' {
        ReplacePairSkipsTwo('\\', '\\', e, '\\', '"', '"');
      } else if v[0] == '"' {
        ReplacePairMatches(e, '\\', '"', '"');
      } else {
        ReplacePairSkips(v[0], e, '\\', '"', '"');
      }
    }
  }

  lemma {:induction false} BackslashPass(v: string)
    ensures ReplacePair(Escaped(v, false, false, false), '\\', '\\', '\\') == v
  {
    if v != "" {
      BackslashPass(v[1..]);
      var e := Escaped(v[1..], false, false, false);
      if v[0] == '\\' {
        ReplacePairMatches(e, '\\', '\\', '\\');
      } else {
        ReplacePairSkips(v[0], e, '\\', '\\', '\\');
      }
      assert v == [v[0]] + v[1..];
    }
  }

  /** The five passes undo the escaping of a value without lookalikes. */
  lemma PassesUndo(v: string, returns': bool)
    requires !HasEscapeLookalike(v)
    ensures Unescape(Escaped(v, true, true, returns')) == v
  {
    assert forall i {:trigger v[i]} :: 0 <= i < |v| - 1 && v[i] == '\\' ==> v[i + 1] !in {'n', 'r', 't'};
    LetterPass(v, 'n', '\n', true, returns');
    LetterPass(v, 'r', '\r', false, returns');
    LetterPass(v, 't', '\t', false, false);
    QuotePass(v);
    BackslashPass(v);
  }

  /** Whatever stands between double quotes, unescaped it holds no lookalike. */
  lemma UnescapeLeavesNoLookalike(inner: string)
    ensures !HasEscapeLookalike(Unescape(inner))
  {
    var s1 := ReplacePair(inner, '\\', 'n', '\n');
    var s2 := ReplacePair(s1, '\\', 'r', '\r');
    var s3 := ReplacePair(s2, '\\', 't', '\t');
    var s4 := ReplacePair(s3, '\\', '"', '"');
    ReplacePairRemoves(inner, '\\', 'n', '\n');
    ReplacePairPreserves(s1, '\\', 'r', '\r', 'n');
    ReplacePairRemoves(s1, '\\', 'r', '\r');
    ReplacePairRemoves(s2, '\\', 't', '\t');
    forall x | x in {'n', 'r'} ensures NoPair(s3, '\\', x) {
      ReplacePairPreserves(s2, '\\', 't', '\t', x);
    }
    forall x | x in {'n', 'r', 't'} ensures NoPair(Unescape(inner), '\\', x) {
      ReplacePairPreserves(s3, '\\', '"', '"', x);
      ReplacePairPreserves(s4, '\\', '\\', '\\', x);
    }
    assert NoPair(Unescape(inner), '\\', 'n') && NoPair(Unescape(inner), '\\', 'r')
        && NoPair(Unescape(inner), '\\', 't');
  }

  /** Parsing a printed value returns it exactly when it holds no backslash directly followed by
      n, r or t: every other run of backslashes, quotes and newlines survives. */
  lemma DecodeEncode(v: string)
    ensures DecodeValue(EncodeValue(v)) == v <==> !HasEscapeLookalike(v)
  {
    if v == "" {
      StripKeeps("\"\"");
      assert Unescape("") == "";
    } else if forall c | c in v :: PlainChar(c) {
      assert forall c | PlainChar(c) :: !IsSpace(c) && c !in {'\'', '"', '\\'};
      StripKeeps(v);
      assert v[0] in v;
      assert forall i | 0 <= i < |v| :: v[i] in v;
    } else {
      PrinterIsPerCharacter(v);
      var e := Escaped(v, true, true, false);
      QuotedIsRead('"', e);
      UnescapeLeavesNoLookalike(e);
      if !HasEscapeLookalike(v) {
        PassesUndo(v, false);
      }
    }
  }

  /** Quoted text is read for what stands between the quotes. */
  lemma QuotedIsRead(quote: char, inner: string)
    requires quote in {'\'', '"'}
    ensures DecodeValue([quote] + inner + [quote]) == if quote == '"' then Unescape(inner) else inner
  {
    var quoted := [quote] + inner + [quote];
    StripKeeps(quoted);
    assert quoted[1..|quoted| - 1] == inner;
  }

  // ----- what any line can give -----

  /** The characters at which the text of a file is cut into lines. */
  predicate IsBreak(c: char) {
    || '\n' <= c <= '\r' || '\U{1c}' <= c <= '\U{1e}' || c in {'\U{85}', '\U{2028}', '\U{2029}'}
  }

  predicate OneLine(v: string) { forall i | 0 <= i < |v| :: !IsBreak(v[i]) }

  /** Without line breaks but for the newline, which the printer escapes. */
  predicate NewlineBreaks(v: string) { forall i | 0 <= i < |v| && IsBreak(v[i]) :: v[i] == '\n' }

  /** Without line breaks but for those that an escape can stand for. */
  predicate SoftBreaks(v: string) { forall i | 0 <= i < |v| && IsBreak(v[i]) :: v[i] in {'\n', '\r'} }

  lemma {:induction false} PassKeeps(s: string, x: char, sub: char, ok: char -> bool)
    requires (forall i | 0 <= i < |s| :: ok(s[i])) && ok(sub)
    ensures forall i | 0 <= i < |ReplacePair(s, '\\', x, sub)| :: ok(ReplacePair(s, '\\', x, sub)[i])
  {
    if |s| >= 2 {
      if s[0] == '\\' && s[1] == x {
        PassKeeps(s[2..], x, sub, ok);
      } else {
        PassKeeps(s[1..], x, sub, ok);
      }
    }
  }

  lemma UnescapeGivesSoftBreaks(inner: string)
    requires SoftBreaks(inner)
    ensures SoftBreaks(Unescape(inner))
  {
    var ok := (c: char) => IsBreak(c) ==> c in {'\n', '\r'};
    var s1 := ReplacePair(inner, '\\', 'n', '\n');
    var s2 := ReplacePair(s1, '\\', 'r', '\r');
    var s3 := ReplacePair(s2, '\\', 't', '\t');
    var s4 := ReplacePair(s3, '\\', '"', '"');
    PassKeeps(inner, 'n', '\n', ok);
    PassKeeps(s1, 'r', '\r', ok);
    PassKeeps(s2, 't', '\t', ok);
    PassKeeps(s3, '"', '"', ok);
    PassKeeps(s4, '\\', '\\', ok);
  }

  lemma {:induction false} EscapedIsOneLine(v: string)
    requires SoftBreaks(v)
    ensures OneLine(Escaped(v, true, true, true))
  {
    if v != "" { EscapedIsOneLine(v[1..]); }
  }

  lemma StripKeepsOneLine(s: string)
    requires OneLine(s)
    ensures OneLine(Strip(s))
  {
    var i, j := StripIsSlice(s);
  }

  ghost predicate Readable(v: string) { OneLine(v) || (SoftBreaks(v) && !HasEscapeLookalike(v)) }

  lemma ReadIsReadable(raw: string)
    requires OneLine(raw)
    ensures Readable(DecodeValue(raw))
  {
    StripKeepsOneLine(raw);
    var value := Strip(raw);
    if |value| >= 2 && value[0] == '"' && value[|value| - 1] == '"' {
      UnescapeLeavesNoLookalike(value[1..|value| - 1]);
      UnescapeGivesSoftBreaks(value[1..|value| - 1]);
    }
  }

  lemma ReadableIsRead(v: string) returns (raw: string)
    requires Readable(v)
    ensures OneLine(raw) && DecodeValue(raw) == v
  {
    if OneLine(v) {
      QuotedIsRead('\'', v);
      raw := ['\''] + v + ['\''];
    } else {
      var e := Escaped(v, true, true, true);
      EscapedIsOneLine(v);
      PassesUndo(v, true);
      QuotedIsRead('"', e);
      raw := ['"'] + e + ['"'];
    }
  }

  /** The values that some text on one line is read as: a printer could reach just these, in single quotes
      what has no line break at all, and in double quotes, carriage returns escaped as well, what has no
      lookalike. */
  lemma ReadableIff(v: string)
    ensures (exists raw :: OneLine(raw) && DecodeValue(raw) == v)
            <==> OneLine(v) || (SoftBreaks(v) && !HasEscapeLookalike(v))
  {
    if raw :| OneLine(raw) && DecodeValue(raw) == v {
      ReadIsReadable(raw);
    }
    if Readable(v) {
      var raw := ReadableIsRead(v);
    }
  }
}
