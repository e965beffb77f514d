/** The line of one variable in the secrets file: what the loader makes of it, also when the value holds
    line breaks that the printer does not escape. */
module EnvEntries {
  import opened Common
  import opened EnvFile
  import opened EnvLines
  import opened EnvText

  // ----- the line of a variable -----

  lemma {:induction false} StripTrimmed(s: string)
    ensures Strip(TrimRight(s)) == Strip(s)
  {
    if s != "" && IsSpace(s[|s| - 1]) {
      StripTrimmed(s[..|s| - 1]);
      StripIgnoresSpace(s[..|s| - 1], s[|s| - 1]);
      assert s[..|s| - 1] + [s[|s| - 1]] == s;
    }
  }

  lemma {:induction false} EqualsIs(s: string, k: nat)
    requires k < |s| && s[k] == '=' && forall i | 0 <= i < k :: s[i] != '='
    ensures Equals(s) == k
  {
  }

  lemma NameIsTrimmed(name: string)
    requires EnvName(name)
    ensures Strip(name) == name && !IsSpace(name[0]) && '=' !in name && name[0] != '#'
  {
    assert forall c | NameChar(c) :: !IsSpace(c) && c != '=' && c != '#';
    StripKeeps(name);
  }

  /** Trimming such a line trims its end. */
  lemma TrimmedLine(name: string, raw: string)
    requires EnvName(name)
    ensures Strip(name + "=" + raw) == name + "=" + TrimRight(raw)
  {
    NameIsTrimmed(name);
    var s := name + "=" + raw;
    assert TrimLeft(s) == s;
    TrimRightAfter(name + "=", raw);
  }

  lemma {:induction false} TrimRightAfter(a: string, b: string)
    requires a != "" && !IsSpace(a[|a| - 1])
    ensures TrimRight(a + b) == a + TrimRight(b)
  {
    if b == "" {
      assert a + b == a;
    } else if IsSpace(b[|b| - 1]) {
      assert (a + b)[..|a + b| - 1] == a + b[..|b| - 1];
      TrimRightAfter(a, b[..|b| - 1]);
    }
  }

  lemma NotExported(name: string, rest: string)
    requires EnvName(name)
    ensures Bare(name + "=" + rest) == name + "=" + rest
  {
    var s := name + "=" + rest;
    assert forall c | NameChar(c) :: c != ' ';
    if |name| >= 7 {
      assert s[6] == name[6] && "export "[6] == ' ';
    } else {
      assert s[|name|] == '=' && "export "[|name|] != '=';
    }
  }

  lemma MeaningIs(line: string, name: string, rest: string)
    requires EnvName(name) && Strip(name) == name && name[0] != '#'
    requires line == name + "=" + rest && Bare(line) == line && Equals(line) == |name|
    ensures MeaningOf(line) == Binding(name, DecodeValue(rest))
  {
    assert line[..|name|] == name && line[|name| + 1..] == rest;
  }

  /** A name, an equals sign and whatever follows on the line bind that name. */
  lemma LineBinds(name: string, raw: string)
    requires EnvName(name)
    ensures Strip(name + "=" + raw) != ""
    ensures MeaningOf(Strip(name + "=" + raw)) == Binding(name, DecodeValue(raw))
  {
    var rest := TrimRight(raw);
    var line := name + "=" + rest;
    TrimmedLine(name, raw);
    NameIsTrimmed(name);
    NotExported(name, rest);
    EqualsIs(line, |name|);
    MeaningIs(line, name, rest);
    StripTrimmed(raw);
  }

  // ----- text that was printed -----

  /** Inside of the text every double quote follows a backslash. */
  predicate Guarded(s: string) { forall i | 0 < i < |s| - 1 && s[i] == '"' :: s[i - 1] == '\\' }

  lemma GuardedSlice(s: string, i: nat, j: nat)
    requires Guarded(s) && i <= j <= |s|
    ensures Guarded(s[i..j])
  {
    forall k | 0 < k < j - i - 1 && s[i..j][k] == '"' ensures s[i..j][k - 1] == '\\' {
      assert s[i + k] == '"' && 0 < i + k < |s| - 1;
    }
  }

  /** Text followed by text in which every double quote follows a backslash. */
  predicate Covered(s: string) { forall i | 0 <= i < |s| && s[i] == '"' :: i > 0 && s[i - 1] == '\\' }

  lemma CoveredConcat(a: string, b: string)
    requires Covered(a) && Covered(b)
    ensures Covered(a + b)
  {
    forall i | 0 <= i < |a + b| && (a + b)[i] == '"' ensures i > 0 && (a + b)[i - 1] == '\\' {
      if i >= |a| {
        assert b[i - |a|] == '"';
      } else {
        assert a[i] == '"';
      }
    }
  }

  lemma {:induction false} EscapedIsCovered(v: string)
    ensures Covered(Escaped(v, true, true, false))
  {
    if v != "" {
      EscapedIsCovered(v[1..]);
      CoveredConcat(EscapedChar(v[0], true, true, false), Escaped(v[1..], true, true, false));
    }
  }

  lemma NoPairConcat(a: string, b: string)
    requires NoPair(a, '\\', 'r') && NoPair(b, '\\', 'r')
    requires a != "" && b != "" && a[|a| - 1] == '\\' ==> b[0] != 'r'
    ensures NoPair(a + b, '\\', 'r')
  {
    forall i | 0 <= i < |a + b| - 1 && (a + b)[i] == '\\' ensures (a + b)[i + 1] != 'r' {
      if i >= |a| {
        assert b[i - |a|] == '\\';
      } else if i < |a| - 1 {
        assert a[i] == '\\';
      } else {
        assert (a + b)[i + 1] == b[0];
      }
    }
  }

  lemma {:induction false} EscapedHasNoReturn(v: string)
    requires NoPair(v, '\\', 'r')
    ensures NoPair(Escaped(v, true, true, false), '\\', 'r')
  {
    if v != "" {
      var w := v[1..];
      assert NoPair(w, '\\', 'r') by { forall i | 0 <= i < |w| - 1 ensures w[i] == v[i + 1] {} }
      EscapedHasNoReturn(w);
      EscapedHead(w, true, false);
      assert v[0] == '\\' && w != "" ==> w[0] == v[1] != 'r';
      NoPairConcat(EscapedChar(v[0], true, true, false), Escaped(w, true, true, false));
    }
  }

  lemma OneLineConcat(a: string, b: string)
    ensures OneLine(a + b) <==> OneLine(a) && OneLine(b)
  {
    assert forall i | 0 <= i < |a| :: a[i] == (a + b)[i];
    assert forall i | 0 <= i < |b| :: b[i] == (a + b)[|a| + i];
  }

  lemma NewlinesConcat(a: string, b: string)
    ensures NewlineBreaks(a + b) <==> NewlineBreaks(a) && NewlineBreaks(b)
  {
    assert forall i | 0 <= i < |a| :: a[i] == (a + b)[i];
    assert forall i | 0 <= i < |b| :: b[i] == (a + b)[|a| + i];
  }

  lemma EscapedCharKeepsBreak(c: char)
    ensures OneLine(EscapedChar(c, true, true, false)) <==> NewlineBreaks([c])
  {
    assert [c][0] == c;
    var e := EscapedChar(c, true, true, false);
    if |e| == 1 { assert e[0] == c; }
  }

  /** The printer keeps every line break but the newline. */
  lemma {:induction false} EscapedKeepsBreaks(v: string)
    ensures OneLine(Escaped(v, true, true, false)) <==> NewlineBreaks(v)
  {
    if v != "" {
      EscapedKeepsBreaks(v[1..]);
      OneLineConcat(EscapedChar(v[0], true, true, false), Escaped(v[1..], true, true, false));
      EscapedCharKeepsBreak(v[0]);
      assert [v[0]] + v[1..] == v;
      NewlinesConcat([v[0]], v[1..]);
    }
  }

  // ----- what the lines of one variable give -----

  lemma AfterEquals(line: string, at: nat)
    requires OneLine(line) && Guarded(line) && 0 < at <= |line| && line[at - 1] == '='
    ensures OneLine(DecodeValue(line[at..]))
  {
    var raw := line[at..];
    var i, j := StripIsSlice(raw);
    var value := Strip(raw);
    assert value == line[at + i..at + j];
    assert OneLine(value);
    assert line[at + i - 1] == if i > 0 then raw[i - 1] else '=';
    assert |value| >= 2 ==> value[0] == line[at + i] && 0 < at + i < |line| - 1;
  }

  /** A value on a line whose quotes are guarded is not unescaped, so it is on one line itself. */
  lemma GuardedLineGives(line: string)
    requires OneLine(line) && Guarded(line) && MeaningOf(line).Binding?
    ensures OneLine(MeaningOf(line).value)
  {
    BareIsTail(line);
    var bare := Bare(line);
    var at := |line| - |bare| + Equals(bare) + 1;
    assert line[at..] == bare[Equals(bare) + 1..];
    AfterEquals(line, at);
  }

  lemma BareIsTail(line: string)
    ensures |Bare(line)| <= |line| && Bare(line) == line[|line| - |Bare(line)|..]
  {
    if "export " <= line {
      var i := TrimLeftIsSlice(line[7..]);
    }
  }

  /** Between quotes, what escapes no carriage return gives none. */
  lemma NoReturnGiven(inner: string)
    requires OneLine(inner) && NoPair(inner, '\\', 'r')
    ensures NewlineBreaks(Unescape(inner))
  {
    var ok := (c: char) => IsBreak(c) ==> c == '\n';
    var s1 := ReplacePair(inner, '\\', 'n', '\n');
    ReplacePairPreserves(inner, '\\', 'n', '\n', 'r');
    PassKeeps(inner, 'n', '\n', ok);
    NothingToReplace(s1, 'r', '\r');
    var s3 := ReplacePair(s1, '\\', 't', '\t');
    var s4 := ReplacePair(s3, '\\', '"', '"');
    PassKeeps(s1, 't', '\t', ok);
    PassKeeps(s3, '"', '"', ok);
    PassKeeps(s4, '\\', '\\', ok);
  }

  lemma {:induction false} NothingToReplace(s: string, x: char, sub: char)
    requires NoPair(s, '\\', x)
    ensures ReplacePair(s, '\\', x, sub) == s
  {
    if |s| >= 2 {
      var rest := s[1..];
      assert NoPair(rest, '\\', x) by { forall i | 0 <= i < |rest| - 1 ensures rest[i] == s[i + 1] {} }
      NothingToReplace(rest, x, sub);
      assert s[0] == '\\' ==> s[1] != x;
      assert s == [s[0]] + rest;
    }
  }

  lemma InnerGives(v: string, n: nat)
    requires var e := Escaped(v, true, true, false); n <= |e| && OneLine(e[..n])
    ensures var x := Unescape(Escaped(v, true, true, false)[..n]); NewlineBreaks(x) || x != v
  {
    var inner := Escaped(v, true, true, false)[..n];
    UnescapeLeavesNoLookalike(inner);
    if !HasEscapeLookalike(v) {
      assert NoPair(v, '\\', 'r');
      EscapedHasNoReturn(v);
      assert NoPair(inner, '\\', 'r');
      NoReturnGiven(inner);
    }
  }

  lemma InnerOf(q: string, e: string, j: nat)
    requires q <= e && 2 <= j <= |q| + 1
    ensures (['"'] + q)[..j][1..j - 1] == e[..j - 2] == q[..j - 2]
  {
    var raw := ['"'] + q;
    assert raw[..j][1..j - 1] == raw[1..j - 1] == q[..j - 2];
    assert q == e[..|q|];
  }

  /** The beginning of a printed value, up to a line break in it, is never read as the value. */
  lemma BeginningGives(v: string, q: string)
    requires OneLine(q) && q <= Escaped(v, true, true, false)
    ensures var x := DecodeValue(['"'] + q); NewlineBreaks(x) || x != v
  {
    var raw, e := ['"'] + q, Escaped(v, true, true, false);
    var i, j := StripIsSlice(raw);
    var value := Strip(raw);
    assert i == 0 by { assert raw[0] == '"'; }
    OneLineConcat(['"'], q);
    StripKeepsOneLine(raw);
    if |value| >= 2 && value[|value| - 1] == '"' {
      InnerOf(q, e, j);
      InnerGives(v, j - 2);
    }
  }

  // ----- what the line of a variable gives -----

  /** What a line of the file means to the loader, or several things when there are breaks in it. */
  function MeaningsOf(line: string): seq<Meaning> { Meanings(LinesIn(line)) }

  lemma OneLineGives(line: string)
    requires OneLine(line)
    ensures MeaningsOf(line) == if Strip(line) == "" then [] else [MeaningOf(Strip(line))]
  {
    OneLineIn(line);
  }

  lemma PrintedIsOneLine(v: string)
    requires NewlineBreaks(v)
    ensures OneLine(EncodeValue(v))
  {
    if v != "" && exists c | c in v :: !PlainChar(c) {
      PrinterIsPerCharacter(v);
      EscapedKeepsBreaks(v);
      OneLineConcat(['"'] + Escaped(v, true, true, false), ['"']);
      OneLineConcat(['"'], Escaped(v, true, true, false));
    } else if v != "" {
      assert forall i | 0 <= i < |v| :: v[i] in v;
    }
  }

  /** Without a line break but the newline the line of a variable binds it to what the parser reads. */
  lemma SafeEntryGives(name: string, v: string)
    requires EnvName(name) && NewlineBreaks(v)
    ensures MeaningsOf(Entry(name, v)) == [Binding(name, DecodeValue(EncodeValue(v)))]
  {
    PrintedIsOneLine(v);
    LineBinds(name, EncodeValue(v));
    PreludeIsOneLine(name);
    OneLineConcat(name + "=", EncodeValue(v));
    OneLineGives(Entry(name, v));
  }

  lemma PreludeIsOneLine(name: string)
    requires EnvName(name)
    ensures OneLine(name + "=")
  {
    assert forall c | NameChar(c) :: !IsBreak(c);
  }

  /** Nothing that a line with other breaks gives is a value with such breaks, or it is not its own. */
  ghost predicate NeverItself(name: string, v: string, ms: seq<Meaning>) {
    forall i | 0 <= i < |ms| && ms[i].Binding? :: NewlineBreaks(ms[i].value) || (ms[i].name == name && ms[i].value != v)
  }

  lemma BrokenIsQuoted(v: string)
    requires !NewlineBreaks(v)
    ensures EncodeValue(v) == ['"'] + Escaped(v, true, true, false) + ['"']
  {
    var k :| 0 <= k < |v| && IsBreak(v[k]) && v[k] != '\n';
    assert v[k] in v && !PlainChar(v[k]);
    PrinterIsPerCharacter(v);
  }

  /** The printed form of a value with other line breaks. */
  lemma BrokenPrinted(name: string, v: string) returns (pre: string, s: string)
    requires EnvName(name) && !NewlineBreaks(v)
    ensures s == Escaped(v, true, true, false) + ['"'] && pre == name + "=" + ['"'] && Entry(name, v) == pre + s
    ensures OneLine(pre) && !OneLine(s) && Guarded(s)
  {
    var e := Escaped(v, true, true, false);
    pre, s := name + "=" + ['"'], e + ['"'];
    BrokenIsQuoted(v);
    assert Entry(name, v) == pre + s;
    PreludeIsOneLine(name);
    OneLineConcat(name + "=", ['"']);
    EscapedKeepsBreaks(v);
    OneLineConcat(e, ['"']);
    EscapedIsCovered(v);
    assert forall i | 0 <= i < |e| :: s[i] == e[i];
  }

  /** The first line of it binds the name, to something else than the value. */
  lemma FirstLineGives(name: string, v: string, pre: string, s: string)
    requires EnvName(name) && !NewlineBreaks(v) && pre == name + "=" + ['"'] && OneLine(pre)
    requires s == Escaped(v, true, true, false) + ['"'] && Cut(s).front != []
    ensures var line := Strip(pre + Cut(s).front[0]);
            line != "" && MeaningOf(line).Binding? && MeaningOf(line).name == name
            && (NewlineBreaks(MeaningOf(line).value) || MeaningOf(line).value != v)
  {
    var i, j := FrontPiece(s, 0);
    var q := Cut(s).front[0];
    assert q <= Escaped(v, true, true, false);
    assert pre + q == name + "=" + (['"'] + q);
    LineBinds(name, ['"'] + q);
    BeginningGives(v, q);
  }

  /** The later lines give nothing with other breaks than the newline. */
  lemma LaterLineGives(s: string, i: nat, j: nat)
    requires Guarded(s) && i <= j <= |s| && OneLine(s[i..j]) && MeaningOf(Strip(s[i..j])).Binding?
    ensures NewlineBreaks(MeaningOf(Strip(s[i..j])).value)
  {
    GuardedSlice(s, i, j);
    var x, y := StripIsSlice(s[i..j]);
    GuardedSlice(s[i..j], x, y);
    GuardedLineGives(Strip(s[i..j]));
  }

  lemma {:induction false} ContentMember(lines: seq<string>, line: string)
    requires line in Content(lines)
    ensures exists k :: 0 <= k < |lines| && line == Strip(lines[k])
  {
    if line in Content(lines[..|lines| - 1]) {
      ContentMember(lines[..|lines| - 1], line);
      var k :| 0 <= k < |lines| - 1 && line == Strip(lines[..|lines| - 1][k]);
      assert line == Strip(lines[k]);
    } else {
      assert line == Strip(lines[|lines| - 1]);
    }
  }

  lemma {:induction false} ContentFirst(lines: seq<string>)
    requires lines != [] && Strip(lines[0]) != ""
    ensures Content(lines) != [] && Content(lines)[0] == Strip(lines[0])
  {
    if |lines| > 1 { ContentFirst(lines[..|lines| - 1]); }
  }

  /** A value with other line breaks is cut up: its line binds the name, but nothing it gives is the value. */
  lemma BrokenEntryGives(name: string, v: string)
    requires EnvName(name) && !NewlineBreaks(v)
    ensures var ms := MeaningsOf(Entry(name, v));
            NeverItself(name, v, ms) && ms != [] && ms[0].Binding? && ms[0].name == name
  {
    var pre, s := BrokenPrinted(name, v);
    CutPrefix(pre, s);
    if Cut(s).front == [] { FirstAndOnly(s); }
    var lines := All(Cut(pre + s));
    FirstLineGives(name, v, pre, s);
    ContentFirst(lines);
    var content := Content(lines);
    forall i | 0 <= i < |content| && MeaningOf(content[i]).Binding?
      ensures var m := MeaningOf(content[i]); NewlineBreaks(m.value) || (m.name == name && m.value != v)
    {
      ContentMember(lines, content[i]);
      var k :| 0 <= k < |lines| && content[i] == Strip(lines[k]);
      if k > 0 { LaterPiece(pre, s, k); }
    }
  }

  lemma LaterPiece(pre: string, s: string, k: nat)
    requires OneLine(pre) && Guarded(s) && Cut(s).front != [] && 0 < k < |All(Cut(pre + s))|
    ensures MeaningOf(Strip(All(Cut(pre + s))[k])).Binding? ==>
              NewlineBreaks(MeaningOf(Strip(All(Cut(pre + s))[k])).value)
  {
    CutPrefix(pre, s);
    var piece := All(Cut(pre + s))[k];
    var i, j;
    if k < |Cut(s).front| {
      i, j := FrontPiece(s, k);
    } else {
      i := LastPiece(s);
      j := |s|;
    }
    assert piece == s[i..j];
    if MeaningOf(Strip(s[i..j])).Binding? { LaterLineGives(s, i, j); }
  }
}
