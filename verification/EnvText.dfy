/** From the text of the secrets file to the lines that the loader sees: what is joined by newlines and
    trimmed at the end is cut apart again. */
module EnvText {
  import opened Common
  import opened EnvFile
  import opened EnvLines

  // ----- from text to lines -----

  lemma {:induction false} ContentConcat(a: seq<string>, b: seq<string>)
    ensures Content(a + b) == Content(a) + Content(b)
  {
    if b == [] {
      assert a + b == a;
    } else {
      assert (a + b)[..|a + b| - 1] == a + b[..|b| - 1];
      ContentConcat(a, b[..|b| - 1]);
    }
  }

  lemma CutStep(s: string, c: char)
    ensures Cut(s + [c]) == if IsBreak(c) then Pieces(Cut(s).front + [Cut(s).last], "")
                            else Pieces(Cut(s).front, Cut(s).last + [c])
  {
    assert (s + [c])[..|s|] == s;
  }

  /** A line break separates what comes before it from what comes after. */
  lemma {:induction false} CutConcat(a: string, c: char, b: string)
    requires IsBreak(c)
    ensures Cut(a + [c] + b) == Pieces(Cut(a).front + [Cut(a).last] + Cut(b).front, Cut(b).last)
  {
    CutStep(a, c);
    if b == "" {
      assert a + [c] + b == a + [c];
    } else {
      var front, d := b[..|b| - 1], b[|b| - 1];
      assert b == front + [d] && a + [c] + b == (a + [c] + front) + [d];
      CutConcat(a, c, front);
      CutStep(a + [c] + front, d);
      CutStep(front, d);
    }
  }

  /** Text without a line break is one piece. */
  lemma {:induction false} CutOneLine(s: string)
    requires OneLine(s)
    ensures Cut(s) == Pieces([], s)
  {
    if s != "" {
      CutOneLine(s[..|s| - 1]);
      assert s[..|s| - 1] + [s[|s| - 1]] == s;
    }
  }

  /** What stands before a text joins its first piece. */
  lemma {:induction false} CutPrefix(a: string, s: string)
    requires OneLine(a)
    ensures Cut(a + s) == if Cut(s).front == [] then Pieces([], a + Cut(s).last)
                          else Pieces([a + Cut(s).front[0]] + Cut(s).front[1..], Cut(s).last)
  {
    if s == "" {
      assert a + s == a;
      CutOneLine(a);
    } else {
      var front, c := s[..|s| - 1], s[|s| - 1];
      assert s == front + [c] && a + s == (a + front) + [c];
      CutPrefix(a, front);
      CutStep(a + front, c);
      CutStep(front, c);
      assert a + Cut(front).last + [c] == a + (Cut(front).last + [c]);
    }
  }

  /** The last piece is the end of the text. */
  lemma {:induction false} LastPiece(s: string) returns (i: nat)
    ensures i <= |s| && Cut(s).last == s[i..] && OneLine(s[i..])
  {
    i := 0;
    if s != "" {
      i := LastPiece(s[..|s| - 1]);
      if IsBreak(s[|s| - 1]) { i := |s|; }
    }
  }

  /** Every other piece ends at a line break, and the first one begins the text. */
  lemma {:induction false} FrontPiece(s: string, k: nat) returns (i: nat, j: nat)
    requires k < |Cut(s).front|
    ensures i <= j < |s| && Cut(s).front[k] == s[i..j] && OneLine(s[i..j]) && IsBreak(s[j]) && (k == 0 ==> i == 0)
  {
    var front, c := s[..|s| - 1], s[|s| - 1];
    if k < |Cut(front).front| {
      i, j := FrontPiece(front, k);
    } else {
      i := LastPiece(front);
      j := |front|;
      if k == 0 { FirstAndOnly(front); i := 0; }
    }
  }

  lemma {:induction false} FirstAndOnly(s: string)
    requires Cut(s).front == []
    ensures Cut(s).last == s && OneLine(s)
  {
    if s != "" {
      FirstAndOnly(s[..|s| - 1]);
    }
  }

  function All(p: Pieces): seq<string> { p.front + [p.last] }

  // ----- white space at the end -----

  lemma {:induction false} StripIgnoresSpace(p: string, c: char)
    requires IsSpace(c)
    ensures Strip(p + [c]) == Strip(p)
  {
    if p == "" {
      assert p + [c] == [c] && [c][1..] == "";
    } else if IsSpace(p[0]) {
      assert (p + [c])[1..] == p[1..] + [c];
      StripIgnoresSpace(p[1..], c);
    } else {
      assert (p + [c])[..|p|] == p;
    }
  }

  lemma ContentAppend(a: seq<string>, x: string)
    ensures Content(a + [x]) == Content(a) + (if Strip(x) == "" then [] else [Strip(x)])
  {
    assert (a + [x])[..|a|] == a;
  }

  /** What the loader sees of a text. */
  function LinesIn(text: string): seq<string> { Content(All(Cut(text))) }

  lemma {:induction false} SpaceIsIgnored(x: string, w: string)
    requires forall i | 0 <= i < |w| :: IsSpace(w[i])
    ensures LinesIn(x + w) == LinesIn(x)
  {
    if w == "" {
      assert x + w == x;
    } else {
      var s, c := x + w[..|w| - 1], w[|w| - 1];
      assert x + w == s + [c];
      SpaceIsIgnored(x, w[..|w| - 1]);
      CutStep(s, c);
      var p := Cut(s);
      ContentAppend(p.front, p.last);
      if IsBreak(c) {
        ContentAppend(All(p), "");
      } else {
        StripIgnoresSpace(p.last, c);
        ContentAppend(p.front, p.last + [c]);
      }
    }
  }

  lemma TrimmingIsIgnored(x: string)
    ensures LinesIn(TrimRight(x)) == LinesIn(x)
  {
    var j := TrimRightIsSlice(x);
    assert x == x[..j] + x[j..];
    SpaceIsIgnored(x[..j], x[j..]);
  }

  /** Reading with CR LF and CR as newlines finds the same lines as cutting at every break. */
  lemma {:induction false} ReadingKeepsLines(text: string)
    ensures Cut(ReadText(text)).last == Cut(text).last
    ensures Content(Cut(ReadText(text)).front) == Content(Cut(text).front)
    ensures text != "" && text[|text| - 1] == '\r' ==> Cut(text).last == ""
  {
    if text != "" {
      var n := |text| - 1;
      var front, c := text[..n], text[n];
      assert text == front + [c];
      ReadingKeepsLines(front);
      var a, b := Cut(ReadText(front)), Cut(front);
      CutStep(front, c);
      ContentAppend(a.front, a.last);
      ContentAppend(b.front, b.last);
      if c == '\n' && n > 0 && text[n - 1] == '\r' {
        assert ReadText(text) == ReadText(front) && front[n - 1] == '\r';
      } else {
        var d := if c == '\r' then '\n' else c;
        assert ReadText(text) == ReadText(front) + [d];
        CutStep(ReadText(front), d);
      }
    }
  }

  lemma ReadContent(text: string)
    ensures Content(LinesOf(text)) == LinesIn(text)
  {
    ReadingKeepsLines(text);
    var a, b := Cut(ReadText(text)), Cut(text);
    ContentAppend(a.front, a.last);
    ContentAppend(b.front, b.last);
    assert a.front + [] == a.front;
  }

  /** What the lines of a file give, one after the other. */
  function Given(output: seq<string>): seq<string> {
    if output == [] then [] else Given(output[..|output| - 1]) + LinesIn(output[|output| - 1])
  }

  lemma BreakSeparates(a: string, c: char, b: string)
    requires IsBreak(c)
    ensures LinesIn(a + [c] + b) == LinesIn(a) + LinesIn(b)
  {
    CutConcat(a, c, b);
    assert All(Cut(a + [c] + b)) == All(Cut(a)) + All(Cut(b));
    ContentConcat(All(Cut(a)), All(Cut(b)));
  }

  lemma OneLineIn(line: string)
    requires OneLine(line)
    ensures LinesIn(line) == if Strip(line) == "" then [] else [Strip(line)]
  {
    CutOneLine(line);
    ContentAppend([], line);
    assert [] + [line] == [line];
  }

  lemma NothingSeen()
    ensures LinesIn("") == []
  {
    assert All(Cut("")) == [""];
  }

  lemma {:induction false} JoinedContent(output: seq<string>)
    ensures LinesIn(Join(output)) == Given(output)
  {
    if output == [] {
      NothingSeen();
    } else if |output| == 1 {
      assert Given(output[..0]) == [];
    } else {
      var front, last := output[..|output| - 1], output[|output| - 1];
      JoinedContent(front);
      BreakSeparates(Join(front), '\n', last);
    }
  }

  /** A file that was written gives what its lines give. */
  lemma FileContent(output: seq<string>)
    ensures Content(LinesOf(FileText(output))) == Given(output)
  {
    var text := TrimRight(Join(output));
    ReadContent(FileText(output));
    assert FileText(output) == text + ['\n'] + "";
    BreakSeparates(text, '\n', "");
    NothingSeen();
    TrimmingIsIgnored(Join(output));
    JoinedContent(output);
  }
}
