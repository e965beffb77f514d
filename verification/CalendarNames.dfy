/** What a yes is, and what the file names that are made from a UID still say of it. */
module CalendarNames {
  import opened Common
  import opened CalendarApproval

  // ----- the word of a reply -----

  /** A small letter, its capital, and for the s the long one. */
  predicate IsLetter(c: char, small: char) {
    c == small || ('a' <= small <= 'z' && c as int + 32 == small as int) || (small == 's' && c == '\U{17f}')
  }

  predicate Reads(s: string, word: string) { |s| == |word| && forall i | 0 <= i < |s| :: IsLetter(s[i], word[i]) }

  /** Text in small letters. */
  predicate Small(word: string) { forall i | 0 <= i < |word| :: 'a' <= word[i] <= 'z' }

  lemma ReadsIff(s: string, word: string)
    requires Small(word)
    ensures Lower(s) == word <==> Reads(s, word)
  {
    if Reads(s, word) {
      assert forall i | 0 <= i < |s| :: IsLetter(s[i], word[i]);
    }
    if Lower(s) == word {
      forall i | 0 <= i < |s| ensures IsLetter(s[i], word[i]) { assert Lower(s)[i] == word[i]; }
    }
  }

  /** A line approves if and only if it is yes in either language and in any capitals, rejects if and only if it
      is no, and decides nothing otherwise. */
  lemma WordMeans(line: string)
    ensures Word(line) == Some(Approve) <==> Reads(Strip(line), "ja") || Reads(Strip(line), "yes")
    ensures Word(line) == Some(Reject) <==> Reads(Strip(line), "nein") || Reads(Strip(line), "no")
  {
    ReadsIff(Strip(line), "ja");
    ReadsIff(Strip(line), "yes");
    ReadsIff(Strip(line), "nein");
    ReadsIff(Strip(line), "no");
  }

  // ----- file names -----

  /** The letters and digits of a text. */
  function Core(s: string): string {
    if s == "" then "" else (if AlphaNumeric(s[0]) then [s[0]] else "") + Core(s[1..])
  }

  lemma {:induction false} CoreConcat(a: string, b: string)
    ensures Core(a + b) == Core(a) + Core(b)
  {
    if a == "" {
      assert a + b == b;
    } else {
      assert (a + b)[0] == a[0] && (a + b)[1..] == a[1..] + b;
      CoreConcat(a[1..], b);
      var head := if AlphaNumeric(a[0]) then [a[0]] else "";
      assert head + (Core(a[1..]) + Core(b)) == head + Core(a[1..]) + Core(b);
    }
  }

  predicate Keeps(ok: char -> bool) { forall c: char | AlphaNumeric(c) :: ok(c) }

  lemma {:induction false} SkipKeepsCore(s: string, ok: char -> bool)
    requires Keeps(ok)
    ensures Core(Skip(s, ok)) == Core(s)
    ensures Skip(s, ok) != "" ==> ok(Skip(s, ok)[0])
  {
    if s != "" && !ok(s[0]) { SkipKeepsCore(s[1..], ok); }
  }

  predicate AllIn(s: string, ok: char -> bool) { forall i | 0 <= i < |s| :: ok(s[i]) }

  /** No character that may not stay is left, and no letter or digit is lost or moved; where every character may
      stay, nothing changes. */
  lemma {:induction false} CollapseKeeps(s: string, ok: char -> bool)
    requires Keeps(ok) && ok('-')
    ensures Core(Collapse(s, ok)) == Core(s) && AllIn(Collapse(s, ok), ok)
    ensures AllIn(s, ok) ==> Collapse(s, ok) == s
    decreases |s|
  {
    if s != "" {
      if ok(s[0]) {
        CollapseKeeps(s[1..], ok);
        CoreConcat([s[0]], Collapse(s[1..], ok));
        CoreConcat([s[0]], s[1..]);
        assert s == [s[0]] + s[1..] && (AllIn(s, ok) ==> AllIn(s[1..], ok));
      } else {
        SkipKeepsCore(s[1..], ok);
        CollapseKeeps(Skip(s[1..], ok), ok);
        CoreConcat("-", Collapse(Skip(s[1..], ok), ok));
        assert Core("-") == "";
      }
    }
  }

  predicate NoneKept(out: string) { forall c | c in out :: !AlphaNumeric(c) }

  lemma {:induction false} DropLeftKeeps(s: string, out: string, ok: char -> bool)
    requires NoneKept(out) && AllIn(s, ok)
    ensures var r := DropLeft(s, out); Core(r) == Core(s) && AllIn(r, ok) && (r != "" ==> r[0] !in out)
    ensures s == "" || s[0] !in out ==> DropLeft(s, out) == s
  {
    if s != "" && s[0] in out { DropLeftKeeps(s[1..], out, ok); }
  }

  lemma {:induction false} DropRightKeeps(s: string, out: string, ok: char -> bool)
    requires NoneKept(out) && AllIn(s, ok)
    ensures var r := DropRight(s, out);
            Core(r) == Core(s) && AllIn(r, ok) && (r != "" ==> r[0] == s[0] && r[|r| - 1] !in out)
    ensures s == "" || s[|s| - 1] !in out ==> DropRight(s, out) == s
  {
    if s != "" && s[|s| - 1] in out {
      var front, last := s[..|s| - 1], s[|s| - 1];
      DropRightKeeps(front, out, ok);
      CoreConcat(front, [last]);
      assert s == front + [last] && Core([last]) == "";
    }
  }

  /** What is left of a UID once its odd characters are hyphens and its ends are cleaned. */
  predicate CleanedOf(name: string, uid: string, out: string, ok: char -> bool) {
    && Core(name) == Core(uid) && AllIn(name, ok)
    && (name != "" ==> name[0] !in out && name[|name| - 1] !in out)
    && (AllIn(uid, ok) && (uid != "" ==> uid[0] !in out && uid[|uid| - 1] !in out) ==> name == uid)
  }

  lemma CleanedIs(uid: string, out: string, ok: char -> bool)
    requires Keeps(ok) && ok('-') && NoneKept(out)
    ensures CleanedOf(DropRight(DropLeft(Collapse(uid, ok), out), out), uid, out, ok)
  {
    CollapseKeeps(uid, ok);
    DropLeftKeeps(Collapse(uid, ok), out, ok);
    DropRightKeeps(DropLeft(Collapse(uid, ok), out), out, ok);
  }

  predicate FileChar(c: char) { AlphaNumeric(c) || c in {'.', '_', '-'} }
  predicate ActionChar(c: char) { AlphaNumeric(c) || c in {'_', '.', '@', '-'} }

  /** The agent's file name holds the letters and digits of the UID in their order, only characters that are
      safe, and at most 180 of them; a UID that is such a name keeps it. */
  lemma FileNameMeans(uid: string) returns (name: string)
    ensures CleanedOf(name, uid, ".-", FileChar)
    ensures SafeFilename(uid) == if name == "" then "file" else if |name| <= 180 then name else name[..180]
  {
    var ok := c => AlphaNumeric(c) || c in "._-";
    assert forall c: char :: ok(c) <==> FileChar(c);
    name := DropRight(DropLeft(Collapse(uid, ok), ".-"), ".-");
    CleanedIs(uid, ".-", ok);
    assert AllIn(name, FileChar) && (AllIn(uid, ok) <==> AllIn(uid, FileChar));
  }

  /** So does the name that the calendar action gives; without any character to keep it is made of the text. */
  lemma ActionNameMeans(uid: string, text: string) returns (name: string)
    ensures CleanedOf(name, uid, "-", ActionChar)
    ensures ActionName(uid, text) == if name == "" then Hashed(text) else Named(name)
  {
    var ok := c => AlphaNumeric(c) || c in "_.@-";
    assert forall c: char :: ok(c) <==> ActionChar(c);
    name := DropRight(DropLeft(Collapse(uid, ok), "-"), "-");
    CleanedIs(uid, "-", ok);
    assert AllIn(name, ActionChar) && (AllIn(uid, ok) <==> AllIn(uid, ActionChar));
  }
}
