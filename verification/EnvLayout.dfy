/** What rewriting the secrets file leaves where it was, and what it adds. */
module EnvLayout {
  import opened Common
  import opened EnvFile
  import opened EnvLines

  // ----- a printed value -----

  predicate PlainText(value: string) {
    value != "" && forall c | c in value ::
      'A' <= c <= 'Z' || 'a' <= c <= 'z' || '0' <= c <= '9' || c in {'_', '.', '/', ':', '@', '+', ',', '%', '=', '-'}
  }

  /** A value of plain characters is printed as it stands, any other one between double quotes and on one line
      as far as the newline goes. */
  lemma PrintedMeans(value: string)
    ensures var r := EncodeValue(value);
            if PlainText(value) then r == value
            else |r| >= 2 && r[0] == '"' && r[|r| - 1] == '"' && '\n' !in r
  {
    assert forall c: char :: c in "_./:@+,%=-" <==> c in {'_', '.', '/', ':', '@', '+', ',', '%', '=', '-'};
    if !PlainText(value) && value != "" {
      NoNewlines(ReplaceChar(ReplaceChar(value, '\\', "\\\\"), '"', "\\\""));
    }
  }

  lemma {:induction false} NoNewlines(s: string)
    ensures '\n' !in ReplaceChar(s, '\n', "\\n")
  {
    if s != "" { NoNewlines(s[1..]); }
  }

  /** A line ends at the characters at which the original language splits text. */
  lemma BreaksAre(c: char)
    ensures IsBreak(c) <==> c in {'\n', '\U{b}', '\U{c}', '\r', '\U{1c}', '\U{1d}', '\U{1e}', '\U{85}', '\U{2028}',
                                  '\U{2029}'}
  {
  }

  // ----- the lines that are there -----

  /** What becomes of the lines: kept where they are for no variable, and otherwise the variable's own line. */
  predicate Rewritten(lines: seq<string>, plan: Plan, kept: seq<string>) {
    |kept| == |lines| && forall i | 0 <= i < |lines| ::
      match plan.target(lines[i])
      case None => kept[i] == lines[i]
      case Some(name) => kept[i] == plan.entry(name)
  }

  /** Every line stays in its place, comments and unknown variables included. */
  lemma {:induction false} LinesStay(lines: seq<string>, plan: Plan)
    ensures Rewritten(lines, plan, NewLines(lines, plan))
  {
    if lines != [] {
      var front := lines[..|lines| - 1];
      LinesStay(front, plan);
      assert forall i | 0 <= i < |front| :: front[i] == lines[i];
    }
  }

  // ----- the lines that are added -----

  predicate HasLine(lines: seq<string>, plan: Plan, name: string) {
    exists line :: line in lines && plan.target(line) == Some(name)
  }

  lemma {:induction false} SeenIff(lines: seq<string>, plan: Plan, name: string)
    ensures Seen(lines, plan, name) <==> HasLine(lines, plan, name)
  {
    if lines != [] {
      var front, last := lines[..|lines| - 1], lines[|lines| - 1];
      SeenIff(front, plan, name);
      assert lines == front + [last];
      assert forall line :: line in lines <==> line in front || line == last;
    }
  }

  /** The variables that have no line yet, in their order. */
  function Missing(lines: seq<string>, plan: Plan, names: seq<string>): seq<string> {
    if names == [] then []
    else (if HasLine(lines, plan, names[0]) then [] else [names[0]]) + Missing(lines, plan, names[1..])
  }

  /** One line for each variable. */
  predicate OneEach(added: seq<string>, names: seq<string>, plan: Plan) {
    |added| == |names| && forall k | 0 <= k < |names| :: added[k] == plan.entry(names[k])
  }

  lemma {:induction false} MissingConcat(lines: seq<string>, plan: Plan, a: seq<string>, name: string)
    ensures Missing(lines, plan, a + [name]) == Missing(lines, plan, a) + if HasLine(lines, plan, name) then []
              else [name]
  {
    if a == [] {
      assert a + [name] == [name] && [name][1..] == [];
    } else {
      assert (a + [name])[0] == a[0] && (a + [name])[1..] == a[1..] + [name];
      MissingConcat(lines, plan, a[1..], name);
    }
  }

  /** Exactly the variables without a line get one, in their order. */
  lemma {:induction false} MissingAreAdded(lines: seq<string>, plan: Plan, names: seq<string>)
    ensures OneEach(Added(lines, names, plan), Missing(lines, plan, names), plan)
  {
    if names != [] {
      var front, last := names[..|names| - 1], names[|names| - 1];
      MissingAreAdded(lines, plan, front);
      SeenIff(lines, plan, last);
      MissingConcat(lines, plan, front, last);
      assert names == front + [last];
    }
  }

  /** The line of a variable is its name, an equals sign and its printed value. */
  lemma EntryMeans(values: map<string, string>, name: string)
    requires name in values
    ensures PlanOf(values).entry(name) == name + "=" + EncodeValue(values[name])
  {
  }

  /** The whole file: its lines, a blank line after text, the heading of a new file, and what was missing. */
  lemma OutputMeans(text: string, names: seq<string>, plan: Plan, heading: seq<string>)
    returns (kept: seq<string>, added: seq<string>)
    ensures OutputOf(text, names, plan, heading)
            == kept + ((if kept == [] || Strip(kept[|kept| - 1]) == "" then [] else [""])
                       + (if ReadText(text) == "" then heading else [])) + added
    ensures Rewritten(LinesOf(text), plan, kept) && OneEach(added, Missing(LinesOf(text), plan, names), plan)
  {
    kept, added := NewLines(LinesOf(text), plan), Added(LinesOf(text), names, plan);
    LinesStay(LinesOf(text), plan);
    MissingAreAdded(LinesOf(text), plan, names);
  }
}
