/** What survives the secrets file: exactly when the variables that were written are the ones that are
    loaded, and what becomes of the others. */
module EnvRoundTrip {
  import opened Common
  import opened EnvFile
  import opened EnvLines
  import opened EnvText
  import opened EnvEntries

  // ----- what loading comes to -----

  /** The values that a variable is bound to, in order. */
  function ValuesOf(ms: seq<Meaning>, name: string): seq<string> {
    if ms == [] then []
    else
      var last := ms[|ms| - 1];
      ValuesOf(ms[..|ms| - 1], name) + (if last.Binding? && last.name == name then [last.value] else [])
  }

  function LookUp(vars: map<string, string>, name: string): Option<string> {
    if name in vars then Some(vars[name]) else None
  }

  /** Overriding, the last value counts; otherwise the environment's own or the first. */
  function Effective(values: seq<string>, before: Option<string>, override: bool): Option<string> {
    if values == [] || (!override && before.Some?) then before
    else Some(if override then values[|values| - 1] else values[0])
  }

  predicate AllFine(ms: seq<Meaning>) { forall i | 0 <= i < |ms| :: Fine(ms[i]) }

  /** Loading ends without an error exactly when every line is an assignment or a comment. */
  lemma {:induction false} LoadedIff(ms: seq<Meaning>, vars: map<string, string>, override: bool)
    ensures LoadOf(ms, vars, override).error.None? <==> AllFine(ms)
  {
    if ms != [] {
      LoadedIff(ms[..|ms| - 1], vars, override);
      assert ms == ms[..|ms| - 1] + [ms[|ms| - 1]];
    }
  }

  lemma AssignedValue(s: Loaded, m: Meaning, override: bool, values: seq<string>, before: Option<string>, name: string)
    requires s.error.None? && Fine(m) && LookUp(s.vars, name) == Effective(values, before, override)
    ensures LookUp(Assign(s, m, override).vars, name)
            == Effective(values + (if m.Binding? && m.name == name then [m.value] else []), before, override)
  {
    assert values + [] == values;
  }

  lemma {:induction false} LoadedValues(ms: seq<Meaning>, vars: map<string, string>, override: bool, name: string)
    requires AllFine(ms)
    ensures LookUp(LoadOf(ms, vars, override).vars, name)
            == Effective(ValuesOf(ms, name), LookUp(vars, name), override)
  {
    if ms != [] {
      var front := ms[..|ms| - 1];
      LoadedValues(front, vars, override, name);
      LoadedIff(front, vars, override);
      AssignedValue(LoadOf(front, vars, override), ms[|ms| - 1], override, ValuesOf(front, name), LookUp(vars, name),
                    name);
    }
  }

  lemma {:induction false} ValuesConcat(a: seq<Meaning>, b: seq<Meaning>, name: string)
    ensures ValuesOf(a + b, name) == ValuesOf(a, name) + ValuesOf(b, name)
  {
    if b == [] {
      assert a + b == a;
    } else {
      assert (a + b)[..|a + b| - 1] == a + b[..|b| - 1];
      ValuesConcat(a, b[..|b| - 1], name);
    }
  }

  lemma {:induction false} ValueFrom(ms: seq<Meaning>, name: string, k: nat) returns (i: nat)
    requires k < |ValuesOf(ms, name)|
    ensures i < |ms| && ms[i] == Binding(name, ValuesOf(ms, name)[k])
  {
    var front := ms[..|ms| - 1];
    if k < |ValuesOf(front, name)| {
      i := ValueFrom(front, name, k);
    } else {
      i := |ms| - 1;
    }
  }

  lemma {:induction false} BoundHasValue(ms: seq<Meaning>, name: string, i: nat)
    requires i < |ms| && ms[i].Binding? && ms[i].name == name
    ensures ValuesOf(ms, name) != []
  {
    if i < |ms| - 1 { BoundHasValue(ms[..|ms| - 1], name, i); }
  }

  // ----- a list of lines -----

  /** What the lines mean one after the other; `give` says what one line means. */
  function Flat(lines: seq<string>, give: string -> seq<Meaning>): seq<Meaning> {
    if lines == [] then [] else Flat(lines[..|lines| - 1], give) + give(lines[|lines| - 1])
  }

  lemma {:induction false} FlatConcat(a: seq<string>, b: seq<string>, give: string -> seq<Meaning>)
    ensures Flat(a + b, give) == Flat(a, give) + Flat(b, give)
  {
    if b == [] {
      assert a + b == a;
    } else {
      assert (a + b)[..|a + b| - 1] == a + b[..|b| - 1];
      FlatConcat(a, b[..|b| - 1], give);
    }
  }

  lemma MeaningsConcat(a: seq<string>, b: seq<string>)
    ensures Meanings(a + b) == Meanings(a) + Meanings(b)
  {
  }

  lemma {:induction false} GivenMeanings(output: seq<string>)
    ensures Meanings(Given(output)) == Flat(output, MeaningsOf)
  {
    if output != [] {
      GivenMeanings(output[..|output| - 1]);
      MeaningsConcat(Given(output[..|output| - 1]), LinesIn(output[|output| - 1]));
    }
  }

  /** Where a meaning comes from. */
  lemma {:induction false} FlatFrom(lines: seq<string>, give: string -> seq<Meaning>, i: nat) returns (j: nat, k: nat)
    requires i < |Flat(lines, give)|
    ensures j < |lines| && k < |give(lines[j])| && Flat(lines, give)[i] == give(lines[j])[k]
  {
    var front := lines[..|lines| - 1];
    if i < |Flat(front, give)| {
      j, k := FlatFrom(front, give, i);
    } else {
      j, k := |lines| - 1, i - |Flat(front, give)|;
    }
  }

  lemma {:induction false} FlatHas(lines: seq<string>, give: string -> seq<Meaning>, j: nat, k: nat) returns (i: nat)
    requires j < |lines| && k < |give(lines[j])|
    ensures i < |Flat(lines, give)| && Flat(lines, give)[i] == give(lines[j])[k]
  {
    if j == |lines| - 1 {
      i := |Flat(lines[..j], give)| + k;
    } else {
      i := FlatHas(lines[..|lines| - 1], give, j, k);
    }
  }

  // ----- rewriting a list of lines -----

  /** How plan and meaning fit together for the lines of a file: a line for one of the names binds it, and
      no other line does. */
  ghost predicate FitsLine(line: string, plan: Plan, give: string -> seq<Meaning>, names: seq<string>) {
    match plan.target(line)
    case Some(name) => name in names && exists x :: give(line) == [Binding(name, x)]
    case None => forall i | 0 <= i < |give(line)| && give(line)[i].Binding? :: give(line)[i].name !in names
  }

  /** Each of the names gets a line that binds it to this value and does nothing else. */
  ghost predicate Exact(plan: Plan, give: string -> seq<Meaning>, names: seq<string>, values: map<string, string>) {
    forall name | name in names :: name in values && give(plan.entry(name)) == [Binding(name, values[name])]
  }

  ghost predicate AllEqual(xs: seq<string>, x: string) { forall i | 0 <= i < |xs| :: xs[i] == x }

  ghost predicate FitLines(lines: seq<string>, plan: Plan, give: string -> seq<Meaning>, names: seq<string>) {
    forall i | 0 <= i < |lines| :: FitsLine(lines[i], plan, give, names)
  }

  /** What exact lines do to one variable: one of the names gets its value, others keep theirs. */
  ghost predicate Becomes(old': seq<Meaning>, new': seq<Meaning>, names: seq<string>, values: map<string, string>,
                          name: string, seen: bool) {
    && (AllFine(new') <==> AllFine(old'))
    && (name in names ==> name in values && AllEqual(ValuesOf(new', name), values[name])
                          && (seen ==> ValuesOf(new', name) != []))
    && (name !in names ==> ValuesOf(new', name) == ValuesOf(old', name))
  }

  lemma BecomesConcat(old': seq<Meaning>, new': seq<Meaning>, seen: bool, more: seq<Meaning>, more': seq<Meaning>,
                      also: bool, names: seq<string>, values: map<string, string>, name: string)
    requires Becomes(old', new', names, values, name, seen) && Becomes(more, more', names, values, name, also)
    ensures Becomes(old' + more, new' + more', names, values, name, seen || also)
  {
    ValuesConcat(new', more', name);
    ValuesConcat(old', more, name);
    FineConcat(old', more);
    FineConcat(new', more');
  }

  lemma FineConcat(a: seq<Meaning>, b: seq<Meaning>)
    ensures AllFine(a + b) <==> AllFine(a) && AllFine(b)
  {
    assert forall i | 0 <= i < |a| :: a[i] == (a + b)[i];
    assert forall i | 0 <= i < |b| :: b[i] == (a + b)[|a| + i];
  }

  lemma {:induction false} RewrittenValues(lines: seq<string>, plan: Plan, give: string -> seq<Meaning>,
                                           names: seq<string>, values: map<string, string>, name: string)
    requires FitLines(lines, plan, give, names) && Exact(plan, give, names, values)
    ensures Becomes(Flat(lines, give), Flat(NewLines(lines, plan), give), names, values, name, Seen(lines, plan, name))
  {
    if lines == [] {
      assert name in names ==> name in values;
    } else {
      var front, line := lines[..|lines| - 1], lines[|lines| - 1];
      assert FitsLine(line, plan, give, names);
      RewrittenValues(front, plan, give, names, values, name);
      RewrittenLine(line, plan, give, names, values, name);
      BecomesConcat(Flat(front, give), Flat(NewLines(front, plan), give), Seen(front, plan, name),
                    give(line), give(NewLine(line, plan)), plan.target(line) == Some(name), names, values, name);
    }
  }

  lemma RewrittenLine(line: string, plan: Plan, give: string -> seq<Meaning>, names: seq<string>,
                      values: map<string, string>, name: string)
    requires FitsLine(line, plan, give, names) && Exact(plan, give, names, values)
    ensures Becomes(give(line), give(NewLine(line, plan)), names, values, name, plan.target(line) == Some(name))
  {
    match plan.target(line) {
      case Some(n) =>
        var x :| give(line) == [Binding(n, x)];
        assert give(NewLine(line, plan)) == [Binding(n, values[n])];
        SingleValue(Binding(n, x), name);
        SingleValue(Binding(n, values[n]), name);
      case None =>
        if name in names && ValuesOf(give(line), name) != [] {
          var i := ValueFrom(give(line), name, 0);
        }
    }
  }

  lemma SingleValue(m: Meaning, name: string)
    ensures ValuesOf([m], name) == if m.Binding? && m.name == name then [m.value] else []
  {
    assert [m][..0] == [];
  }

  // ----- the lines of the secrets file -----

  lemma {:induction false} LinesMean(lines: seq<string>)
    requires forall i | 0 <= i < |lines| :: OneLine(lines[i])
    ensures Meanings(Content(lines)) == Flat(lines, MeaningsOf)
  {
    if lines != [] {
      var front, last := lines[..|lines| - 1], lines[|lines| - 1];
      LinesMean(front);
      OneLineIn(last);
      assert front + [last] == lines;
      ContentAppend(front, last);
      MeaningsConcat(Content(front), LinesIn(last));
    }
  }

  lemma LinesAreOneLine(text: string, i: nat)
    requires i < |LinesOf(text)|
    ensures OneLine(LinesOf(text)[i])
  {
    var s := ReadText(text);
    if i < |Cut(s).front| {
      var x, y := FrontPiece(s, i);
    } else {
      var x := LastPiece(s);
    }
  }

  /** What the loader finds in a file. */
  function FileMeanings(text: string): seq<Meaning> { Meanings(Content(LinesOf(text))) }

  lemma FileMeansItsLines(text: string)
    ensures FileMeanings(text) == Flat(LinesOf(text), MeaningsOf)
  {
    forall i | 0 <= i < |LinesOf(text)| ensures OneLine(LinesOf(text)[i]) { LinesAreOneLine(text, i); }
    LinesMean(LinesOf(text));
  }

  lemma WrittenMeansItsLines(output: seq<string>)
    ensures FileMeanings(FileText(output)) == Flat(output, MeaningsOf)
  {
    FileContent(output);
    GivenMeanings(output);
  }

  lemma NoNameBeginsWithHash(bare: string, k: nat)
    requires k <= |bare| && bare != "" && bare[0] == '#'
    ensures !EnvName(Strip(bare[..k]))
  {
    var s := bare[..k];
    var i, j := StripIsSlice(s);
    if k > 0 {
      assert s[0] == '#' && !IsSpace('#') && i == 0;
      assert !NameChar('#');
    }
  }

  /** The writer takes a line for one of its variables exactly when the loader would bind it. */
  lemma LineFits(line: string, names: seq<string>, values: map<string, string>)
    requires OneLine(line) && Keys(names, values)
    ensures FitsLine(line, PlanOf(values), MeaningsOf, names)
  {
    OneLineGives(line);
    TargetMeans(line, values);
    if Target(line, values).Some? {
      var name := Target(line, values).value;
      var x :| MeaningOf(Strip(line)) == Binding(name, x);
      assert MeaningsOf(line) == [Binding(name, x)];
    }
  }

  lemma TargetMeans(line: string, values: map<string, string>)
    ensures var t, m := Target(line, values), MeaningOf(Strip(line));
            if t.Some? then t.value in values && Strip(line) != "" && m.Binding? && m.name == t.value
            else Strip(line) != "" && m.Binding? ==> m.name !in values
  {
    var s := Strip(line);
    var bare := Bare(s);
    if bare != "" && bare[0] == '#' { NoNameBeginsWithHash(bare, Equals(bare)); }
    assert s != "" && s[0] == '#' ==> bare == s by { assert "export "[0] == 'e'; }
  }

  // ----- the whole file -----

  predicate OnlyComments(ms: seq<Meaning>) { forall i | 0 <= i < |ms| :: ms[i].Comment? }

  lemma {:induction false} HeadingGives(heading: seq<string>)
    requires Heading(heading)
    ensures OnlyComments(Flat(heading, MeaningsOf))
  {
    if heading != [] {
      HeadingGives(heading[..|heading| - 1]);
      OneLineGives(heading[|heading| - 1]);
    }
  }

  lemma BetweenGives(text: string, kept: seq<string>, heading: seq<string>)
    requires Heading(heading)
    ensures OnlyComments(Flat(Between(text, kept, heading), MeaningsOf))
  {
    var blank := if kept != [] && Strip(kept[|kept| - 1]) != "" then [""] else [];
    var top := if text == "" then heading else [];
    FlatConcat(blank, top, MeaningsOf);
    HeadingGives(heading);
    OneLineGives("");
    assert [""][..0] == [];
  }

  lemma {:induction false} CommentsBindNothing(ms: seq<Meaning>, name: string)
    requires OnlyComments(ms)
    ensures ValuesOf(ms, name) == [] && AllFine(ms)
  {
    if ms != [] { CommentsBindNothing(ms[..|ms| - 1], name); }
  }

  lemma EntryBecomes(plan: Plan, give: string -> seq<Meaning>, names: seq<string>, values: map<string, string>,
                     last: string, name: string)
    requires Exact(plan, give, names, values) && last in names
    ensures Becomes([], give(plan.entry(last)), names, values, name, name == last)
  {
    SingleValue(Binding(last, values[last]), name);
  }

  /** What the added lines do: a name without a line gets its value, others get nothing. */
  lemma {:induction false} AddedValues(lines: seq<string>, some: seq<string>, plan: Plan, give: string -> seq<Meaning>,
                                       names: seq<string>, values: map<string, string>, name: string)
    requires Exact(plan, give, names, values) && forall n | n in some :: n in names
    ensures Becomes([], Flat(Added(lines, some, plan), give), names, values, name,
                    name in some && !Seen(lines, plan, name))
  {
    if some == [] {
      assert name in names ==> name in values;
    } else {
      var front, last := some[..|some| - 1], some[|some| - 1];
      assert some == front + [last];
      AddedValues(lines, front, plan, give, names, values, name);
      if !Seen(lines, plan, last) {
        var before := Added(lines, front, plan);
        FlatAppend(before, plan.entry(last), give);
        EntryBecomes(plan, give, names, values, last, name);
        BecomesConcat([], Flat(before, give), name in front && !Seen(lines, plan, name), [], give(plan.entry(last)),
                      name == last, names, values, name);
        NothingMore([]);
      } else {
        assert Added(lines, some, plan) == Added(lines, front, plan);
      }
    }
  }

  lemma NothingMore(a: seq<Meaning>)
    ensures a + [] == a
  {
  }

  lemma FlatAppend(a: seq<string>, x: string, give: string -> seq<Meaning>)
    ensures Flat(a + [x], give) == Flat(a, give) + give(x)
  {
    assert (a + [x])[..|a|] == a;
  }

  /** The rewritten file. */
  function Updated(text: string, names: seq<string>, values: map<string, string>, heading: seq<string>): string {
    FileText(OutputOf(text, names, PlanOf(values), heading))
  }

  lemma UpdatedMeans(text: string, names: seq<string>, values: map<string, string>, heading: seq<string>)
    ensures var lines, plan := LinesOf(text), PlanOf(values);
            var kept := NewLines(lines, plan);
            FileMeanings(Updated(text, names, values, heading))
            == Flat(kept, MeaningsOf) + Flat(Between(ReadText(text), kept, heading), MeaningsOf)
               + Flat(Added(lines, names, plan), MeaningsOf)
  {
    var lines, plan := LinesOf(text), PlanOf(values);
    var kept := NewLines(lines, plan);
    var middle := Between(ReadText(text), kept, heading);
    WrittenMeansItsLines(OutputOf(text, names, plan, heading));
    FlatConcat(kept + middle, Added(lines, names, plan), MeaningsOf);
    FlatConcat(kept, middle, MeaningsOf);
  }

  lemma FileFits(text: string, names: seq<string>, values: map<string, string>)
    requires Keys(names, values)
    ensures FitLines(LinesOf(text), PlanOf(values), MeaningsOf, names)
  {
    forall i | 0 <= i < |LinesOf(text)| ensures FitsLine(LinesOf(text)[i], PlanOf(values), MeaningsOf, names) {
      LinesAreOneLine(text, i);
      LineFits(LinesOf(text)[i], names, values);
    }
  }

  lemma CommentsBecome(ms: seq<Meaning>, names: seq<string>, values: map<string, string>, name: string)
    requires OnlyComments(ms) && (name in names ==> name in values)
    ensures Becomes([], ms, names, values, name, false)
  {
    CommentsBindNothing(ms, name);
  }

  /** With exact lines the names have their values and nothing else, all other variables what they had, and
      the file is loaded without an error if it was before. */
  lemma ExactIsRight(text: string, names: seq<string>, values: map<string, string>, heading: seq<string>, name: string)
    requires Keys(names, values) && Heading(heading) && Exact(PlanOf(values), MeaningsOf, names, values)
    ensures Becomes(FileMeanings(text), FileMeanings(Updated(text, names, values, heading)), names, values, name,
                    name in names)
  {
    var lines, plan := LinesOf(text), PlanOf(values);
    var kept := NewLines(lines, plan);
    var middle := Between(ReadText(text), kept, heading);
    UpdatedMeans(text, names, values, heading);
    FileMeansItsLines(text);
    FileFits(text, names, values);
    RewrittenValues(lines, plan, MeaningsOf, names, values, name);
    AddedValues(lines, names, plan, MeaningsOf, names, values, name);
    BetweenGives(ReadText(text), kept, heading);
    CommentsBecome(Flat(middle, MeaningsOf), names, values, name);
    ThreeParts(FileMeanings(text), Flat(kept, MeaningsOf), Flat(middle, MeaningsOf),
               Flat(Added(lines, names, plan), MeaningsOf),
               names, values, name, Seen(lines, plan, name));
  }

  lemma ThreeParts(old': seq<Meaning>, kept: seq<Meaning>, middle: seq<Meaning>, added: seq<Meaning>,
                   names: seq<string>,
                   values: map<string, string>, name: string, seen: bool)
    requires Becomes(old', kept, names, values, name, seen) && Becomes([], middle, names, values, name, false)
    requires Becomes([], added, names, values, name, name in names && !seen)
    ensures Becomes(old', kept + middle + added, names, values, name, name in names)
  {
    BecomesConcat(old', kept, seen, [], middle, false, names, values, name);
    BecomesConcat(old' + [], kept + middle, seen, [], added, name in names && !seen, names, values, name);
    NothingMore(old');
  }

  // ----- where the values come from -----

  lemma {:induction false} NewLineAt(lines: seq<string>, plan: Plan, j: nat)
    requires j < |NewLines(lines, plan)|
    ensures j < |lines| && NewLines(lines, plan)[j] == NewLine(lines[j], plan)
  {
    if lines != [] && j < |NewLines(lines[..|lines| - 1], plan)| {
      NewLineAt(lines[..|lines| - 1], plan, j);
    } else {
      NewLinesCount(lines[..|lines| - 1], plan);
    }
  }

  lemma {:induction false} NewLinesCount(lines: seq<string>, plan: Plan)
    ensures |NewLines(lines, plan)| == |lines|
  {
    if lines != [] { NewLinesCount(lines[..|lines| - 1], plan); }
  }

  lemma {:induction false} SeenAt(lines: seq<string>, plan: Plan, name: string) returns (j: nat)
    requires Seen(lines, plan, name)
    ensures j < |lines| && plan.target(lines[j]) == Some(name)
  {
    if Seen(lines[..|lines| - 1], plan, name) {
      j := SeenAt(lines[..|lines| - 1], plan, name);
    } else {
      j := |lines| - 1;
    }
  }

  lemma {:induction false} AddedFrom(lines: seq<string>, some: seq<string>, plan: Plan, j: nat) returns (name: string)
    requires j < |Added(lines, some, plan)|
    ensures name in some && Added(lines, some, plan)[j] == plan.entry(name)
  {
    var front := some[..|some| - 1];
    if j < |Added(lines, front, plan)| {
      name := AddedFrom(lines, front, plan, j);
    } else {
      name := some[|some| - 1];
    }
  }

  lemma {:induction false} AddedHas(lines: seq<string>, some: seq<string>, plan: Plan, name: string) returns (j: nat)
    requires name in some && !Seen(lines, plan, name)
    ensures j < |Added(lines, some, plan)| && Added(lines, some, plan)[j] == plan.entry(name)
  {
    var front := some[..|some| - 1];
    if some[|some| - 1] == name {
      j := |Added(lines, front, plan)|;
    } else {
      assert some == front + [some[|some| - 1]];
      j := AddedHas(lines, front, plan, name);
    }
  }

  /** A line of the file stands for one of the names. */
  ghost predicate EntryOf(line: string, plan: Plan, names: seq<string>) {
    exists name :: name in names && line == plan.entry(name)
  }

  ghost predicate BindsNone(line: string, give: string -> seq<Meaning>, names: seq<string>) {
    forall i | 0 <= i < |give(line)| && give(line)[i].Binding? :: give(line)[i].name !in names
  }

  lemma KeptLine(line: string, plan: Plan, give: string -> seq<Meaning>, names: seq<string>)
    requires FitsLine(line, plan, give, names)
    ensures EntryOf(NewLine(line, plan), plan, names) || BindsNone(NewLine(line, plan), give, names)
  {
  }

  lemma MiddleLine(text: string, kept: seq<string>, heading: seq<string>, names: seq<string>, j: nat)
    requires Heading(heading) && j < |Between(text, kept, heading)|
    ensures BindsNone(Between(text, kept, heading)[j], MeaningsOf, names)
  {
    OneLineGives("");
    var line := Between(text, kept, heading)[j];
    if line != "" { OneLineGives(line); }
  }

  lemma PartAt(a: seq<string>, b: seq<string>, c: seq<string>, j: nat)
    requires j < |a + b + c|
    ensures (a + b + c)[j] == if j < |a| then a[j] else if j < |a| + |b| then b[j - |a|] else c[j - |a| - |b|]
  {
  }

  lemma PartLine(lines: seq<string>, plan: Plan, give: string -> seq<Meaning>, names: seq<string>, middle: seq<string>,
                 j: nat)
    requires FitLines(lines, plan, give, names) && forall i | 0 <= i < |middle| :: BindsNone(middle[i], give, names)
    requires j < |NewLines(lines, plan) + middle + Added(lines, names, plan)|
    ensures var line := (NewLines(lines, plan) + middle + Added(lines, names, plan))[j];
            EntryOf(line, plan, names) || BindsNone(line, give, names)
  {
    var kept, added := NewLines(lines, plan), Added(lines, names, plan);
    PartAt(kept, middle, added, j);
    if j < |kept| {
      NewLineAt(lines, plan, j);
      assert FitsLine(lines[j], plan, give, names);
      KeptLine(lines[j], plan, give, names);
    } else if j >= |kept| + |middle| {
      var name := AddedFrom(lines, names, plan, j - |kept| - |middle|);
    }
  }

  /** Every line of the rewritten file is one for a name, or binds none of them. */
  lemma OutputLine(text: string, names: seq<string>, values: map<string, string>, heading: seq<string>, j: nat)
    requires Keys(names, values) && Heading(heading) && j < |OutputOf(text, names, PlanOf(values), heading)|
    ensures var line := OutputOf(text, names, PlanOf(values), heading)[j];
            EntryOf(line, PlanOf(values), names) || BindsNone(line, MeaningsOf, names)
  {
    var lines, plan := LinesOf(text), PlanOf(values);
    var kept := NewLines(lines, plan);
    var middle := Between(ReadText(text), kept, heading);
    FileFits(text, names, values);
    forall i | 0 <= i < |middle| ensures BindsNone(middle[i], MeaningsOf, names) {
      MiddleLine(ReadText(text), kept, heading, names, i);
    }
    PartLine(lines, plan, MeaningsOf, names, middle, j);
  }

  /** So what binds one of the names is the line of one of them. */
  lemma BoundByEntry(text: string, names: seq<string>, values: map<string, string>, heading: seq<string>, i: nat)
    returns (name: string, k: nat)
    requires Keys(names, values) && Heading(heading)
    requires var ms := FileMeanings(Updated(text, names, values, heading));
             i < |ms| && ms[i].Binding? && ms[i].name in names
    ensures name in names && k < |MeaningsOf(Entry(name, values[name]))|
    ensures FileMeanings(Updated(text, names, values, heading))[i] == MeaningsOf(Entry(name, values[name]))[k]
  {
    var output := OutputOf(text, names, PlanOf(values), heading);
    WrittenMeansItsLines(output);
    var j;
    j, k := FlatFrom(output, MeaningsOf, i);
    OutputLine(text, names, values, heading, j);
    name :| name in names && output[j] == PlanOf(values).entry(name);
  }

  lemma NameHasPart(lines: seq<string>, plan: Plan, names: seq<string>, middle: seq<string>, name: string)
    returns (j: nat)
    requires name in names
    ensures var output := NewLines(lines, plan) + middle + Added(lines, names, plan);
            j < |output| && output[j] == plan.entry(name)
  {
    var kept, added := NewLines(lines, plan), Added(lines, names, plan);
    NewLinesCount(lines, plan);
    if Seen(lines, plan, name) {
      j := SeenAt(lines, plan, name);
      NewLineAt(lines, plan, j);
    } else {
      j := AddedHas(lines, names, plan, name);
      j := |kept| + |middle| + j;
    }
    PartAt(kept, middle, added, j);
  }

  /** And each of the names has its line. */
  lemma EveryNameHasItsLine(text: string, names: seq<string>, values: map<string, string>, heading: seq<string>,
                            name: string)
    returns (j: nat)
    requires Keys(names, values) && name in names
    ensures var output := OutputOf(text, names, PlanOf(values), heading);
            j < |output| && output[j] == Entry(name, values[name])
  {
    var lines, plan := LinesOf(text), PlanOf(values);
    j := NameHasPart(lines, plan, names, Between(ReadText(text), NewLines(lines, plan), heading), name);
  }

  lemma EveryNameIsBound(text: string, names: seq<string>, values: map<string, string>, heading: seq<string>,
                         name: string)
    requires Keys(names, values) && name in names && EnvName(name)
    ensures ValuesOf(FileMeanings(Updated(text, names, values, heading)), name) != []
  {
    var output := OutputOf(text, names, PlanOf(values), heading);
    var j := EveryNameHasItsLine(text, names, values, heading, name);
    if NewlineBreaks(values[name]) {
      SafeEntryGives(name, values[name]);
    } else {
      BrokenEntryGives(name, values[name]);
    }
    WrittenMeansItsLines(output);
    var i := FlatHas(output, MeaningsOf, j, 0);
    BoundHasValue(FileMeanings(Updated(text, names, values, heading)), name, i);
  }

  /** A line that stops the loader stays in the file. */
  lemma {:induction false} ErrorsStay(lines: seq<string>, plan: Plan, give: string -> seq<Meaning>, names: seq<string>)
    requires FitLines(lines, plan, give, names) && AllFine(Flat(NewLines(lines, plan), give))
    ensures AllFine(Flat(lines, give))
  {
    if lines != [] {
      var front, line := lines[..|lines| - 1], lines[|lines| - 1];
      assert FitsLine(line, plan, give, names);
      FineConcat(Flat(NewLines(front, plan), give), give(NewLine(line, plan)));
      ErrorsStay(front, plan, give, names);
      FineConcat(Flat(front, give), give(line));
    }
  }

  // ----- what survives -----

  /** A value without line breaks but the newline and without a lookalike of an escape. */
  ghost predicate Survives(v: string) { NewlineBreaks(v) && !HasEscapeLookalike(v) }

  lemma SurvivorsAreExact(names: seq<string>, values: map<string, string>)
    requires Keys(names, values) && AllNames(names) && forall name | name in names :: Survives(values[name])
    ensures Exact(PlanOf(values), MeaningsOf, names, values)
  {
    forall name | name in names ensures MeaningsOf(PlanOf(values).entry(name)) == [Binding(name, values[name])] {
      NameIsValid(names, name);
      SafeEntryGives(name, values[name]);
      DecodeEncode(values[name]);
    }
  }

  lemma NameIsValid(names: seq<string>, name: string)
    requires AllNames(names) && name in names
    ensures EnvName(name)
  {
  }

  /** The file loads, and every name has the value that was written. */
  ghost predicate LoadsAll(text: string, names: seq<string>, values: map<string, string>, vars: map<string, string>,
                           override: bool) {
    var r := LoadOf(FileMeanings(text), vars, override);
    r.error.None? && forall name | name in names :: name in values && LookUp(r.vars, name) == Some(values[name])
  }

  /** If a name has its value after loading, some line of the names gave it that. */
  lemma LoadedFromEntry(text: string, names: seq<string>, values: map<string, string>, heading: seq<string>,
                        vars: map<string, string>, override: bool, name: string)
    returns (n: string, k: nat)
    requires Keys(names, values) && AllNames(names) && Heading(heading) && name in names && (override || name !in vars)
    requires LoadsAll(Updated(text, names, values, heading), names, values, vars, override)
    ensures n in names && k < |MeaningsOf(Entry(n, values[n]))|
    ensures MeaningsOf(Entry(n, values[n]))[k] == Binding(name, values[name])
  {
    var ms := FileMeanings(Updated(text, names, values, heading));
    NameIsValid(names, name);
    LoadedIff(ms, vars, override);
    LoadedValues(ms, vars, override, name);
    EveryNameIsBound(text, names, values, heading, name);
    var xs := ValuesOf(ms, name);
    var i := ValueFrom(ms, name, if override then |xs| - 1 else 0);
    n, k := BoundByEntry(text, names, values, heading, i);
  }

  /** What a line of the names gives to a name as its value has no line break but the newline. */
  lemma GivenHasNoBreak(names: seq<string>, values: map<string, string>, n: string, k: nat, name: string)
    requires AllNames(names) && n in names && n in values && name in values && k < |MeaningsOf(Entry(n, values[n]))|
    requires MeaningsOf(Entry(n, values[n]))[k] == Binding(name, values[name])
    ensures NewlineBreaks(values[name])
  {
    NameIsValid(names, n);
    if NewlineBreaks(values[n]) {
      SafeEntryGives(n, values[n]);
    } else {
      BrokenEntryGives(n, values[n]);
    }
  }

  lemma LoadedHasNoBreak(text: string, names: seq<string>, values: map<string, string>, heading: seq<string>,
                         vars: map<string, string>, override: bool, name: string)
    requires Keys(names, values) && AllNames(names) && Heading(heading) && name in names && (override || name !in vars)
    requires LoadsAll(Updated(text, names, values, heading), names, values, vars, override)
    ensures NewlineBreaks(values[name])
  {
    var n, k := LoadedFromEntry(text, names, values, heading, vars, override, name);
    GivenHasNoBreak(names, values, n, k, name);
  }

  lemma LoadedSurvives(text: string, names: seq<string>, values: map<string, string>, heading: seq<string>,
                       vars: map<string, string>, override: bool, name: string)
    requires Keys(names, values) && AllNames(names) && Heading(heading) && name in names
    requires forall n | n in names :: override || n !in vars
    requires LoadsAll(Updated(text, names, values, heading), names, values, vars, override)
    ensures Survives(values[name])
  {
    var n, k := LoadedFromEntry(text, names, values, heading, vars, override, name);
    LoadedHasNoBreak(text, names, values, heading, vars, override, n);
    NameIsValid(names, n);
    SafeEntryGives(n, values[n]);
    DecodeEncode(values[name]);
    LoadedHasNoBreak(text, names, values, heading, vars, override, name);
  }

  /** Variables that are written to a file and loaded from it, over the environment or where that has none
      of them, come back exactly when the file could be loaded before and every value survives: it holds
      no backslash directly followed by n, r or t and no line break but the newline. */
  lemma WrittenIsLoadedIff(text: string, names: seq<string>, values: map<string, string>, heading: seq<string>,
                           vars: map<string, string>, override: bool)
    requires Keys(names, values) && AllNames(names) && Heading(heading)
    requires forall name | name in names :: override || name !in vars
    ensures LoadsAll(Updated(text, names, values, heading), names, values, vars, override)
            <==> LoadOf(FileMeanings(text), vars, override).error.None?
                 && forall name | name in names :: Survives(values[name])
  {
    var old', new' := FileMeanings(text), FileMeanings(Updated(text, names, values, heading));
    LoadedIff(old', vars, override);
    LoadedIff(new', vars, override);
    if LoadsAll(Updated(text, names, values, heading), names, values, vars, override) {
      forall name | name in names ensures Survives(values[name]) {
        LoadedSurvives(text, names, values, heading, vars, override, name);
      }
      LoadedBefore(text, names, values, heading);
    }
    if AllFine(old') && forall name | name in names :: Survives(values[name]) {
      SurvivorsLoad(text, names, values, heading, vars, override);
    }
  }

  lemma LoadedBefore(text: string, names: seq<string>, values: map<string, string>, heading: seq<string>)
    requires Keys(names, values) && AllFine(FileMeanings(Updated(text, names, values, heading)))
    ensures AllFine(FileMeanings(text))
  {
    var lines, plan := LinesOf(text), PlanOf(values);
    var kept := NewLines(lines, plan);
    UpdatedMeans(text, names, values, heading);
    FineConcat(Flat(kept, MeaningsOf) + Flat(Between(ReadText(text), kept, heading), MeaningsOf),
               Flat(Added(lines, names, plan), MeaningsOf));
    FineConcat(Flat(kept, MeaningsOf), Flat(Between(ReadText(text), kept, heading), MeaningsOf));
    FileFits(text, names, values);
    ErrorsStay(lines, plan, MeaningsOf, names);
    FileMeansItsLines(text);
  }

  lemma SurvivorsLoad(text: string, names: seq<string>, values: map<string, string>, heading: seq<string>,
                      vars: map<string, string>, override: bool)
    requires Keys(names, values) && AllNames(names) && Heading(heading) && AllFine(FileMeanings(text))
    requires forall name | name in names :: Survives(values[name]) && (override || name !in vars)
    ensures LoadsAll(Updated(text, names, values, heading), names, values, vars, override)
  {
    var new' := FileMeanings(Updated(text, names, values, heading));
    SurvivorsAreExact(names, values);
    ExactIsRight(text, names, values, heading, "");
    LoadedIff(new', vars, override);
    forall name | name in names ensures LookUp(LoadOf(new', vars, override).vars, name) == Some(values[name]) {
      ExactIsRight(text, names, values, heading, name);
      LoadedValues(new', vars, override, name);
    }
  }

  /** Writing values that survive leaves every other variable as it is loaded. */
  lemma OthersAreKept(text: string, names: seq<string>, values: map<string, string>, heading: seq<string>,
                      vars: map<string, string>, override: bool, name: string)
    requires Keys(names, values) && AllNames(names) && Heading(heading) && name !in names
    requires LoadOf(FileMeanings(text), vars, override).error.None? && forall n | n in names :: Survives(values[n])
    ensures LookUp(LoadOf(FileMeanings(Updated(text, names, values, heading)), vars, override).vars, name)
            == LookUp(LoadOf(FileMeanings(text), vars, override).vars, name)
  {
    SurvivorsAreExact(names, values);
    ExactIsRight(text, names, values, heading, name);
    LoadedIff(FileMeanings(text), vars, override);
    LoadedValues(FileMeanings(text), vars, override, name);
    LoadedValues(FileMeanings(Updated(text, names, values, heading)), vars, override, name);
  }

  /** Without overriding, what the environment has stays, whatever the file says. */
  lemma EnvironmentWins(text: string, vars: map<string, string>, name: string)
    requires name in vars && LoadOf(FileMeanings(text), vars, false).error.None?
    ensures LookUp(LoadOf(FileMeanings(text), vars, false).vars, name) == Some(vars[name])
  {
    LoadedIff(FileMeanings(text), vars, false);
    LoadedValues(FileMeanings(text), vars, false, name);
  }

  // ----- two values that do not survive -----

  /** Text that the printer only puts between quotes. */
  predicate Plain(s: string) { OneLine(s) && forall i | 0 <= i < |s| :: s[i] != '"' && s[i] != '\\' }

  lemma {:induction false} EscapedPlain(v: string)
    requires forall i | 0 <= i < |v| :: v[i] != '"' && v[i] != '\\' && v[i] != '\n'
    ensures Escaped(v, true, true, false) == v
  {
    if v != "" {
      EscapedPlain(v[1..]);
      assert [v[0]] + v[1..] == v;
    }
  }

  lemma TwoLines(first: string, second: string)
    requires OneLine(first) && OneLine(second) && Strip(first) != "" && Strip(second) != ""
    ensures MeaningsOf(first + ['\r'] + second) == [MeaningOf(Strip(first)), MeaningOf(Strip(second))]
  {
    BreakSeparates(first, '\r', second);
    OneLineIn(first);
    OneLineIn(second);
  }

  lemma CutEntry(name: string, half: string, rest: string)
    requires EnvName(name) && Plain(half) && Plain(rest)
    ensures Entry(name, half + ['\r'] + rest) == (name + "=" + (['"'] + half)) + ['\r'] + (rest + ['"'])
  {
    var v := half + ['\r'] + rest;
    assert v[|half|] == '\r';
    BrokenIsQuoted(v);
    PlainHalves(half, rest);
    EscapedPlain(v);
  }

  lemma PlainHalves(half: string, rest: string)
    requires Plain(half) && Plain(rest)
    ensures var v := half + ['\r'] + rest; forall i | 0 <= i < |v| :: v[i] != '"' && v[i] != '\\' && v[i] != '\n'
  {
    assert forall i | 0 <= i < |half| :: half[i] != '\n';
    assert forall i | 0 <= i < |rest| :: rest[i] != '\n';
  }

  /** A carriage return cuts the line of a variable in two. */
  lemma HalfLines(name: string, half: string, rest: string)
    requires EnvName(name) && Plain(half) && Plain(rest) && rest != "" && !IsSpace(rest[0])
    ensures MeaningsOf(Entry(name, half + ['\r'] + rest))
            == [Binding(name, DecodeValue(['"'] + half)), MeaningOf(rest + ['"'])]
  {
    var first, second := name + "=" + (['"'] + half), rest + ['"'];
    CutEntry(name, half, rest);
    PreludeIsOneLine(name);
    OneLineConcat(name + "=", ['"'] + half);
    OneLineConcat(['"'], half);
    OneLineConcat(rest, ['"']);
    LineBinds(name, ['"'] + half);
    StripKeeps(second);
    TwoLines(first, second);
  }

  lemma HalfIsVerbatim(half: string)
    requires Plain(half) && half != "" && !IsSpace(half[|half| - 1])
    ensures DecodeValue(['"'] + half) == ['"'] + half
  {
    StripKeeps(['"'] + half);
  }

  /** "a", a carriage return and "b" hold no lookalike, but the loader gets a quote and "a", and then a line
      that stops it. */
  lemma CarriageReturnStopsTheLoader(name: string)
    requires EnvName(name)
    ensures var v := "a" + ['\r'] + "b";
            !HasEscapeLookalike(v) && MeaningsOf(Entry(name, v)) == [Binding(name, ['"'] + "a"), NoEquals]
  {
    HalfLines(name, "a", "b");
    HalfIsVerbatim("a");
    var line := "b" + ['"'];
    assert line[0] == 'b' && line[1] == '"' && |line| == 2;
    assert Bare(line) == line;
  }

  /** What follows the carriage return can bind another variable. */
  lemma CarriageReturnBindsAnother(name: string, other: string, value: string)
    requires EnvName(name) && EnvName(other) && Plain(value)
    ensures MeaningsOf(Entry(name, "a" + ['\r'] + (other + "=" + value)))
            == [Binding(name, ['"'] + "a"), Binding(other, DecodeValue(value + ['"']))]
  {
    var rest := other + "=" + value;
    NameIsTrimmed(other);
    PreludeIsOneLine(other);
    OneLineConcat(other + "=", value);
    assert Plain(rest) by { assert forall c | NameChar(c) :: c != '"' && c != '\\'; }
    HalfLines(name, "a", rest);
    HalfIsVerbatim("a");
    assert rest + ['"'] == other + "=" + (value + ['"']);
    StripKeeps(rest + ['"']);
    LineBinds(other, value + ['"']);
  }
}
