/** The secrets file as a whole: cutting its text into lines, loading the variables, and rewriting the
    lines of some of them. */
module EnvLines {
  import opened Common
  import opened EnvFile

  // ----- the text of a file -----

  /** Reading a text file turns CR LF, and CR alone, into a newline. */
  function ReadText(text: string): string {
    if text == "" then ""
    else
      var n := |text| - 1;
      var front := ReadText(text[..n]);
      if text[n] == '\n' && n > 0 && text[n - 1] == '\r' then front
      else if text[n] == '\r' then front + ['\n']
      else front + [text[n]]
  }

  /** The pieces before line breaks, and what follows the last break. */
  datatype Pieces = Pieces(front: seq<string>, last: string)

  function Cut(s: string): Pieces {
    if s == "" then Pieces([], "")
    else
      var before, c := Cut(s[..|s| - 1]), s[|s| - 1];
      if IsBreak(c) then Pieces(before.front + [before.last], "") else Pieces(before.front, before.last + [c])
  }

  /** The lines of a text that was read; after a break at the very end there is none. */
  function SplitLines(s: string): seq<string> {
    Cut(s).front + (if Cut(s).last == "" then [] else [Cut(s).last])
  }

  function LinesOf(text: string): seq<string> { SplitLines(ReadText(text)) }

  /** What the loader looks at: the trimmed lines that are not blank. */
  function Content(lines: seq<string>): seq<string> {
    if lines == [] then []
    else
      var line := Strip(lines[|lines| - 1]);
      Content(lines[..|lines| - 1]) + (if line == "" then [] else [line])
  }

  // ----- what a line means -----

  predicate NameChar(c: char) { 'A' <= c <= 'Z' || 'a' <= c <= 'z' || c == '_' || '0' <= c <= '9' }

  predicate EnvName(name: string) {
    name != "" && !('0' <= name[0] <= '9') && forall i | 0 <= i < |name| :: NameChar(name[i])
  }

  /** The place of the first equals sign, or the length. */
  function Equals(s: string): (k: nat)
    ensures k <= |s| && (k < |s| ==> s[k] == '=') && forall i | 0 <= i < k :: s[i] != '='
  {
    if s == "" || s[0] == '=' then 0 else 1 + Equals(s[1..])
  }

  /** An assignment may be marked as exported. */
  function Bare(line: string): string {
    if "export " <= line then TrimLeft(line[7..]) else line
  }

  datatype Meaning = Comment | NoEquals | BadName(name: string) | Binding(name: string, value: string)

  /** What a trimmed line that is not blank means to the loader. */
  function MeaningOf(line: string): Meaning {
    if line != "" && line[0] == '#' then Comment
    else
      var bare := Bare(line);
      var k := Equals(bare);
      if k == |bare| then NoEquals
      else if !EnvName(Strip(bare[..k])) then BadName(Strip(bare[..k]))
      else Binding(Strip(bare[..k]), DecodeValue(bare[k + 1..]))
  }

  function Meanings(content: seq<string>): seq<Meaning> {
    seq(|content|, i requires 0 <= i < |content| => MeaningOf(content[i]))
  }

  predicate Fine(m: Meaning) { m.Comment? || m.Binding? }

  // ----- loading -----

  /** The variables, the names that were loaded, and the line that stopped the loader, if one did. */
  datatype Loaded = Loaded(vars: map<string, string>, names: seq<string>, error: Option<Meaning>)

  function Assign(s: Loaded, m: Meaning, override: bool): Loaded {
    if s.error.Some? || m.Comment? then s
    else if !m.Binding? then s.(error := Some(m))
    else
      s.(vars := if override || m.name !in s.vars then s.vars[m.name := m.value] else s.vars,
         names := s.names + [m.name])
  }

  function LoadOf(ms: seq<Meaning>, vars: map<string, string>, override: bool): Loaded {
    if ms == [] then Loaded(vars, [], None)
    else Assign(LoadOf(ms[..|ms| - 1], vars, override), ms[|ms| - 1], override)
  }

  class Environment {
    var vars: map<string, string>

    constructor (vars: map<string, string>)
      ensures this.vars == vars
    {
      this.vars := vars;
    }

    /** One assignment; a line that is none stops the loader. */
    method Take(m: Meaning, override: bool, loaded: seq<string>) returns (names: seq<string>, stopped: bool)
      modifies this
      ensures var r := Assign(Loaded(old(vars), loaded, None), m, override);
              vars == r.vars && names == r.names && stopped == r.error.Some? && (stopped ==> r.error == Some(m))
    {
      names, stopped := loaded, false;
      if m.Binding? {
        if override || m.name !in vars {
          vars := vars[m.name := m.value];
        }
        names := names + [m.name];
      } else if !m.Comment? {
        stopped := true;
      }
    }

    /** The loop of the loader; a line that is no assignment raises, and what was loaded before stays. */
    method LoadEnvFile(text: Option<string>, override: bool) returns (names: Result<seq<string>, Meaning>)
      modifies this
      ensures var r := LoadOf(if text.Some? then Meanings(Content(LinesOf(text.value))) else [], old(vars), override);
              vars == r.vars && names == if r.error.Some? then Err(r.error.value) else Ok(r.names)
    {
      if text.None? {
        return Ok([]);
      }
      var lines, loaded := LinesOf(text.value), [];
      ghost var start := vars;
      for i := 0 to |lines|
        invariant LoadOf(Meanings(Content(lines[..i])), start, override) == Loaded(vars, loaded, None)
      {
        LoadStep(lines, i, start, override);
        if Strip(lines[i]) != "" {
          var stopped;
          var meaning := MeaningOf(Strip(lines[i]));
          loaded, stopped := Take(meaning, override, loaded);
          if stopped {
            LaterLinesAreSkipped(lines, i + 1, start, override);
            return Err(meaning);
          }
        }
      }
      assert lines[..|lines|] == lines;
      names := Ok(loaded);
    }
  }

  lemma ContentStep(lines: seq<string>, i: nat)
    requires i < |lines|
    ensures Content(lines[..i + 1]) == Content(lines[..i]) + (if Strip(lines[i]) == "" then [] else [Strip(lines[i])])
  {
    assert lines[..i + 1][..i] == lines[..i];
  }

  lemma LoadAppend(content: seq<string>, line: string, vars: map<string, string>, override: bool)
    ensures LoadOf(Meanings(content + [line]), vars, override)
            == Assign(LoadOf(Meanings(content), vars, override), MeaningOf(line), override)
  {
    assert Meanings(content + [line]) == Meanings(content) + [MeaningOf(line)];
  }

  /** What one more line does to what was loaded. */
  lemma LoadStep(lines: seq<string>, i: nat, vars: map<string, string>, override: bool)
    requires i < |lines|
    ensures LoadOf(Meanings(Content(lines[..i + 1])), vars, override)
            == if Strip(lines[i]) == "" then LoadOf(Meanings(Content(lines[..i])), vars, override)
               else Assign(LoadOf(Meanings(Content(lines[..i])), vars, override), MeaningOf(Strip(lines[i])), override)
  {
    ContentStep(lines, i);
    if Strip(lines[i]) != "" {
      LoadAppend(Content(lines[..i]), Strip(lines[i]), vars, override);
    } else {
      assert Content(lines[..i]) + [] == Content(lines[..i]);
    }
  }

  /** After a line that stopped the loader nothing changes. */
  lemma {:induction false} LaterLinesAreSkipped(lines: seq<string>, n: nat, vars: map<string, string>, override: bool)
    requires n <= |lines| && LoadOf(Meanings(Content(lines[..n])), vars, override).error.Some?
    ensures LoadOf(Meanings(Content(lines)), vars, override) == LoadOf(Meanings(Content(lines[..n])), vars, override)
    decreases |lines| - n
  {
    if n == |lines| {
      assert lines[..n] == lines;
    } else {
      LoadStep(lines, n, vars, override);
      LaterLinesAreSkipped(lines, n + 1, vars, override);
    }
  }

  // ----- rewriting -----

  function Entry(name: string, value: string): string { name + "=" + EncodeValue(value) }

  /** The variable whose line this is, if it is one of those to be written. */
  function Target(line: string, values: map<string, string>): Option<string> {
    var bare := Bare(Strip(line));
    var k := Equals(bare);
    if bare == "" || bare[0] == '#' || k == |bare| then None
    else if Strip(bare[..k]) in values && EnvName(Strip(bare[..k])) then Some(Strip(bare[..k]))
    else None
  }

  /** What is done to the lines: which variable a line is for, and the line that a variable gets. */
  datatype Plan = Plan(target: string -> Option<string>, entry: string -> string)

  function PlanOf(values: map<string, string>): Plan {
    Plan(line => Target(line, values), name => if name in values then Entry(name, values[name]) else "")
  }

  function NewLine(line: string, plan: Plan): string {
    if plan.target(line).Some? then plan.entry(plan.target(line).value) else line
  }

  function NewLines(lines: seq<string>, plan: Plan): seq<string> {
    if lines == [] then [] else NewLines(lines[..|lines| - 1], plan) + [NewLine(lines[|lines| - 1], plan)]
  }

  /** Some line of the file was one for this variable. */
  predicate Seen(lines: seq<string>, plan: Plan, name: string) {
    lines != [] && (Seen(lines[..|lines| - 1], plan, name) || plan.target(lines[|lines| - 1]) == Some(name))
  }

  /** The lines for the variables that had none. */
  function Added(lines: seq<string>, names: seq<string>, plan: Plan): seq<string> {
    if names == [] then []
    else
      var name := names[|names| - 1];
      Added(lines, names[..|names| - 1], plan) + (if Seen(lines, plan, name) then [] else [plan.entry(name)])
  }

  /** A blank line after text, and the heading of a new file. */
  function Between(text: string, kept: seq<string>, heading: seq<string>): seq<string> {
    (if kept != [] && Strip(kept[|kept| - 1]) != "" then [""] else []) + (if text == "" then heading else [])
  }

  function Join(lines: seq<string>): string {
    if lines == [] then "" else if |lines| == 1 then lines[0]
    else Join(lines[..|lines| - 1]) + "\n" + lines[|lines| - 1]
  }

  /** The names are the keys of a mapping in their order. */
  ghost predicate Keys(names: seq<string>, values: map<string, string>) {
    && (forall i, j | 0 <= i < j < |names| :: names[i] != names[j])
    && (forall n :: n in names <==> n in values)
  }

  /** The comments at the top of a new file. */
  predicate Heading(lines: seq<string>) {
    forall i | 0 <= i < |lines| ::
      OneLine(lines[i]) && lines[i] != "" && lines[i][0] == '#' && Strip(lines[i]) == lines[i]
  }

  /** The lines of the rewritten file. */
  function OutputOf(text: string, names: seq<string>, plan: Plan, heading: seq<string>): seq<string> {
    var lines := LinesOf(text);
    var kept := NewLines(lines, plan);
    kept + Between(ReadText(text), kept, heading) + Added(lines, names, plan)
  }

  function FileText(output: seq<string>): string { TrimRight(Join(output)) + "\n" }

  predicate AllNames(names: seq<string>) { forall i | 0 <= i < |names| :: EnvName(names[i]) }

  /** The loop over the lines that are there. */
  method Rewrite(lines: seq<string>, plan: Plan) returns (output: seq<string>, seen: set<string>)
    ensures output == NewLines(lines, plan)
    ensures forall name :: name in seen <==> Seen(lines, plan, name)
  {
    output, seen := [], {};
    for i := 0 to |lines|
      invariant output == NewLines(lines[..i], plan)
      invariant forall name :: name in seen <==> Seen(lines[..i], plan, name)
    {
      assert lines[..i + 1][..i] == lines[..i];
      var target := plan.target(lines[i]);
      if target.Some? {
        output := output + [plan.entry(target.value)];
        seen := seen + {target.value};
      } else {
        output := output + [lines[i]];
      }
    }
    assert lines[..|lines|] == lines;
  }

  /** Where the names are checked. */
  predicate Rejected(names: seq<string>, name: string) {
    exists k :: 0 <= k < |names| && name == names[k] && !EnvName(names[k]) && AllNames(names[..k])
  }

  /** The loop over the variables that had no line. */
  method AddMissing(lines: seq<string>, seen: set<string>, names: seq<string>, plan: Plan, output: seq<string>)
    returns (r: Result<seq<string>, string>)
    requires forall name :: name in seen <==> Seen(lines, plan, name)
    ensures r.Ok? ==> AllNames(names) && r.value == output + Added(lines, names, plan)
    ensures r.Err? ==> Rejected(names, r.error)
  {
    var all := output;
    for k := 0 to |names|
      invariant AllNames(names[..k]) && all == output + Added(lines, names[..k], plan)
    {
      assert names[..k + 1][..k] == names[..k];
      if !EnvName(names[k]) {
        return Err(names[k]);
      }
      if names[k] !in seen {
        all := all + [plan.entry(names[k])];
      }
    }
    assert names[..|names|] == names;
    r := Ok(all);
  }

  /** The file with these variables written; an invalid name stops it before anything is written.  No file
      counts as an empty one. */
  method UpdateEnvFile(text: string, names: seq<string>, values: map<string, string>, heading: seq<string>)
    returns (r: Result<string, string>)
    requires Keys(names, values)
    ensures r.Ok? ==> AllNames(names) && r.value == FileText(OutputOf(text, names, PlanOf(values), heading))
    ensures r.Err? ==> Rejected(names, r.error)
  {
    var lines, plan := LinesOf(text), PlanOf(values);
    var kept, seen := Rewrite(lines, plan);
    var output := kept;
    if output != [] && Strip(output[|output| - 1]) != "" {
      output := output + [""];
    }
    if ReadText(text) == "" {
      output := output + heading;
    }
    assert output == kept + Between(ReadText(text), kept, heading);
    var all := AddMissing(lines, seen, names, plan, output);
    if all.Err? {
      return Err(all.error);
    }
    r := Ok(FileText(all.value));
  }
}
