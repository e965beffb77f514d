/** From the lines of a document to its labelled amounts: an amount belongs to the label on its line, or
    to a label on the line before that has no amount of its own. */
module AmountLines {
  import opened Common
  import opened AmountSelection
  import opened AmountExtraction
  import opened AmountOrder
  import M = InvoiceMoney

  /** An amount in the text, with the currency signs around it; a percent sign may follow. */
  datatype Token = Token(text: string, prefix: string, suffix: string, percent: bool)

  /** A line: what its label says, the percentages and the amounts in it. */
  datatype Line = Line(role: Option<Role>, rates: seq<string>, tokens: seq<Token>)

  const TAX_RATE := Aside("tax-rate")

  // ----- the candidates of one line -----

  /** Percentages are listed next to a tax label, but they are not money. */
  function RateCandidates(line: Line): seq<Candidate> {
    if line.role == Some(TaxAmount) || line.role == Some(TAX_RATE) then
      seq(|line.rates|, i requires 0 <= i < |line.rates| =>
            Candidate(TaxField, TAX_RATE, line.rates[i], "", 0.0, Percentage))
    else []
  }

  /** The candidate that a token is under a label, unless it is a percentage or not readable as money. */
  function Reading(role: Role, t: Token, nextLine: bool, document: string): Option<Candidate> {
    if t.percent || CentsOf(t.text).None? then None
    else Some(CandidateOf(Found(role, CentsOf(t.text).value, t.prefix, t.suffix, nextLine), document))
  }

  function Reader(role: Role, nextLine: bool, document: string): Token -> Option<Candidate> {
    (t: Token) => Reading(role, t, nextLine, document)
  }

  /** What is given for the elements, in their order. */
  function Given<T, U>(s: seq<T>, give: T -> Option<U>): seq<U> {
    if s == [] then []
    else
      Given(s[..|s| - 1], give) + match give(s[|s| - 1])
                                  case None => []
                                  case Some(u) => [u]
  }

  /** The amounts of a line under a label. */
  function TokenCandidates(role: Role, tokens: seq<Token>, nextLine: bool, document: string): seq<Candidate> {
    Given(tokens, Reader(role, nextLine, document))
  }

  predicate HasMoney(line: Line) { exists i :: 0 <= i < |line.tokens| && !line.tokens[i].percent }

  /** The line looks for its amount on the next one. */
  predicate Reaches(line: Line) { line.role.Some? && line.role.value != TAX_RATE && !HasMoney(line) }

  /** What it finds there: nothing if that line has a label of its own. */
  function NextTokens(line: Line, next: Option<Line>): seq<Token> {
    if Reaches(line) && next.Some? && next.value.role.None? then next.value.tokens else []
  }

  function LineCandidates(line: Line, next: Option<Line>, document: string): seq<Candidate> {
    if line.role.None? then []
    else
      RateCandidates(line) + TokenCandidates(line.role.value, line.tokens, false, document)
      + TokenCandidates(line.role.value, NextTokens(line, next), true, document)
  }

  function First(lines: seq<Line>): Option<Line> { if lines == [] then None else Some(lines[0]) }

  /** What the lines give one after the other; `give` looks at a line and the next one. */
  function From<T>(lines: seq<Line>, give: (Line, Option<Line>) -> seq<T>): seq<T> {
    if lines == [] then [] else give(lines[0], First(lines[1..])) + From(lines[1..], give)
  }

  function Giver(document: string): (Line, Option<Line>) -> seq<Candidate> {
    (line, next) => LineCandidates(line, next, document)
  }

  /** The labelled amounts of a document; `document` is the currency that its text names, if it is one. */
  function CandidatesOf(lines: seq<Line>, document: string): seq<Candidate> { From(lines, Giver(document)) }

  // ----- the loops -----

  method CollectTokens(role: Role, tokens: seq<Token>, nextLine: bool, document: string) returns (cs: seq<Candidate>)
    ensures cs == TokenCandidates(role, tokens, nextLine, document)
  {
    ghost var read := Reader(role, nextLine, document);
    cs := [];
    for i := 0 to |tokens|
      invariant cs == Given(tokens[..i], read)
    {
      assert tokens[..i + 1][..i] == tokens[..i];
      if !tokens[i].percent {
        var cents := CentsOf(tokens[i].text);
        if cents.Some? {
          cs := cs + [CandidateOf(Found(role, cents.value, tokens[i].prefix, tokens[i].suffix, nextLine), document)];
        }
      }
    }
    assert tokens[..|tokens|] == tokens;
  }

  method CollectRates(line: Line) returns (cs: seq<Candidate>)
    ensures cs == RateCandidates(line)
  {
    cs := [];
    if line.role == Some(TaxAmount) || line.role == Some(TAX_RATE) {
      for i := 0 to |line.rates|
        invariant cs == RateCandidates(line)[..i]
      {
        cs := cs + [Candidate(TaxField, TAX_RATE, line.rates[i], "", 0.0, Percentage)];
      }
    }
  }

  /** One line of the loop. */
  method CollectLine(line: Line, next: Option<Line>, document: string) returns (cs: seq<Candidate>)
    ensures cs == LineCandidates(line, next, document)
  {
    if line.role.None? {
      return [];
    }
    var rates := CollectRates(line);
    var own := CollectTokens(line.role.value, line.tokens, false, document);
    var more := [];
    if !HasMoney(line) && line.role.value != TAX_RATE && next.Some? && next.value.role.None? {
      more := CollectTokens(line.role.value, next.value.tokens, true, document);
    }
    cs := rates + own + more;
  }

  /** The loop over the lines. */
  method AmountCandidates(lines: seq<Line>, document: string) returns (cs: seq<Candidate>)
    ensures cs == CandidatesOf(lines, document)
  {
    ghost var give := Giver(document);
    cs := [];
    for i := 0 to |lines|
      invariant cs + From(lines[i..], give) == From(lines, give)
    {
      ghost var rest := lines[i..];
      assert rest[0] == lines[i] && rest[1..] == lines[i + 1..];
      var next := if i + 1 < |lines| then Some(lines[i + 1]) else None;
      assert next == First(rest[1..]);
      var more := CollectLine(lines[i], next, document);
      Regroup(cs, more, From(rest[1..], give));
      cs := cs + more;
    }
  }

  lemma Regroup<T>(a: seq<T>, b: seq<T>, c: seq<T>)
    ensures a + b + c == a + (b + c)
  {
  }

  // ----- which candidates there are -----

  /** The amount is read under a label as this candidate; percentages and what is no money are not. */
  predicate AmountIs(role: Role, t: Token, nextLine: bool, document: string, c: Candidate) {
    !t.percent && CentsOf(t.text).Some?
    && c == CandidateOf(Found(role, CentsOf(t.text).value, t.prefix, t.suffix, nextLine), document)
  }

  predicate AmountOf(role: Role, tokens: seq<Token>, nextLine: bool, document: string, c: Candidate) {
    exists j :: 0 <= j < |tokens| && AmountIs(role, tokens[j], nextLine, document, c)
  }

  predicate AnyGives<T, U(==)>(s: seq<T>, give: T -> Option<U>, u: U) {
    exists j :: 0 <= j < |s| && give(s[j]) == Some(u)
  }

  lemma {:induction false} GivenBy<T, U>(s: seq<T>, give: T -> Option<U>, u: U)
    ensures u in Given(s, give) <==> AnyGives(s, give, u)
  {
    if s != [] {
      var front, last := s[..|s| - 1], s[|s| - 1];
      GivenBy(front, give, u);
      assert forall j | 0 <= j < |front| :: front[j] == s[j];
      if AnyGives(front, give, u) {
        var j :| 0 <= j < |front| && give(front[j]) == Some(u);
        assert give(s[j]) == Some(u);
      }
    }
  }

  lemma ReadingIs(role: Role, t: Token, nextLine: bool, document: string, c: Candidate)
    ensures Reader(role, nextLine, document)(t) == Some(c) <==> AmountIs(role, t, nextLine, document, c)
  {
  }

  lemma TokenGives(role: Role, tokens: seq<Token>, nextLine: bool, document: string, c: Candidate)
    ensures c in TokenCandidates(role, tokens, nextLine, document) <==> AmountOf(role, tokens, nextLine, document, c)
  {
    var read := Reader(role, nextLine, document);
    GivenBy(tokens, read, c);
    forall j | 0 <= j < |tokens|
      ensures read(tokens[j]) == Some(c) <==> AmountIs(role, tokens[j], nextLine, document, c)
    {
      ReadingIs(role, tokens[j], nextLine, document, c);
    }
  }

  /** A percentage next to a label of tax, an amount on a labelled line, or, where that line has none and its
      label is no tax rate, an amount on the next line if that has no label. */
  predicate GivenAt(lines: seq<Line>, i: nat, document: string, c: Candidate)
    requires i < |lines|
  {
    && lines[i].role.Some?
    && var role := lines[i].role.value;
       || (role in {TaxAmount, TAX_RATE} && c.value in lines[i].rates
           && c == Candidate(TaxField, TAX_RATE, c.value, "", 0.0, Percentage))
       || AmountOf(role, lines[i].tokens, false, document, c)
       || (role != TAX_RATE && (forall j | 0 <= j < |lines[i].tokens| :: lines[i].tokens[j].percent)
           && i + 1 < |lines| && lines[i + 1].role.None? && AmountOf(role, lines[i + 1].tokens, true, document, c))
  }

  lemma RateGives(line: Line, c: Candidate)
    ensures c in RateCandidates(line)
            <==> line.role in {Some(TaxAmount), Some(TAX_RATE)} && c.value in line.rates
                 && c == Candidate(TaxField, TAX_RATE, c.value, "", 0.0, Percentage)
  {
    if line.role in {Some(TaxAmount), Some(TAX_RATE)} && c.value in line.rates
       && c == Candidate(TaxField, TAX_RATE, c.value, "", 0.0, Percentage)
    {
      var i :| 0 <= i < |line.rates| && line.rates[i] == c.value;
      assert RateCandidates(line)[i] == c;
    }
  }

  lemma LineGives(lines: seq<Line>, document: string, c: Candidate)
    requires lines != []
    ensures c in LineCandidates(lines[0], First(lines[1..]), document) <==> GivenAt(lines, 0, document, c)
  {
    var line, next := lines[0], First(lines[1..]);
    RateGives(line, c);
    if line.role.Some? {
      TokenGives(line.role.value, line.tokens, false, document, c);
      TokenGives(line.role.value, NextTokens(line, next), true, document, c);
      assert HasMoney(line) <==> !forall j | 0 <= j < |line.tokens| :: line.tokens[j].percent;
    }
  }

  /** The candidates of a document are exactly those. */
  lemma {:induction false} GivenIff(lines: seq<Line>, document: string, c: Candidate)
    ensures c in CandidatesOf(lines, document)
            <==> exists i :: 0 <= i < |lines| && GivenAt(lines, i, document, c)
  {
    if lines != [] {
      var rest := lines[1..];
      LineGives(lines, document, c);
      GivenIff(rest, document, c);
      forall i: nat | i < |rest| ensures GivenAt(rest, i, document, c) <==> GivenAt(lines, i + 1, document, c) {}
      if i :| 0 <= i < |lines| && GivenAt(lines, i, document, c) {
        if i > 0 { assert GivenAt(rest, i - 1, document, c); }
      }
    }
  }

  // ----- which lines may move -----

  /** What stands at the end of a block of lines does not look beyond it. */
  predicate Closed(block: seq<Line>) { block != [] ==> !Reaches(block[|block| - 1]) }

  /** The line gives the same whatever follows. */
  ghost predicate Apart<T(!new)>(line: Line, give: (Line, Option<Line>) -> seq<T>) {
    forall next :: give(line, next) == give(line, None)
  }

  lemma {:induction false} ApartFrom<T(!new)>(block: seq<Line>, rest: seq<Line>, give: (Line, Option<Line>) -> seq<T>)
    requires block != [] ==> Apart(block[|block| - 1], give)
    ensures From(block + rest, give) == From(block, give) + From(rest, give)
  {
    if block == [] {
      assert block + rest == rest;
    } else {
      var all := block + rest;
      assert all[0] == block[0] && all[1..] == block[1..] + rest;
      ApartFrom(block[1..], rest, give);
      assert |block| > 1 ==> First(all[1..]) == First(block[1..]);
      Regroup(give(block[0], First(block[1..])), From(block[1..], give), From(rest, give));
    }
  }

  lemma ClosedFrom(block: seq<Line>, rest: seq<Line>, document: string)
    requires Closed(block)
    ensures CandidatesOf(block + rest, document) == CandidatesOf(block, document) + CandidatesOf(rest, document)
  {
    ApartFrom(block, rest, Giver(document));
  }

  /** A line that only carries an amount. */
  function AmountOnly(text: string): Line { Line(None, [], [Token(text, "", "EUR", false)]) }

  lemma OneToken(role: Role, text: string, nextLine: bool, document: string)
    requires CentsOf(text).Some?
    ensures TokenCandidates(role, AmountOnly(text).tokens, nextLine, document)
            == [CandidateOf(Found(role, CentsOf(text).value, "", "EUR", nextLine), document)]
  {
    var read, tokens := Reader(role, nextLine, document), AmountOnly(text).tokens;
    assert tokens[..0] == [] && Given(tokens[..0], read) == [];
    assert read(tokens[0]) == Some(CandidateOf(Found(role, CentsOf(text).value, "", "EUR", nextLine), document));
  }

  lemma {:induction false} ExtendedFrom<T>(block: seq<Line>, x: Line, give: (Line, Option<Line>) -> seq<T>,
                                           extra: seq<T>)
    requires block != [] && give(x, None) == []
    requires give(block[|block| - 1], Some(x)) == give(block[|block| - 1], None) + extra
    ensures From(block + [x], give) == From(block, give) + extra
  {
    var all := block + [x];
    assert all[0] == block[0] && all[1..] == block[1..] + [x];
    if |block| > 1 {
      assert First(all[1..]) == First(block[1..]);
      ExtendedFrom(block[1..], x, give, extra);
      Regroup(give(block[0], First(block[1..])), From(block[1..], give), extra);
    } else {
      assert all[1..] == [x];
      OneLineFrom(x, give);
      OneLineFrom(block[0], give);
      assert block == [block[0]];
    }
  }

  lemma OneLineFrom<T>(line: Line, give: (Line, Option<Line>) -> seq<T>)
    ensures From([line], give) == give(line, None)
  {
    assert [line][1..] == [] && From([], give) == [];
  }

  /** An amount alone gives nothing, but the line before it may take it. */
  lemma TakenAmount(line: Line, text: string, document: string)
    requires Reaches(line) && CentsOf(text).Some?
    ensures LineCandidates(AmountOnly(text), None, document) == []
    ensures LineCandidates(line, Some(AmountOnly(text)), document)
            == LineCandidates(line, None, document)
               + [CandidateOf(Found(line.role.value, CentsOf(text).value, "", "EUR", true), document)]
  {
    OneToken(line.role.value, text, true, document);
  }

  lemma OneMoreCandidate(block: seq<Line>, document: string)
    requires !Closed(block)
    ensures exists rest :: CandidatesOf(block + rest, document) != CandidatesOf(block, document)
              + CandidatesOf(rest, document)
  {
    var text := M.FormatAmount(100);
    M.FormatAmountRoundTrip(100);
    var x, last := AmountOnly(text), block[|block| - 1];
    var extra := CandidateOf(Found(last.role.value, CentsOf(text).value, "", "EUR", true), document);
    TakenAmount(last, text, document);
    ExtendedFrom(block, x, Giver(document), [extra]);
    var rest := [x];
    OneLineFrom(x, Giver(document));
    assert |CandidatesOf(block + rest, document)| == |CandidatesOf(block, document)| + 1;
  }

  /** A block of lines gives the same candidates whatever follows it if and only if its last line does not
      look for its amount on the next line. */
  lemma IndependentIff(block: seq<Line>, document: string)
    ensures (forall rest :: CandidatesOf(block + rest, document)
                            == CandidatesOf(block, document) + CandidatesOf(rest, document))
            <==> Closed(block)
  {
    if Closed(block) {
      forall rest ensures CandidatesOf(block + rest, document)
                          == CandidatesOf(block, document) + CandidatesOf(rest, document)
      {
        ClosedFrom(block, rest, document);
      }
    } else {
      OneMoreCandidate(block, document);
    }
  }

  // ----- blocks in another order -----

  function Flat(blocks: seq<seq<Line>>): seq<Line> {
    if blocks == [] then [] else blocks[0] + Flat(blocks[1..])
  }

  /** What the blocks hold together, without their order. */
  function Pool(blocks: seq<seq<Line>>, hold: seq<Line> -> multiset<Candidate>): multiset<Candidate> {
    if blocks == [] then multiset{} else hold(blocks[0]) + Pool(blocks[1..], hold)
  }

  function Holder(document: string): seq<Line> -> multiset<Candidate> {
    block => multiset(CandidatesOf(block, document))
  }

  lemma {:induction false} ClosedPool(blocks: seq<seq<Line>>, document: string)
    requires forall i | 0 <= i < |blocks| :: Closed(blocks[i])
    ensures multiset(CandidatesOf(Flat(blocks), document)) == Pool(blocks, Holder(document))
  {
    if blocks != [] {
      ClosedFrom(blocks[0], Flat(blocks[1..]), document);
      ClosedPool(blocks[1..], document);
    }
  }

  lemma {:induction false} PoolWithout(blocks: seq<seq<Line>>, k: nat, hold: seq<Line> -> multiset<Candidate>)
    requires k < |blocks|
    ensures Pool(blocks, hold) == hold(blocks[k]) + Pool(blocks[..k] + blocks[k + 1..], hold)
  {
    var others := blocks[..k] + blocks[k + 1..];
    if k == 0 {
      assert others == blocks[1..];
    } else {
      PoolWithout(blocks[1..], k - 1, hold);
      assert others[0] == blocks[0] && others[1..] == blocks[1..][..k - 1] + blocks[1..][k..];
    }
  }

  lemma RemoveAt<T>(s: seq<T>, k: nat)
    requires k < |s|
    ensures multiset(s) == multiset(s[..k] + s[k + 1..]) + multiset{s[k]}
  {
    assert s == s[..k] + [s[k]] + s[k + 1..];
  }

  lemma Cancel<T>(x: multiset<T>, y: multiset<T>, e: T)
    requires x + multiset{e} == y + multiset{e}
    ensures x == y
  {
    assert x == (x + multiset{e}) - multiset{e};
    assert y == (y + multiset{e}) - multiset{e};
  }

  lemma WithoutOne<T>(a: seq<T>, b: seq<T>) returns (k: nat)
    requires a != [] && multiset(a) == multiset(b)
    ensures k < |b| && b[k] == a[0] && multiset(a[1..]) == multiset(b[..k] + b[k + 1..])
  {
    assert a[0] in multiset(b);
    k :| 0 <= k < |b| && b[k] == a[0];
    RemoveAt(a, 0);
    RemoveAt(b, k);
    assert a[..0] + a[1..] == a[1..];
    Cancel(multiset(a[1..]), multiset(b[..k] + b[k + 1..]), a[0]);
  }

  lemma {:induction false} PoolHasNoOrder(a: seq<seq<Line>>, b: seq<seq<Line>>, hold: seq<Line> -> multiset<Candidate>)
    requires multiset(a) == multiset(b)
    ensures Pool(a, hold) == Pool(b, hold)
  {
    if a == [] {
      assert |b| == |multiset(b)| == 0;
    } else {
      var k := WithoutOne(a, b);
      PoolHasNoOrder(a[1..], b[..k] + b[k + 1..], hold);
      PoolWithout(b, k, hold);
    }
  }

  /** Blocks of lines whose last lines do not look beyond them may stand in any order: amounts, currency and
      review reasons are the same. */
  lemma BlocksMayMove(a: seq<seq<Line>>, b: seq<seq<Line>>, document: string, currencies: set<string>)
    requires multiset(a) == multiset(b) && forall i | 0 <= i < |a| :: Closed(a[i])
    ensures var x, y := CandidatesOf(Flat(a), document), CandidatesOf(Flat(b), document);
            && multiset(x) == multiset(y)
            && SameOutcome(x, ExtractionOf(x, currencies), y, ExtractionOf(y, currencies))
            && AmountsOf(x, PicksOf(x)) == AmountsOf(y, PicksOf(y))
  {
    forall i | 0 <= i < |b| ensures Closed(b[i]) {
      assert b[i] in multiset(a);
    }
    ClosedPool(a, document);
    ClosedPool(b, document);
    PoolHasNoOrder(a, b, Holder(document));
    ReorderingChangesNothing(CandidatesOf(Flat(a), document), CandidatesOf(Flat(b), document), currencies);
  }

  // ----- an order that matters -----

  const GROSS_LABEL := Line(Some(GrossTotal), [], [])

  function NetLine(text: string): Line { Line(Some(NetTotal), [], [Token(text, "", "EUR", false)]) }

  /** A label without an amount, a labelled amount, and an amount alone: the label finds nothing, because the
      next line has a label of its own.  With the first two lines swapped it gets the last one's amount. */
  lemma LinesThatMayNotSwap(net: string, gross: string, document: string)
    requires CentsOf(net).Some? && CentsOf(gross).Some?
    ensures CandidatesOf([GROSS_LABEL, NetLine(net), AmountOnly(gross)], document) == [NetAmount(net, document)]
    ensures CandidatesOf([NetLine(net), GROSS_LABEL, AmountOnly(gross)], document)
            == [NetAmount(net, document), GrossAmount(gross, document)]
  {
    NetLineGives(net, Some(AmountOnly(gross)), document);
    NetLineGives(net, Some(GROSS_LABEL), document);
    LabelGives(net, gross, document);
    ThreeLines(GROSS_LABEL, NetLine(net), AmountOnly(gross), document);
    ThreeLines(NetLine(net), GROSS_LABEL, AmountOnly(gross), document);
  }

  function NetAmount(net: string, document: string): Candidate
    requires CentsOf(net).Some?
  {
    CandidateOf(Found(NetTotal, CentsOf(net).value, "", "EUR", false), document)
  }

  function GrossAmount(gross: string, document: string): Candidate
    requires CentsOf(gross).Some?
  {
    CandidateOf(Found(GrossTotal, CentsOf(gross).value, "", "EUR", true), document)
  }

  /** So the first order has no gross amount and the second one has. */
  lemma SwapMakesGross(net: string, gross: string, document: string)
    requires CentsOf(net).Some? && CentsOf(gross).Some?
    ensures Pick([NetAmount(net, document)], GrossField, GROSS) == Nothing
    ensures Pick([NetAmount(net, document), GrossAmount(gross, document)], GrossField, GROSS) == Selected(1)
  {
    var n, g := NetAmount(net, document), GrossAmount(gross, document);
    assert n.field == NetField && n.role == NetTotal && g.field == GrossField && g.role == GrossTotal;
    GrossIsPicked(n, g);
  }

  lemma GrossIsPicked(n: Candidate, g: Candidate)
    requires n.field != GrossField && g.field == GrossField && g.role == GrossTotal && g.excluded == NotExcluded
    ensures Pick([n], GrossField, GROSS) == Nothing && Pick([n, g], GrossField, GROSS) == Selected(1)
  {
    var cs := [n, g];
    forall role ensures NoneOfRole([n], GrossField, GROSS, role) {}
    assert NoneOfRole(cs, GrossField, GROSS, GROSS[0]);
    assert OfRole(cs[1], GrossField, GROSS, GROSS[1]) && !NoneOfRole(cs, GrossField, GROSS, GROSS[1]);
    assert FirstRole(cs, GrossField, GROSS, 0) == FirstRole(cs, GrossField, GROSS, 1) == 1;
    assert Agree(cs, GrossField, GROSS, GrossTotal);
    assert FirstOf(cs, GrossField, GROSS, GrossTotal, 0) == 1;
  }

  lemma NetLineGives(net: string, next: Option<Line>, document: string)
    requires CentsOf(net).Some?
    ensures LineCandidates(NetLine(net), next, document) == [NetAmount(net, document)]
  {
    OneToken(NetTotal, net, false, document);
    assert !NetLine(net).tokens[0].percent;
  }

  lemma NoTokens(role: Role, nextLine: bool, document: string)
    ensures TokenCandidates(role, [], nextLine, document) == []
  {
  }

  /** The label alone gives what it finds on the next line. */
  lemma LabelLooks(next: Option<Line>, document: string)
    ensures LineCandidates(GROSS_LABEL, next, document)
            == TokenCandidates(GrossTotal, NextTokens(GROSS_LABEL, next), true, document)
  {
    NoTokens(GrossTotal, false, document);
    assert RateCandidates(GROSS_LABEL) == [];
  }

  lemma LabelGives(net: string, gross: string, document: string)
    requires CentsOf(gross).Some?
    ensures LineCandidates(GROSS_LABEL, Some(NetLine(net)), document) == []
    ensures LineCandidates(GROSS_LABEL, Some(AmountOnly(gross)), document) == [GrossAmount(gross, document)]
    ensures LineCandidates(AmountOnly(gross), None, document) == []
  {
    LabelLooks(Some(NetLine(net)), document);
    LabelLooks(Some(AmountOnly(gross)), document);
    NoTokens(GrossTotal, true, document);
    OneToken(GrossTotal, gross, true, document);
  }

  lemma ThreeLines(a: Line, b: Line, c: Line, document: string)
    ensures CandidatesOf([a, b, c], document)
            == LineCandidates(a, Some(b), document) + LineCandidates(b, Some(c), document)
               + LineCandidates(c, None, document)
  {
    ThreeFrom(a, b, c, Giver(document));
  }

  lemma ThreeFrom<T>(a: Line, b: Line, c: Line, give: (Line, Option<Line>) -> seq<T>)
    ensures From([a, b, c], give) == give(a, Some(b)) + give(b, Some(c)) + give(c, None)
  {
    assert [a, b, c][1..] == [b, c] && [b, c][1..] == [c];
    OneLineFrom(c, give);
    assert From([b, c], give) == give(b, Some(c)) + give(c, None);
    Regroup(give(a, Some(b)), give(b, Some(c)), give(c, None));
  }

  // ----- what comes from lines is well-formed -----

  lemma {:induction false} TokensWellformed(role: Role, tokens: seq<Token>, nextLine: bool, document: string)
    ensures AllWellformed(TokenCandidates(role, tokens, nextLine, document))
  {
    if tokens != [] {
      var t := tokens[|tokens| - 1];
      TokensWellformed(role, tokens[..|tokens| - 1], nextLine, document);
      if CentsOf(t.text).Some? {
        CandidateIsWellformed(t.text, role, t.prefix, t.suffix, nextLine, document);
      }
    }
  }

  lemma {:induction false} FromWellformed(lines: seq<Line>, document: string)
    ensures AllWellformed(CandidatesOf(lines, document))
  {
    if lines != [] {
      FromWellformed(lines[1..], document);
      LineWellformed(lines[0], First(lines[1..]), document);
    }
  }

  lemma LineWellformed(line: Line, next: Option<Line>, document: string)
    ensures AllWellformed(LineCandidates(line, next, document))
  {
    if line.role.Some? {
      TokensWellformed(line.role.value, line.tokens, false, document);
      TokensWellformed(line.role.value, NextTokens(line, next), true, document);
    }
  }

  /** Whatever the lines are, an extraction from them leaves every field settled and its amounts usable. */
  lemma LinesAreSettled(lines: seq<Line>, document: string)
    ensures var cs := CandidatesOf(lines, document); var p := PicksOf(cs);
            && AllWellformed(cs) && (p.gross != Conflict ==>
                                     Settled(MarkedBy(cs, p), GrossField, GROSS, Chosen(p.gross)))
            && Settled(MarkedBy(cs, p), NetField, NETS, NetChoice(p))
            && Settled(MarkedBy(cs, p), TaxField, TAX, Chosen(p.tax))
  {
    FromWellformed(lines, document);
    AllSettled(CandidatesOf(lines, document));
  }
}
