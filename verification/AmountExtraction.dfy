/** From labelled amounts to the amounts of an invoice: gross, net and tax are selected one after the
    other on the same list of candidates, a subtotal stands in for the net amount only if it adds up,
    and every inconsistency becomes a review reason. */
module AmountExtraction {
  import opened Common
  import opened AmountSelection
  import M = InvoiceMoney

  /** Differences up to this many cents are rounding. */
  const TOLERANCE: int := 2

  function CentsOf(value: string): Option<int> {
    match M.AmountToCents(value)
    case Cents(c) => Some(c)
    case _ => None
  }

  // ----- candidates -----

  function FieldOf(role: Role): FieldName {
    match role
    case AmountDue => GrossField
    case GrossTotal => GrossField
    case Credit => GrossField
    case NetTotal => NetField
    case Subtotal => NetField
    case TaxAmount => TaxField
    case Aside(name) => if name == "tax-rate" then TaxField else NoField
  }

  function RoleConfidence(role: Role): real {
    match role
    case AmountDue => 0.98
    case GrossTotal => 0.95
    case Credit => 0.92
    case NetTotal => 0.95
    case Subtotal => 0.84
    case TaxAmount => 0.95
    case Aside(_) => 0.0
  }

  /** What an amount on the line after its label loses in confidence. */
  const NEXT_LINE: real := 0.08

  /** An amount found next to a label, with the currency signs around it. */
  datatype Found = Found(role: Role, cents: int, prefix: string, suffix: string, nextLine: bool)

  function CandidateOf(f: Found, document: string): Candidate {
    var clash := f.prefix != "" && f.suffix != "" && f.prefix != f.suffix;
    var currency :=
      if clash then "" else if f.prefix != "" then f.prefix else if f.suffix != "" then f.suffix else document;
    var excluded :=
      if clash then CurrencyTokens
      else if f.role.Aside? then NotATotal(f.role)
      else if f.role == Credit && f.cents >= 0 then CreditSign
      else NotExcluded;
    var confidence := RoleConfidence(f.role) - (if f.nextLine then NEXT_LINE else 0.0);
    Candidate(FieldOf(f.role), f.role, M.FormatAmount(f.cents), currency,
              if confidence < 0.0 then 0.0 else confidence, excluded)
  }

  /** A candidate that may be taken is a total of its field with a readable amount and the confidence of
      its role, and a credit is negative. */
  predicate Wellformed(c: Candidate) {
    c.excluded == NotExcluded ==>
      && !c.role.Aside? && c.field == FieldOf(c.role) && CentsOf(c.value).Some?
      && (c.role == Credit ==> CentsOf(c.value).value < 0)
      && (c.confidence == RoleConfidence(c.role) || c.confidence == RoleConfidence(c.role) - NEXT_LINE)
  }

  predicate AllWellformed(cs: seq<Candidate>) { forall i | 0 <= i < |cs| :: Wellformed(cs[i]) }

  /** The text of a candidate is its amount printed again, so it is readable whatever was parsed. */
  lemma CandidateIsWellformed(text: string, role: Role, prefix: string, suffix: string, nextLine: bool,
                              document: string)
    requires CentsOf(text).Some?
    ensures var c := CandidateOf(Found(role, CentsOf(text).value, prefix, suffix, nextLine), document);
            Wellformed(c) && CentsOf(c.value) == CentsOf(text)
  {
    M.FormatAmountRoundTrip(CentsOf(text).value);
  }

  // ----- the validated subtotal -----

  const GROSS: seq<Role> := [AmountDue, GrossTotal, Credit]
  const NET: seq<Role> := [NetTotal]
  const TAX: seq<Role> := [TaxAmount]
  const SUBTOTAL: seq<Role> := [Subtotal]

  /** What becomes of the subtotals. */
  datatype Judgement = NoSubtotal | Unvalidated | Disagree | Mismatch | Valid(index: nat)

  predicate AddsUp(gross: int, net: int, tax: int) { -TOLERANCE <= gross - net - tax <= TOLERANCE }

  /** No two of them name different currencies. */
  predicate OneCurrency(a: string, b: string, c: string) {
    && (a != "" && b != "" ==> a == b) && (a != "" && c != "" ==> a == c) && (b != "" && c != "" ==> b == c)
  }

  predicate Matches(gross: Candidate, net: Candidate, tax: Candidate) {
    && CentsOf(gross.value).Some? && CentsOf(net.value).Some? && CentsOf(tax.value).Some?
    && OneCurrency(gross.currency, net.currency, tax.currency)
    && AddsUp(CentsOf(gross.value).value, CentsOf(net.value).value, CentsOf(tax.value).value)
  }

  predicate Within(o: Option<nat>, cs: seq<Candidate>) { o.Some? ==> o.value < |cs| }

  function Judge(cs: seq<Candidate>, gross: Option<nat>, tax: Option<nat>): (j: Judgement)
    requires Within(gross, cs) && Within(tax, cs)
    ensures j.Valid? ==> j.index < |cs| && OfRole(cs[j.index], NetField, SUBTOTAL, Subtotal)
  {
    var first := FirstOf(cs, NetField, SUBTOTAL, Subtotal, 0);
    if first == |cs| then NoSubtotal
    else if gross.None? || tax.None? then Unvalidated
    else if !Agree(cs, NetField, SUBTOTAL, Subtotal) then Disagree
    else if Matches(cs[gross.value], cs[first], cs[tax.value]) then Valid(first)
    else Mismatch
  }

  predicate OpenSubtotal(c: Candidate) { c.role == Subtotal && c.excluded == NotExcluded }

  function Verdict(i: nat, j: Judgement): Excluded {
    match j
    case NoSubtotal => NotExcluded
    case Unvalidated => SubtotalUnvalidated
    case Disagree => SubtotalConflict
    case Mismatch => SubtotalMismatch
    case Valid(k) => if i == k then NotExcluded else Repeated
  }

  function MarkSubtotal(c: Candidate, i: nat, j: Judgement): Candidate {
    if OpenSubtotal(c) then c.(excluded := Verdict(i, j)) else c
  }

  function MarkedSubtotals(cs: seq<Candidate>, j: Judgement): seq<Candidate> {
    seq(|cs|, i requires 0 <= i < |cs| => MarkSubtotal(cs[i], i, j))
  }

  /** The loops that mark the subtotals. */
  method MarkSubtotals(cs: array<Candidate>, j: Judgement)
    modifies cs
    ensures cs[..] == MarkedSubtotals(old(cs[..]), j)
  {
    for i := 0 to cs.Length
      invariant forall k | 0 <= k < i :: cs[k] == MarkSubtotal(old(cs[k]), k, j)
      invariant forall k | i <= k < cs.Length :: cs[k] == old(cs[k])
    {
      if OpenSubtotal(cs[i]) {
        cs[i] := cs[i].(excluded := Verdict(i, j));
      }
    }
  }

  method SelectValidatedSubtotal(cs: array<Candidate>, gross: Option<nat>, tax: Option<nat>) returns (j: Judgement)
    requires Within(gross, cs[..]) && Within(tax, cs[..])
    modifies cs
    ensures j == Judge(old(cs[..]), gross, tax) && cs[..] == MarkedSubtotals(old(cs[..]), j)
  {
    var first, agree := Survey(cs, NetField, SUBTOTAL, Subtotal);
    if first == cs.Length {
      j := NoSubtotal;
    } else if gross.None? || tax.None? {
      j := Unvalidated;
    } else if !agree {
      j := Disagree;
    } else if Matches(cs[gross.value], cs[first], cs[tax.value]) {
      j := Valid(first);
    } else {
      j := Mismatch;
    }
    MarkSubtotals(cs, j);
  }

  /** When a net total was found, every open subtotal ranks below it. */
  function Outranked(cs: seq<Candidate>): seq<Candidate> {
    seq(|cs|, i requires 0 <= i < |cs| =>
          if OpenSubtotal(cs[i]) then cs[i].(excluded := LowerThan(NetTotal)) else cs[i])
  }

  method OutrankSubtotals(cs: array<Candidate>)
    modifies cs
    ensures cs[..] == Outranked(old(cs[..]))
  {
    for i := 0 to cs.Length
      invariant forall k | 0 <= k < i :: cs[k] == Outranked(old(cs[..]))[k]
      invariant forall k | i <= k < cs.Length :: cs[k] == old(cs[k])
    {
      if OpenSubtotal(cs[i]) {
        cs[i] := cs[i].(excluded := LowerThan(NetTotal));
      }
    }
  }

  // ----- the extraction -----

  datatype Reason =
    | GrossConflict | NetConflict | TaxConflict | CreditSignAmbiguous | CurrencyConflict | CurrencyMissing
    | TaxExceedsGross | SignMismatch | ArithmeticMismatch

  /** The currency of the selected amounts; without any, that of the document. */
  datatype CurrencyField = Clash | Missing | Of(code: string) | FromDocument(codes: set<string>) | Standard

  /** Places of the selected candidates; each reason is listed once, in an order that is not modelled. */
  datatype Extraction = Extraction(
    gross: Option<nat>, net: Option<nat>, tax: Option<nat>, currency: CurrencyField, reasons: set<Reason>)

  function Chosen(s: Selection): Option<nat> { if s.Selected? then Some(s.index) else None }

  function AmountAt(cs: seq<Candidate>, o: Option<nat>): Option<int> {
    if o.Some? && o.value < |cs| then CentsOf(cs[o.value].value) else None
  }

  function CodeAt(cs: seq<Candidate>, o: Option<nat>): seq<string> {
    if o.Some? && o.value < |cs| then [cs[o.value].currency] else []
  }

  function CodesOf(cs: seq<Candidate>, gross: Option<nat>, net: Option<nat>, tax: Option<nat>): seq<string> {
    CodeAt(cs, gross) + CodeAt(cs, net) + CodeAt(cs, tax)
  }

  predicate TwoCurrencies(codes: seq<string>) {
    exists i, j :: 0 <= i < |codes| && 0 <= j < |codes| && codes[i] != "" && codes[j] != "" && codes[i] != codes[j]
  }

  function CurrencyOf(codes: seq<string>, document: set<string>): CurrencyField {
    if TwoCurrencies(codes) then Clash
    else if "" in codes then Missing
    else if codes != [] then Of(codes[0])
    else if |document| == 1 then FromDocument(document)
    else if |document| > 1 then Clash
    else Standard
  }

  /** Both amounts are there and have different signs. */
  predicate Opposite(a: Option<int>, b: Option<int>) {
    a.Some? && b.Some? && a.value != 0 && b.value != 0 && (a.value < 0) != (b.value < 0)
  }

  predicate TaxTooLarge(m: Amounts) {
    m.gross.Some? && m.tax.Some? && M.Abs(m.tax.value) > M.Abs(m.gross.value) + TOLERANCE
  }

  predicate DoesNotAddUp(m: Amounts) {
    m.gross.Some? && m.net.Some? && m.tax.Some? && !AddsUp(m.gross.value, m.net.value, m.tax.value)
  }

  predicate AnyExcluded(cs: seq<Candidate>, why: Excluded) { exists i :: 0 <= i < |cs| && cs[i].excluded == why }

  /** What was selected, before anything is checked. */
  datatype Picks = Picks(gross: Selection, net: Selection, tax: Selection, subtotal: Judgement)

  function NetChoice(p: Picks): Option<nat> {
    if p.net.Selected? then Some(p.net.index) else if p.subtotal.Valid? then Some(p.subtotal.index) else None
  }

  /** The selected amounts in cents. */
  datatype Amounts = Amounts(gross: Option<int>, net: Option<int>, tax: Option<int>)

  function AmountsOf(cs: seq<Candidate>, p: Picks): Amounts {
    Amounts(AmountAt(cs, Chosen(p.gross)), AmountAt(cs, NetChoice(p)), AmountAt(cs, Chosen(p.tax)))
  }

  /** When a reason is given. */
  predicate Raised(r: Reason, cs: seq<Candidate>, p: Picks, currency: CurrencyField, amounts: Amounts) {
    match r
    case GrossConflict => p.gross == Conflict
    case NetConflict => p.net == Conflict || p.subtotal == Disagree
    case TaxConflict => p.tax == Conflict
    case CreditSignAmbiguous => AnyExcluded(cs, CreditSign)
    case CurrencyConflict => AnyExcluded(cs, CurrencyTokens) || currency == Clash
    case CurrencyMissing => currency == Missing
    case TaxExceedsGross => TaxTooLarge(amounts)
    case SignMismatch => Opposite(amounts.gross, amounts.tax) || Opposite(amounts.gross, amounts.net)
    case ArithmeticMismatch => p.subtotal == Mismatch || DoesNotAddUp(amounts)
  }

  /** The list of reasons takes each one once. */
  method AddReason(reasons: set<Reason>, when: bool, reason: Reason) returns (more: set<Reason>)
    ensures forall r :: r in more <==> r in reasons || (when && r == reason)
  {
    more := if when then reasons + {reason} else reasons;
  }

  /** The checks on the selected amounts. */
  method CheckAmounts(before: set<Reason>, m: Amounts) returns (reasons: set<Reason>)
    ensures forall r :: r in reasons <==>
              r in before || (r == TaxExceedsGross && TaxTooLarge(m)) || (r == ArithmeticMismatch && DoesNotAddUp(m))
              || (r == SignMismatch && (Opposite(m.gross, m.tax) || Opposite(m.gross, m.net)))
  {
    reasons := AddReason(before, TaxTooLarge(m), TaxExceedsGross);
    reasons := AddReason(reasons, Opposite(m.gross, m.tax), SignMismatch);
    reasons := AddReason(reasons, Opposite(m.gross, m.net), SignMismatch);
    reasons := AddReason(reasons, DoesNotAddUp(m), ArithmeticMismatch);
  }

  /** The reasons from the selections, from the labels and from the currency. */
  method CollectReasons(cs: seq<Candidate>, p: Picks, currency: CurrencyField, amounts: Amounts)
    returns (reasons: set<Reason>)
    ensures forall r :: r in reasons <==> Raised(r, cs, p, currency, amounts)
  {
    var sign, tokens := AnyExcluded(cs, CreditSign), AnyExcluded(cs, CurrencyTokens);
    reasons := AddReason({}, p.gross == Conflict, GrossConflict);
    reasons := AddReason(reasons, p.net == Conflict || p.subtotal == Disagree, NetConflict);
    reasons := AddReason(reasons, p.tax == Conflict, TaxConflict);
    reasons := AddReason(reasons, p.subtotal == Mismatch, ArithmeticMismatch);
    reasons := AddReason(reasons, sign, CreditSignAmbiguous);
    reasons := AddReason(reasons, tokens, CurrencyConflict);
    reasons := AddReason(reasons, currency == Clash, CurrencyConflict);
    reasons := AddReason(reasons, currency == Missing, CurrencyMissing);
    reasons := CheckAmounts(reasons, amounts);
  }

  // ----- the three selections do not disturb each other -----

  /** Every field marked by its own selection, as if there were no other. */
  function MarkedByField(cs: seq<Candidate>): seq<Candidate> {
    seq(|cs|, i requires 0 <= i < |cs| =>
          match cs[i].field
          case GrossField => AfterPick(cs, GrossField, GROSS)[i]
          case NetField => AfterPick(cs, NetField, NET)[i]
          case TaxField => AfterPick(cs, TaxField, TAX)[i]
          case NoField => cs[i])
  }

  /** The selection for a field marks its candidates in `b` as it would in `a`, and no others. */
  ghost predicate OwnMarks(a: seq<Candidate>, b: seq<Candidate>, after: seq<Candidate>, field: FieldName,
                           roles: seq<Role>) {
    |a| == |b| == |after| && forall i | 0 <= i < |a| ::
      after[i].field == a[i].field && after[i] == if a[i].field == field then AfterPick(a, field, roles)[i] else b[i]
  }

  /** Selecting for a field on a list whose other fields were marked already. */
  lemma OwnFieldOnly(a: seq<Candidate>, b: seq<Candidate>, field: FieldName, roles: seq<Role>)
    requires |a| == |b| && forall i | 0 <= i < |a| :: a[i].field == b[i].field && (a[i].field == field ==> a[i] == b[i])
    ensures Pick(b, field, roles) == Pick(a, field, roles) && OwnMarks(a, b, AfterPick(b, field, roles), field, roles)
  {
    SamePick(a, b, field, roles);
    MarksAreMarks(b, field, roles);
    assert forall i | 0 <= i < |b| :: OnlyMarked(b[i], AfterPick(b, field, roles)[i]);
  }

  lemma ThreeMarks(a: seq<Candidate>, b: seq<Candidate>, c: seq<Candidate>, d: seq<Candidate>)
    requires OwnMarks(a, a, b, GrossField, GROSS) && OwnMarks(a, b, c, NetField, NET)
               && OwnMarks(a, c, d, TaxField, TAX)
    ensures d == MarkedByField(a)
  {
  }

  /** The three selections in the program's order, each on what the ones before left. */
  method SelectTotals(cs: array<Candidate>) returns (gross: Selection, net: Selection, tax: Selection)
    modifies cs
    ensures gross == Pick(old(cs[..]), GrossField, GROSS) && net == Pick(old(cs[..]), NetField, NET)
    ensures tax == Pick(old(cs[..]), TaxField, TAX) && cs[..] == MarkedByField(old(cs[..]))
  {
    ghost var a := cs[..];
    OwnFieldOnly(a, a, GrossField, GROSS);
    gross := SelectAmountRole(cs, GrossField, GROSS);
    ghost var b := cs[..];
    OwnFieldOnly(a, b, NetField, NET);
    net := SelectAmountRole(cs, NetField, NET);
    ghost var c := cs[..];
    OwnFieldOnly(a, c, TaxField, TAX);
    tax := SelectAmountRole(cs, TaxField, TAX);
    ThreeMarks(a, b, c, cs[..]);
  }

  // ----- the net amount -----

  function SubtotalOf(cs: seq<Candidate>, gross: Option<nat>, net: Selection, tax: Option<nat>): Judgement
    requires Within(gross, cs) && Within(tax, cs)
  {
    if net.Selected? then NoSubtotal else Judge(cs, gross, tax)
  }

  function AfterSubtotals(cs: seq<Candidate>, net: Selection, j: Judgement): seq<Candidate> {
    if net.Selected? then Outranked(cs) else MarkedSubtotals(cs, j)
  }

  /** With a net total the subtotals rank below it, without one a subtotal may stand in. */
  method ResolveNet(cs: array<Candidate>, gross: Option<nat>, net: Selection, tax: Option<nat>) returns (j: Judgement)
    requires Within(gross, cs[..]) && Within(tax, cs[..])
    modifies cs
    ensures j == SubtotalOf(old(cs[..]), gross, net, tax)
    ensures cs[..] == AfterSubtotals(old(cs[..]), net, j)
  {
    if net.Selected? {
      OutrankSubtotals(cs);
      j := NoSubtotal;
    } else {
      j := SelectValidatedSubtotal(cs, gross, tax);
    }
  }

  /** The subtotals are judged as on the list at the start: the selections touch none of them. */
  lemma SameJudgement(cs: seq<Candidate>, gross: Option<nat>, tax: Option<nat>)
    requires Within(gross, cs) && Within(tax, cs)
    ensures Judge(MarkedByField(cs), gross, tax) == Judge(cs, gross, tax)
  {
    var marked := MarkedByField(cs);
    MarksOfFields(cs);
    RelevantOffers(cs, marked, NetField, SUBTOTAL);
    OfferedFirst(cs, marked, NetField, SUBTOTAL, Subtotal);
    OfferedRole(cs, NetField, SUBTOTAL, Subtotal);
    var first := FirstOf(cs, NetField, SUBTOTAL, Subtotal, 0);
    assert first < |cs| ==> marked[first] == cs[first];
  }

  // ----- the whole selection -----

  ghost predicate AllMarked(a: seq<Candidate>, b: seq<Candidate>) {
    |a| == |b| && forall i | 0 <= i < |a| :: OnlyMarked(a[i], b[i])
  }

  lemma MarksOfFields(cs: seq<Candidate>)
    ensures AllMarked(cs, MarkedByField(cs))
    ensures forall i | 0 <= i < |cs| && cs[i].role == Subtotal :: MarkedByField(cs)[i] == cs[i]
  {
    MarksAreMarks(cs, GrossField, GROSS);
    MarksAreMarks(cs, NetField, NET);
    MarksAreMarks(cs, TaxField, TAX);
  }

  /** What was picked from these candidates, by the rules of the single selections. */
  function PicksOf(cs: seq<Candidate>): Picks {
    var gross, net, tax := Pick(cs, GrossField, GROSS), Pick(cs, NetField, NET), Pick(cs, TaxField, TAX);
    Picks(gross, net, tax, SubtotalOf(cs, Chosen(gross), net, Chosen(tax)))
  }

  /** The list after the whole selection. */
  function MarkedBy(cs: seq<Candidate>, p: Picks): seq<Candidate> {
    AfterSubtotals(MarkedByField(cs), p.net, p.subtotal)
  }

  /** The three selections and the subtotals; all picks are as they would be on the list at the start. */
  method PickAmounts(cs: array<Candidate>) returns (p: Picks)
    modifies cs
    ensures p == PicksOf(old(cs[..])) && cs[..] == MarkedBy(old(cs[..]), p)
  {
    ghost var start := cs[..];
    var gross, net, tax := SelectTotals(cs);
    SameJudgement(start, Chosen(gross), Chosen(tax));
    var subtotal := ResolveNet(cs, Chosen(gross), net, Chosen(tax));
    p := Picks(gross, net, tax, subtotal);
  }

  /** Marks stay marks: what a candidate says, and a reason that came with it, never change. */
  lemma OnlyMarks(cs: seq<Candidate>, p: Picks)
    ensures AllMarked(cs, MarkedBy(cs, p))
  {
    MarksOfFields(cs);
    forall i | 0 <= i < |cs| ensures OnlyMarked(cs[i], MarkedBy(cs, p)[i]) {
      assert OnlyMarked(cs[i], MarkedByField(cs)[i]);
    }
  }

  /** Among the candidates of these roles at most the chosen one is still open. */
  ghost predicate Settled(cs: seq<Candidate>, field: FieldName, roles: seq<Role>, chosen: Option<nat>) {
    && Within(chosen, cs) && forall i | 0 <= i < |cs| :: Relevant(cs[i], field, roles) <==> chosen == Some(i)
  }

  const NETS: seq<Role> := [NetTotal, Subtotal]

  /** One selection by itself; after a conflict within a single role nothing is left. */
  lemma PickSettles(cs: seq<Candidate>, field: FieldName, roles: seq<Role>)
    requires Pick(cs, field, roles) != Conflict || |roles| == 1
    ensures Settled(AfterPick(cs, field, roles), field, roles, Chosen(Pick(cs, field, roles)))
  {
  }

  /** What the step to the net amount does to one candidate. */
  lemma SubtotalMarks(b: seq<Candidate>, net: Selection, j: Judgement, i: nat)
    requires i < |b|
    ensures !OpenSubtotal(b[i]) ==> AfterSubtotals(b, net, j)[i] == b[i]
    ensures OpenSubtotal(AfterSubtotals(b, net, j)[i]) <==>
              OpenSubtotal(b[i]) && !net.Selected? && Verdict(i, j) == NotExcluded
    ensures OnlyMarked(b[i], AfterSubtotals(b, net, j)[i])
  {
  }

  /** A field without subtotals ends as its own selection left it. */
  lemma FieldSettled(cs: seq<Candidate>, p: Picks, field: FieldName, roles: seq<Role>)
    requires (field, roles) in {(GrossField, GROSS), (NetField, NET), (TaxField, TAX)}
    requires Pick(cs, field, roles) != Conflict || |roles| == 1
    ensures Settled(MarkedBy(cs, p), field, roles, Chosen(Pick(cs, field, roles)))
  {
    var after, end := AfterPick(cs, field, roles), MarkedBy(cs, p);
    PickSettles(cs, field, roles);
    MarksAreMarks(cs, field, roles);
    MarksOfFields(cs);
    forall i: nat | i < |cs| ensures Relevant(end[i], field, roles) <==> Relevant(after[i], field, roles) {
      SubtotalMarks(MarkedByField(cs), p.net, p.subtotal, i);
      assert OnlyMarked(cs[i], MarkedByField(cs)[i]) && OnlyMarked(cs[i], after[i]);
    }
  }

  /** With an open subtotal there is a verdict on it. */
  lemma SubtotalIsJudged(cs: seq<Candidate>, gross: Option<nat>, tax: Option<nat>, i: nat)
    requires Within(gross, cs) && Within(tax, cs) && i < |cs| && Wellformed(cs[i]) && OpenSubtotal(cs[i])
    ensures Verdict(i, Judge(cs, gross, tax)) == NotExcluded <==> Judge(cs, gross, tax) == Valid(i)
  {
  }

  /** The subtotal that stands in for the net amount is the only one left. */
  lemma SubtotalEnds(cs: seq<Candidate>, p: Picks, i: nat)
    requires p == PicksOf(cs) && i < |cs| && Wellformed(cs[i])
    ensures OpenSubtotal(MarkedBy(cs, p)[i]) <==> p.subtotal == Valid(i)
  {
    MarksOfFields(cs);
    assert OnlyMarked(cs[i], MarkedByField(cs)[i]);
    SubtotalMarks(MarkedByField(cs), p.net, p.subtotal, i);
    if OpenSubtotal(cs[i]) {
      SubtotalIsJudged(cs, Chosen(p.gross), Chosen(p.tax), i);
    }
  }

  lemma NetSettled(cs: seq<Candidate>, p: Picks)
    requires AllWellformed(cs) && p == PicksOf(cs)
    ensures Settled(MarkedBy(cs, p), NetField, NETS, NetChoice(p))
  {
    var end := MarkedBy(cs, p);
    FieldSettled(cs, p, NetField, NET);
    OnlyMarks(cs, p);
    forall i: nat | i < |cs| ensures Relevant(end[i], NetField, NETS) <==> NetChoice(p) == Some(i) {
      SubtotalEnds(cs, p, i);
      assert OnlyMarked(cs[i], end[i]) && Wellformed(cs[i]);
      assert Relevant(end[i], NetField, NETS) <==> Relevant(end[i], NetField, NET) || OpenSubtotal(end[i]);
    }
  }

  /** Net and tax have at most the chosen candidate left, and so has gross unless its candidates conflict. */
  lemma AllSettled(cs: seq<Candidate>)
    requires AllWellformed(cs)
    ensures var p := PicksOf(cs);
            && (p.gross != Conflict ==> Settled(MarkedBy(cs, p), GrossField, GROSS, Chosen(p.gross)))
            && Settled(MarkedBy(cs, p), NetField, NETS, NetChoice(p))
            && Settled(MarkedBy(cs, p), TaxField, TAX, Chosen(p.tax))
  {
    var p := PicksOf(cs);
    if p.gross != Conflict {
      FieldSettled(cs, p, GrossField, GROSS);
    }
    NetSettled(cs, p);
    FieldSettled(cs, p, TaxField, TAX);
  }

  /** Marks change neither amounts nor currencies nor what is found. */
  lemma MarksChangeNoFinding(a: seq<Candidate>, b: seq<Candidate>, p: Picks, currency: CurrencyField)
    requires AllMarked(a, b)
    ensures AmountsOf(b, p) == AmountsOf(a, p)
    ensures forall r, m :: Raised(r, b, p, currency, m) <==> Raised(r, a, p, currency, m)
    ensures CodesOf(b, Chosen(p.gross), NetChoice(p), Chosen(p.tax))
              == CodesOf(a, Chosen(p.gross), NetChoice(p), Chosen(p.tax))
  {
  }

  /** What an extraction comes to: what was picked, its currency, and every reason there is. */
  function ExtractionOf(cs: seq<Candidate>, document: set<string>): Extraction {
    var p := PicksOf(cs);
    var gross, net, tax := Chosen(p.gross), NetChoice(p), Chosen(p.tax);
    var currency := CurrencyOf(CodesOf(cs, gross, net, tax), document);
    Extraction(gross, net, tax, currency, ReasonsOf(cs, p, currency))
  }

  function ReasonsOf(cs: seq<Candidate>, p: Picks, currency: CurrencyField): set<Reason> {
    set r: Reason | Raised(r, cs, p, currency, AmountsOf(cs, p))
  }

  method ExtractAmounts(cs: array<Candidate>, document: set<string>) returns (e: Extraction)
    modifies cs
    ensures e == ExtractionOf(old(cs[..]), document) && cs[..] == MarkedBy(old(cs[..]), PicksOf(old(cs[..])))
  {
    ghost var start := cs[..];
    var p := PickAmounts(cs);
    OnlyMarks(start, p);
    var gross, net, tax := Chosen(p.gross), NetChoice(p), Chosen(p.tax);
    var currency := CurrencyOf(CodesOf(cs[..], gross, net, tax), document);
    MarksChangeNoFinding(start, cs[..], p, currency);
    var reasons := CollectReasons(cs[..], p, currency, AmountsOf(cs[..], p));
    e := Extraction(gross, net, tax, currency, reasons);
  }

  // ----- what an extraction without reasons means -----

  /** The selected amounts name one currency, and that is the invoice's. */
  predicate OneCode(codes: seq<string>, currency: CurrencyField) {
    forall i | 0 <= i < |codes| :: codes[i] != "" && currency == Of(codes[i])
  }

  /** Gross, net and tax fit together as far as they were found. */
  predicate AmountsFit(m: Amounts) {
    !TaxTooLarge(m) && !Opposite(m.gross, m.tax) && !Opposite(m.gross, m.net) && !DoesNotAddUp(m)
  }

  lemma CurrencyIsOne(codes: seq<string>, document: set<string>)
    ensures var currency := CurrencyOf(codes, document);
            currency != Clash && currency != Missing <==> OneCode(codes, currency) && (codes == [] ==> |document| <= 1)
  {
  }

  /** A subtotal that was accepted as net amount adds up, so it never is the cause of a mismatch. */
  lemma AcceptedSubtotalAddsUp(cs: seq<Candidate>, p: Picks)
    requires p == PicksOf(cs) && p.subtotal.Valid?
    ensures !DoesNotAddUp(AmountsOf(cs, p))
  {
    assert p.subtotal == Judge(cs, Chosen(p.gross), Chosen(p.tax));
  }

  /** No check finds anything. */
  predicate Quiet(cs: seq<Candidate>, p: Picks, currency: CurrencyField, amounts: Amounts) {
    && p.gross != Conflict && p.net != Conflict && p.tax != Conflict
    && p.subtotal != Disagree && p.subtotal != Mismatch
    && !AnyExcluded(cs, CreditSign) && !AnyExcluded(cs, CurrencyTokens)
    && currency != Clash && currency != Missing && AmountsFit(amounts)
  }

  lemma NothingRaised(cs: seq<Candidate>, p: Picks, currency: CurrencyField, m: Amounts)
    requires forall r :: !Raised(r, cs, p, currency, m)
    ensures Quiet(cs, p, currency, m)
  {
    assert !Raised(GrossConflict, cs, p, currency, m) && !Raised(NetConflict, cs, p, currency, m);
    assert !Raised(TaxConflict, cs, p, currency, m) && !Raised(CreditSignAmbiguous, cs, p, currency, m);
    assert !Raised(CurrencyConflict, cs, p, currency, m) && !Raised(CurrencyMissing, cs, p, currency, m);
    assert !Raised(TaxExceedsGross, cs, p, currency, m) && !Raised(SignMismatch, cs, p, currency, m);
    assert !Raised(ArithmeticMismatch, cs, p, currency, m);
  }

  /** There is no review reason if and only if no selection met a conflict, no subtotal was rejected, no
      candidate had an ambiguous sign or currency, the selected amounts name one currency, and gross,
      net and tax fit together. */
  lemma NoReasonIff(cs: seq<Candidate>, document: set<string>)
    ensures var e, p := ExtractionOf(cs, document), PicksOf(cs);
            e.reasons == {} <==>
              && p.gross != Conflict && p.net != Conflict && p.tax != Conflict
              && p.subtotal != Disagree && p.subtotal != Mismatch
              && !AnyExcluded(cs, CreditSign) && !AnyExcluded(cs, CurrencyTokens)
              && OneCode(CodesOf(cs, e.gross, e.net, e.tax), e.currency)
              && (CodesOf(cs, e.gross, e.net, e.tax) == [] ==> |document| <= 1)
              && AmountsFit(AmountsOf(cs, p))
  {
    var e, p := ExtractionOf(cs, document), PicksOf(cs);
    CurrencyIsOne(CodesOf(cs, e.gross, e.net, e.tax), document);
    if e.reasons == {} {
      forall r ensures !Raised(r, cs, p, e.currency, AmountsOf(cs, p)) { assert r !in e.reasons; }
      NothingRaised(cs, p, e.currency, AmountsOf(cs, p));
    } else {
      var r :| r in e.reasons;
      assert Raised(r, cs, p, e.currency, AmountsOf(cs, p));
    }
  }
}
