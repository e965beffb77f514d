/** What the amounts of an extraction are, said apart from how they are selected: which label wins, when the
    candidates conflict, when a subtotal stands in for the net amount, and what a found amount says. */
module AmountMeaning {
  import opened Common
  import opened AmountSelection
  import opened AmountExtraction
  import M = InvoiceMoney

  // ----- which label wins -----

  predicate Open(c: Candidate, field: FieldName) { c.excluded == NotExcluded && c.field == field }

  /** The place of a label: the amount due comes first, then the gross total, then a credit; a field of one
      label has that label in the first place. */
  function Rank(role: Role): nat {
    match role
    case AmountDue => 0
    case GrossTotal => 1
    case Credit => 2
    case NetTotal => 0
    case TaxAmount => 0
    case Subtotal => 3
    case Aside(_) => 3
  }

  predicate Ranked(c: Candidate, field: FieldName) { Open(c, field) && Rank(c.role) < 3 }

  /** No open candidate of the field has a label that comes before this one. */
  predicate Foremost(cs: seq<Candidate>, field: FieldName, i: nat)
    requires i < |cs|
  {
    Ranked(cs[i], field) && forall j | 0 <= j < |cs| && Ranked(cs[j], field) :: Rank(cs[i].role) <= Rank(cs[j].role)
  }

  /** The selection for a field: the first of the foremost candidates when they all agree, a conflict when two
      of them do not, and nothing when there is none. */
  ghost predicate Means(cs: seq<Candidate>, field: FieldName, s: Selection) {
    match s
    case Nothing => forall i | 0 <= i < |cs| :: !Ranked(cs[i], field)
    case Selected(i) =>
      && i < |cs| && Foremost(cs, field, i)
      && forall j | 0 <= j < |cs| && Foremost(cs, field, j) :: i <= j && Same(cs[j], cs[i])
    case Conflict => exists i, j :: 0 <= i < j < |cs| && Foremost(cs, field, i) && Foremost(cs, field, j)
                                    && !Same(cs[i], cs[j])
  }

  /** The labels of a field in the order of their places. */
  predicate InOrder(cs: seq<Candidate>, field: FieldName, roles: seq<Role>) {
    && (forall k | 0 <= k < |roles| :: Rank(roles[k]) == k)
    && (forall i | 0 <= i < |cs| && Open(cs[i], field) :: Rank(cs[i].role) < 3 ==>
          Rank(cs[i].role) < |roles| && roles[Rank(cs[i].role)] == cs[i].role)
    && |roles| <= 3
  }

  lemma RelevantIsRanked(cs: seq<Candidate>, field: FieldName, roles: seq<Role>, i: nat)
    requires InOrder(cs, field, roles) && i < |cs|
    ensures Relevant(cs[i], field, roles) <==> Ranked(cs[i], field)
    ensures Ranked(cs[i], field) ==> OfRole(cs[i], field, roles, roles[Rank(cs[i].role)])
  {
  }

  lemma ForemostIsOfRole(cs: seq<Candidate>, field: FieldName, roles: seq<Role>, k: nat, i: nat)
    requires InOrder(cs, field, roles) && i < |cs| && k == FirstRole(cs, field, roles, 0) < |roles|
    ensures Foremost(cs, field, i) <==> OfRole(cs[i], field, roles, roles[k])
  {
    forall j: nat | j < |cs| && Ranked(cs[j], field) ensures k <= Rank(cs[j].role) {
      RelevantIsRanked(cs, field, roles, j);
      assert !NoneOfRole(cs, field, roles, roles[Rank(cs[j].role)]);
    }
    RelevantIsRanked(cs, field, roles, i);
    FirstIsOfRole(cs, field, roles, roles[k]);
    var first := FirstOf(cs, field, roles, roles[k], 0);
    RelevantIsRanked(cs, field, roles, first);
  }

  lemma PickMeans(cs: seq<Candidate>, field: FieldName, roles: seq<Role>)
    requires InOrder(cs, field, roles)
    ensures Means(cs, field, Pick(cs, field, roles))
  {
    var k := FirstRole(cs, field, roles, 0);
    if k == |roles| {
      forall i: nat | i < |cs| ensures !Ranked(cs[i], field) {
        RelevantIsRanked(cs, field, roles, i);
        NoRoleNoCandidate(cs, field, roles, i);
      }
    } else {
      forall i: nat | i < |cs| ensures Foremost(cs, field, i) <==> OfRole(cs[i], field, roles, roles[k]) {
        ForemostIsOfRole(cs, field, roles, k, i);
      }
      FirstIsOfRole(cs, field, roles, roles[k]);
      if !Agree(cs, field, roles, roles[k]) {
        var i, j :| 0 <= i < |cs| && 0 <= j < |cs| && OfRole(cs[i], field, roles, roles[k])
                    && OfRole(cs[j], field, roles, roles[k]) && !Same(cs[i], cs[j]);
        var a, b := if i < j then i else j, if i < j then j else i;
        assert Foremost(cs, field, a) && Foremost(cs, field, b) && a < b && !Same(cs[a], cs[b]);
      }
    }
  }

  /** What a selection leaves of a candidate: the chosen one and those of other fields as they are; after a choice
      its equals as repetitions and the others of the field as ranking below it; after a conflict the rivals as
      such. */
  predicate LeftAs(cs: seq<Candidate>, field: FieldName, s: Selection, i: nat, after: Candidate)
    requires i < |cs| && (s.Selected? ==> s.index < |cs|)
  {
    match s
    case Nothing => after == cs[i]
    case Selected(k) =>
      if !Ranked(cs[i], field) || i == k then after == cs[i]
      else after == cs[i].(excluded := if Foremost(cs, field, i) then Repeated else LowerThan(cs[k].role))
    case Conflict =>
      after == if Foremost(cs, field, i) then cs[i].(excluded := Conflicting(cs[i].role)) else cs[i]
  }

  lemma MarksMean(cs: seq<Candidate>, field: FieldName, roles: seq<Role>, i: nat)
    requires InOrder(cs, field, roles) && i < |cs|
    ensures |AfterPick(cs, field, roles)| == |cs|
    ensures LeftAs(cs, field, Pick(cs, field, roles), i, AfterPick(cs, field, roles)[i])
  {
    RelevantIsRanked(cs, field, roles, i);
    var k := FirstRole(cs, field, roles, 0);
    if k == |roles| {
      NoRoleNoCandidate(cs, field, roles, i);
    } else {
      ForemostIsOfRole(cs, field, roles, k, i);
      FirstIsOfRole(cs, field, roles, roles[k]);
    }
  }

  lemma FieldInOrder(cs: seq<Candidate>, field: FieldName, roles: seq<Role>)
    requires AllWellformed(cs) && (field, roles) in {(GrossField, GROSS), (NetField, NET), (TaxField, TAX)}
    ensures InOrder(cs, field, roles)
  {
    forall i | 0 <= i < |cs| && Open(cs[i], field) && Rank(cs[i].role) < 3
      ensures Rank(cs[i].role) < |roles| && roles[Rank(cs[i].role)] == cs[i].role
    {
      assert Wellformed(cs[i]);
    }
  }

  /** The amount due outranks the gross total, which outranks a credit; net and tax have one label each. */
  lemma TotalsMean(cs: seq<Candidate>)
    requires AllWellformed(cs)
    ensures Means(cs, GrossField, PicksOf(cs).gross)
    ensures Means(cs, NetField, PicksOf(cs).net)
    ensures Means(cs, TaxField, PicksOf(cs).tax)
  {
    FieldInOrder(cs, GrossField, GROSS);
    FieldInOrder(cs, NetField, NET);
    FieldInOrder(cs, TaxField, TAX);
    PickMeans(cs, GrossField, GROSS);
    PickMeans(cs, NetField, NET);
    PickMeans(cs, TaxField, TAX);
  }

  // ----- the subtotal -----

  predicate Subtotals(cs: seq<Candidate>, i: nat)
    requires i < |cs|
  {
    Open(cs[i], NetField) && cs[i].role == Subtotal
  }

  /** The amounts are readable, differ by no more than two cents, and name one currency at most. */
  predicate Consistent(gross: Candidate, net: Candidate, tax: Candidate) {
    && CentsOf(gross.value).Some? && CentsOf(net.value).Some? && CentsOf(tax.value).Some?
    && M.Abs(CentsOf(gross.value).value - CentsOf(net.value).value - CentsOf(tax.value).value) <= 2
    && forall a, b | a in {gross.currency, net.currency, tax.currency} - {""}
                     && b in {gross.currency, net.currency, tax.currency} - {""} :: a == b
  }

  lemma MatchesIff(gross: Candidate, net: Candidate, tax: Candidate)
    ensures Matches(gross, net, tax) <==> Consistent(gross, net, tax)
  {
    var all := {gross.currency, net.currency, tax.currency} - {""};
    if Matches(gross, net, tax) {
      forall a, b | a in all && b in all ensures a == b {}
    }
    if Consistent(gross, net, tax) {
      assert gross.currency != "" ==> gross.currency in all;
      assert net.currency != "" ==> net.currency in all;
      assert tax.currency != "" ==> tax.currency in all;
    }
  }

  /** What becomes of the subtotals: one is taken exactly when gross and tax were found, all subtotals say the
      same, and it is consistent with gross and tax. */
  lemma JudgementMeans(cs: seq<Candidate>, gross: Option<nat>, tax: Option<nat>)
    requires Within(gross, cs) && Within(tax, cs)
    ensures var none := forall i | 0 <= i < |cs| :: !Subtotals(cs, i);
            var agree := forall i, j | 0 <= i < |cs| && 0 <= j < |cs| && Subtotals(cs, i) && Subtotals(cs, j) ::
                           Same(cs[i], cs[j]);
            match Judge(cs, gross, tax)
            case NoSubtotal => none
            case Unvalidated => !none && (gross == None || tax == None)
            case Disagree => gross.Some? && tax.Some? && !agree
            case Mismatch =>
              && gross.Some? && tax.Some? && agree && !none
              && forall i | 0 <= i < |cs| && Subtotals(cs, i) :: !Consistent(cs[gross.value], cs[i], cs[tax.value])
            case Valid(k) =>
              && gross.Some? && tax.Some? && agree && k < |cs| && Subtotals(cs, k)
              && (forall i | 0 <= i < k :: !Subtotals(cs, i))
              && Consistent(cs[gross.value], cs[k], cs[tax.value])
  {
    forall i: nat | i < |cs| ensures Subtotals(cs, i) <==> OfRole(cs[i], NetField, SUBTOTAL, Subtotal) {}
    var first := FirstOf(cs, NetField, SUBTOTAL, Subtotal, 0);
    if gross.Some? && tax.Some? {
      forall i: nat | i < |cs| ensures Matches(cs[gross.value], cs[i], cs[tax.value])
                                       <==> Consistent(cs[gross.value], cs[i], cs[tax.value])
      {
        MatchesIff(cs[gross.value], cs[i], cs[tax.value]);
      }
    }
  }

  // ----- the currency -----

  /** The currency that is given is that of all selected amounts; without any it is the only one that the
      document names, and without that the standard one. */
  lemma CurrencyMeans(codes: seq<string>, document: set<string>)
    ensures match CurrencyOf(codes, document)
            case Of(code) => codes != [] && code != "" && forall i | 0 <= i < |codes| :: codes[i] == code
            case Clash => (codes == [] && |document| > 1)
                          || exists a, b :: a in codes && b in codes && a != b && a != "" && b != ""
            case Missing => "" in codes && forall a, b | a in codes && b in codes :: a == b || a == "" || b == ""
            case FromDocument(all) => codes == [] && all == document && |all| == 1
            case Standard => codes == [] && document == {}
  {
    forall a, b | a in codes && b in codes && !TwoCurrencies(codes) ensures a == b || a == "" || b == "" {
      var i, j :| 0 <= i < |codes| && 0 <= j < |codes| && codes[i] == a && codes[j] == b;
    }
    if TwoCurrencies(codes) {
      var i, j :| 0 <= i < |codes| && 0 <= j < |codes| && codes[i] != "" && codes[j] != "" && codes[i] != codes[j];
      assert codes[i] in codes && codes[j] in codes;
    }
  }

  // ----- the reasons -----

  function Cents(cs: seq<Candidate>, o: Option<nat>): Option<int>
    requires Within(o, cs)
  {
    match o
    case None => None
    case Some(i) => CentsOf(cs[i].value)
  }

  /** One is below zero and the other above it. */
  predicate Across(a: Option<int>, b: Option<int>) {
    a.Some? && b.Some? && (a.value < 0 < b.value || b.value < 0 < a.value)
  }

  /** Where the extracted amounts stand: the net amount is that of the net total, or else that of the subtotal
      that stands in for it. */
  lemma PlacesMean(cs: seq<Candidate>, document: set<string>)
    ensures var e, p := ExtractionOf(cs, document), PicksOf(cs);
            && Within(e.gross, cs) && Within(e.net, cs) && Within(e.tax, cs)
            && (match p.gross case Selected(i) => e.gross == Some(i) case _ => e.gross == None)
            && (match p.tax case Selected(i) => e.tax == Some(i) case _ => e.tax == None)
            && (match p.net
                case Selected(i) => e.net == Some(i)
                case _ => e.net == if p.subtotal.Valid? then Some(p.subtotal.index) else None)
            && AmountsOf(cs, p) == Amounts(Cents(cs, e.gross), Cents(cs, e.net), Cents(cs, e.tax))
  {
  }

  /** What the checks find: a tax of more than the gross amount and two cents, gross and another amount on
      different sides of zero, a sum that is off by more than two cents. */
  lemma ChecksMean(m: Amounts)
    ensures TaxTooLarge(m) <==> m.gross.Some? && m.tax.Some? && M.Abs(m.tax.value) - M.Abs(m.gross.value) > 2
    ensures forall a: Option<int>, b: Option<int> :: Opposite(a, b) <==> Across(a, b)
    ensures DoesNotAddUp(m) <==> m.gross.Some? && m.net.Some? && m.tax.Some?
                                 && M.Abs(m.gross.value - m.net.value - m.tax.value) > 2
  {
  }

  predicate AnyBecause(cs: seq<Candidate>, why: Excluded) { exists c :: c in cs && c.excluded == why }

  /** What each reason says of the selections and of the extracted amounts. */
  predicate ReasonsAre(reasons: set<Reason>, cs: seq<Candidate>, p: Picks, currency: CurrencyField, m: Amounts) {
    && (GrossConflict in reasons <==> p.gross.Conflict?)
    && (NetConflict in reasons <==> p.net.Conflict? || p.subtotal.Disagree?)
    && (TaxConflict in reasons <==> p.tax.Conflict?)
    && (CreditSignAmbiguous in reasons <==> AnyBecause(cs, CreditSign))
    && (CurrencyConflict in reasons <==> currency.Clash? || AnyBecause(cs, CurrencyTokens))
    && (CurrencyMissing in reasons <==> currency.Missing?)
    && (TaxExceedsGross in reasons <==>
          m.gross.Some? && m.tax.Some? && M.Abs(m.tax.value) - M.Abs(m.gross.value) > 2)
    && (SignMismatch in reasons <==> Across(m.gross, m.tax) || Across(m.gross, m.net))
    && (ArithmeticMismatch in reasons <==>
          p.subtotal.Mismatch? || (m.gross.Some? && m.net.Some? && m.tax.Some?
                                   && M.Abs(m.gross.value - m.net.value - m.tax.value) > 2))
  }

  lemma RaisedAre(cs: seq<Candidate>, p: Picks, currency: CurrencyField, m: Amounts, reasons: set<Reason>)
    requires forall r :: r in reasons <==> Raised(r, cs, p, currency, m)
    ensures ReasonsAre(reasons, cs, p, currency, m)
  {
    ChecksMean(m);
    forall why: Excluded ensures AnyExcluded(cs, why) <==> AnyBecause(cs, why) {}
  }

  /** So it is with the reasons of every extraction. */
  lemma ReasonsMean(cs: seq<Candidate>, document: set<string>)
    ensures var e := ExtractionOf(cs, document);
            && Within(e.gross, cs) && Within(e.net, cs) && Within(e.tax, cs)
            && ReasonsAre(e.reasons, cs, PicksOf(cs), e.currency,
                          Amounts(Cents(cs, e.gross), Cents(cs, e.net), Cents(cs, e.tax)))
  {
    var e, p := ExtractionOf(cs, document), PicksOf(cs);
    PlacesMean(cs, document);
    RaisedAre(cs, p, e.currency, AmountsOf(cs, p), e.reasons);
  }

  // ----- one amount that was found -----

  /** The amount due is the surest, a subtotal the least sure of those that count; an amount on the next line
      is less sure, and what is no total is worth nothing. */
  lemma ConfidencesMean(f: Found, document: string)
    ensures var near, far := CandidateOf(f.(nextLine := false), document), CandidateOf(f.(nextLine := true), document);
            if f.role.Aside? then near.confidence == far.confidence == 0.0
            else near.confidence == RoleConfidence(f.role) && far.confidence == near.confidence - 0.08 > 0.75
    ensures RoleConfidence(Subtotal) < RoleConfidence(Credit) < RoleConfidence(GrossTotal) < RoleConfidence(AmountDue)
    ensures RoleConfidence(GrossTotal) == RoleConfidence(NetTotal) == RoleConfidence(TaxAmount)
  {
  }

  predicate Clashing(f: Found) { f.prefix != "" && f.suffix != "" && f.prefix != f.suffix }

  /** What a candidate says: the field of its label, the amount that was read, and why it cannot be taken, if
      it cannot: two different signs, a label of no total, or a credit that is not negative. */
  lemma CandidateMeans(f: Found, document: string)
    requires M.Abs(f.cents) < M.LIMIT
    ensures var c := CandidateOf(f, document);
            && c.role == f.role && CentsOf(c.value) == Some(f.cents)
            && (f.role in {AmountDue, GrossTotal, Credit} ==> c.field == GrossField)
            && (f.role in {NetTotal, Subtotal} ==> c.field == NetField) && (f.role == TaxAmount ==> c.field == TaxField)
            && (c.excluded == NotExcluded <==>
                  !Clashing(f) && !f.role.Aside? && !(f.role == Credit && f.cents >= 0))
            && (c.excluded == CurrencyTokens <==> Clashing(f))
  {
    M.FormatAmountRoundTrip(f.cents);
  }

  /** The currency of a candidate is named by the sign next to the amount, or else by the document; by none when
      two signs clash. */
  lemma CandidateCurrency(f: Found, document: string)
    ensures var c := CandidateOf(f, document);
            if Clashing(f) then c.currency == ""
            else
              && (f.prefix == f.suffix == "" ==> c.currency == document)
              && (f.prefix != "" ==> c.currency == f.prefix) && (f.suffix != "" ==> c.currency == f.suffix)
  {
  }
}
