/** What the order of the candidates means for an extraction: nothing for the amounts, the currency and the
    review reasons, something for the confidence. */
module AmountOrder {
  import opened Common
  import opened AmountSelection
  import opened AmountExtraction
  import F = InvoiceFusion

  /** What a document says, whatever the order, the repetition and the confidence. */
  function Content(cs: seq<Candidate>): set<Candidate> { set i | 0 <= i < |cs| :: Bare(cs[i]) }

  lemma SameContentOffers(a: seq<Candidate>, b: seq<Candidate>, field: FieldName, roles: seq<Role>)
    requires Content(a) == Content(b)
    ensures Offers(a, field, roles) == Offers(b, field, roles)
  {
    ContentOffers(a, field, roles);
    ContentOffers(b, field, roles);
  }

  /** Whether a candidate is open for a field does not depend on its confidence. */
  lemma ContentOffers(cs: seq<Candidate>, field: FieldName, roles: seq<Role>)
    ensures Offers(cs, field, roles) == set c | c in Content(cs) && Relevant(c, field, roles)
  {
  }

  lemma SameContentExcluded(a: seq<Candidate>, b: seq<Candidate>, why: Excluded)
    requires Content(a) == Content(b) && AnyExcluded(a, why)
    ensures AnyExcluded(b, why)
  {
    var i :| 0 <= i < |a| && a[i].excluded == why;
    assert Bare(a[i]) in Content(b);
    var j :| 0 <= j < |b| && Bare(b[j]) == Bare(a[i]);
    assert b[j].excluded == why;
  }

  /** Two places hold the same amount in the same currency under the same label, or both are empty. */
  predicate SamePlace(a: seq<Candidate>, i: Option<nat>, b: seq<Candidate>, j: Option<nat>) {
    match (i, j)
    case (Some(x), Some(y)) => x < |a| && y < |b| && Bare(a[x]) == Bare(b[y])
    case _ => i == j
  }

  predicate SameJudged(a: seq<Candidate>, j: Judgement, b: seq<Candidate>, k: Judgement) {
    match (j, k)
    case (Valid(x), Valid(y)) => x < |a| && y < |b| && Bare(a[x]) == Bare(b[y])
    case _ => j == k
  }

  lemma JudgedAlike(a: seq<Candidate>, b: seq<Candidate>, gross: Option<nat>, tax: Option<nat>, gross': Option<nat>,
                    tax': Option<nat>)
    requires Content(a) == Content(b) && SamePlace(a, gross, b, gross') && SamePlace(a, tax, b, tax')
    requires Within(gross, a) && Within(tax, a) && Within(gross', b) && Within(tax', b)
    ensures SameJudged(a, Judge(a, gross, tax), b, Judge(b, gross', tax'))
  {
    SameContentOffers(a, b, NetField, SUBTOTAL);
    OfferedFirst(a, b, NetField, SUBTOTAL, Subtotal);
    var i, j := FirstOf(a, NetField, SUBTOTAL, Subtotal, 0), FirstOf(b, NetField, SUBTOTAL, Subtotal, 0);
    assert i == |a| <==> NoneOfRole(a, NetField, SUBTOTAL, Subtotal);
    assert j == |b| <==> NoneOfRole(b, NetField, SUBTOTAL, Subtotal);
    if i < |a| && gross.Some? && tax.Some? && Agree(a, NetField, SUBTOTAL, Subtotal) {
      MatchesAlike(a[gross.value], a[i], a[tax.value], b[gross'.value], b[j], b[tax'.value]);
    }
  }

  lemma MatchesAlike(gross: Candidate, net: Candidate, tax: Candidate, gross': Candidate, net': Candidate,
                     tax': Candidate)
    requires Bare(gross) == Bare(gross') && Bare(net) == Bare(net') && Bare(tax) == Bare(tax')
    ensures Matches(gross, net, tax) <==> Matches(gross', net', tax')
  {
  }

  ghost predicate PickedAlike(a: seq<Candidate>, p: Picks, b: seq<Candidate>, q: Picks) {
    && SamePicked(a, p.gross, b, q.gross) && SamePicked(a, p.net, b, q.net) && SamePicked(a, p.tax, b, q.tax)
    && SameJudged(a, p.subtotal, b, q.subtotal)
  }

  lemma PicksAlike(a: seq<Candidate>, p: Picks, b: seq<Candidate>, q: Picks)
    requires Content(a) == Content(b) && p == PicksOf(a) && q == PicksOf(b)
    ensures PickedAlike(a, p, b, q)
  {
    SameContentOffers(a, b, GrossField, GROSS);
    OffersDecide(a, b, GrossField, GROSS);
    SameContentOffers(a, b, NetField, NET);
    OffersDecide(a, b, NetField, NET);
    SameContentOffers(a, b, TaxField, TAX);
    OffersDecide(a, b, TaxField, TAX);
    JudgedAlike(a, b, Chosen(p.gross), Chosen(p.tax), Chosen(q.gross), Chosen(q.tax));
  }

  lemma PlacesAlike(a: seq<Candidate>, p: Picks, b: seq<Candidate>, q: Picks)
    requires PickedAlike(a, p, b, q)
    ensures SamePlace(a, Chosen(p.gross), b, Chosen(q.gross)) && SamePlace(a, NetChoice(p), b, NetChoice(q))
    ensures SamePlace(a, Chosen(p.tax), b, Chosen(q.tax))
    ensures Within(Chosen(p.gross), a) && Within(NetChoice(p), a) && Within(Chosen(p.tax), a)
    ensures Within(Chosen(q.gross), b) && Within(NetChoice(q), b) && Within(Chosen(q.tax), b)
  {
  }

  lemma AlikeAt(a: seq<Candidate>, i: Option<nat>, b: seq<Candidate>, j: Option<nat>)
    requires SamePlace(a, i, b, j) && Within(i, a) && Within(j, b)
    ensures AmountAt(a, i) == AmountAt(b, j) && CodeAt(a, i) == CodeAt(b, j)
  {
  }

  /** What two extractions have in common when only order, repetition and confidence differ. */
  ghost predicate SameOutcome(a: seq<Candidate>, e: Extraction, b: seq<Candidate>, f: Extraction) {
    && SamePlace(a, e.gross, b, f.gross) && SamePlace(a, e.net, b, f.net) && SamePlace(a, e.tax, b, f.tax)
    && e.currency == f.currency && e.reasons == f.reasons
  }

  /** Two documents that say the same, in whatever order and however often, give the same amounts, the
      same currency and the same review reasons. */
  lemma ContentDecides(a: seq<Candidate>, b: seq<Candidate>, document: set<string>)
    requires Content(a) == Content(b)
    ensures SameOutcome(a, ExtractionOf(a, document), b, ExtractionOf(b, document))
    ensures AmountsOf(a, PicksOf(a)) == AmountsOf(b, PicksOf(b))
  {
    var p, q := PicksOf(a), PicksOf(b);
    PicksAlike(a, p, b, q);
    OutcomeAlike(a, p, b, q, document);
  }

  lemma OutcomeAlike(a: seq<Candidate>, p: Picks, b: seq<Candidate>, q: Picks, document: set<string>)
    requires Content(a) == Content(b) && p == PicksOf(a) && q == PicksOf(b) && PickedAlike(a, p, b, q)
    ensures SameOutcome(a, ExtractionOf(a, document), b, ExtractionOf(b, document))
    ensures AmountsOf(a, p) == AmountsOf(b, q)
  {
    var e, f := ExtractionOf(a, document), ExtractionOf(b, document);
    PlacesAlike(a, p, b, q);
    AlikeAt(a, e.gross, b, f.gross);
    AlikeAt(a, e.net, b, f.net);
    AlikeAt(a, e.tax, b, f.tax);
    RaisedAlike(a, p, b, q, e.currency, AmountsOf(a, p));
  }

  lemma RaisedAlike(a: seq<Candidate>, p: Picks, b: seq<Candidate>, q: Picks, currency: CurrencyField, m: Amounts)
    requires Content(a) == Content(b) && PickedAlike(a, p, b, q)
    ensures forall r :: Raised(r, a, p, currency, m) <==> Raised(r, b, q, currency, m)
  {
    forall why ensures AnyExcluded(a, why) <==> AnyExcluded(b, why) {
      if AnyExcluded(a, why) { SameContentExcluded(a, b, why); }
      if AnyExcluded(b, why) { SameContentExcluded(b, a, why); }
    }
  }

  /** In particular the order of the candidates means nothing for them. */
  lemma ReorderingChangesNothing(a: seq<Candidate>, b: seq<Candidate>, document: set<string>)
    requires multiset(a) == multiset(b)
    ensures SameOutcome(a, ExtractionOf(a, document), b, ExtractionOf(b, document))
    ensures AmountsOf(a, PicksOf(a)) == AmountsOf(b, PicksOf(b))
  {
    forall c: Candidate ensures c in a <==> c in b {
      assert c in a <==> c in multiset(a);
      assert c in b <==> c in multiset(b);
    }
    SubContent(a, b);
    SubContent(b, a);
    ContentDecides(a, b, document);
  }

  lemma SubContent(a: seq<Candidate>, b: seq<Candidate>)
    requires forall c | c in a :: c in b
    ensures Content(a) <= Content(b)
  {
    forall o | o in Content(a) ensures o in Content(b) {
      var i :| 0 <= i < |a| && o == Bare(a[i]);
      assert a[i] in b;
    }
  }

  // ----- the confidence -----

  /** The field of a result that is filled from this candidate. */
  function FieldFrom(c: Candidate): F.Field { F.Field(c.value, c.confidence, false) }

  lemma OpenIsUsable(c: Candidate)
    requires Wellformed(c) && c.excluded == NotExcluded
    ensures c.role in GROSS ==> F.Usable(F.Gross, FieldFrom(c))
    ensures c.role == NetTotal || c.role == Subtotal ==> F.Usable(F.Net, FieldFrom(c))
    ensures c.role == TaxAmount ==> F.Usable(F.Tax, FieldFrom(c))
  {
  }

  /** The confidence of a selected amount is that of the first line that names it; whatever line that is,
      it reaches the threshold of its field. */
  lemma SelectedIsUsable(cs: seq<Candidate>)
    requires AllWellformed(cs)
    ensures var p := PicksOf(cs);
            && (p.gross.Selected? ==> F.Usable(F.Gross, FieldFrom(cs[p.gross.index])))
            && (p.tax.Selected? ==> F.Usable(F.Tax, FieldFrom(cs[p.tax.index])))
            && (NetChoice(p).Some? ==> NetChoice(p).value < |cs| && F.Usable(F.Net, FieldFrom(cs[NetChoice(p).value])))
  {
    var p := PicksOf(cs);
    if p.gross.Selected? { OpenIsUsable(cs[p.gross.index]); }
    if p.tax.Selected? { OpenIsUsable(cs[p.tax.index]); }
    if NetChoice(p).Some? {
      assert cs[NetChoice(p).value].role == NetTotal || cs[NetChoice(p).value].role == Subtotal;
      OpenIsUsable(cs[NetChoice(p).value]);
    }
  }

  /** The order can move that confidence, by what the next line costs. */
  lemma ConfidenceMovesByTheLine(a: seq<Candidate>, b: seq<Candidate>)
    requires Content(a) == Content(b) && AllWellformed(a) && AllWellformed(b) && PicksOf(a).gross.Selected?
    ensures PicksOf(b).gross.Selected?
    ensures var before, after := a[PicksOf(a).gross.index].confidence, b[PicksOf(b).gross.index].confidence;
            before == after || before == after + NEXT_LINE || after == before + NEXT_LINE
  {
    var p, q := PicksOf(a), PicksOf(b);
    PicksAlike(a, p, b, q);
    assert Bare(a[p.gross.index]).role == Bare(b[q.gross.index]).role;
    assert Wellformed(a[p.gross.index]) && Wellformed(b[q.gross.index]);
  }

  /** The same total on the line after its label and on the line of it. */
  const BELOW := Candidate(GrossField, GrossTotal, "1.00", "EUR", 0.87, NotExcluded)
  const BESIDE := Candidate(GrossField, GrossTotal, "1.00", "EUR", 0.95, NotExcluded)

  /** With these two the confidence of the gross amount is 0.87 or 0.95, as their order is. */
  lemma OrderMovesConfidence()
    ensures multiset([BELOW, BESIDE]) == multiset([BESIDE, BELOW])
    ensures Pick([BELOW, BESIDE], GrossField, GROSS) == Pick([BESIDE, BELOW], GrossField, GROSS) == Selected(0)
    ensures BELOW.confidence != BESIDE.confidence
  {
    var a, b := [BELOW, BESIDE], [BESIDE, BELOW];
    assert OfRole(a[0], GrossField, GROSS, GrossTotal) && OfRole(b[0], GrossField, GROSS, GrossTotal);
    assert NoneOfRole(a, GrossField, GROSS, GROSS[0]) && NoneOfRole(b, GrossField, GROSS, GROSS[0]);
    assert !NoneOfRole(a, GrossField, GROSS, GROSS[1]) && !NoneOfRole(b, GrossField, GROSS, GROSS[1]);
    assert FirstRole(a, GrossField, GROSS, 0) == FirstRole(a, GrossField, GROSS, 1) == 1;
    assert FirstRole(b, GrossField, GROSS, 0) == FirstRole(b, GrossField, GROSS, 1) == 1;
  }
}
