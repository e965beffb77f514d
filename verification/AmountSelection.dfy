/** Choosing one amount among the labelled candidates of a document: the candidates are marked in place
    with the reason why they were not taken. */
module AmountSelection {
  /** What the label of an amount says; `Aside` is a discount, an advance payment, a unit price or a tax
      rate, which never is an amount of the invoice. */
  datatype Role = AmountDue | GrossTotal | Credit | NetTotal | Subtotal | TaxAmount | Aside(name: string)

  datatype FieldName = GrossField | NetField | TaxField | NoField

  /** Why a candidate is not taken. */
  datatype Excluded =
    | NotExcluded | Conflicting(role: Role) | Repeated | LowerThan(role: Role)
    | SubtotalUnvalidated | SubtotalConflict | SubtotalMismatch
    | CreditSign | CurrencyTokens | NotATotal(role: Role) | Percentage

  datatype Candidate = Candidate(field: FieldName, role: Role, value: string, currency: string, confidence: real,
                                 excluded: Excluded)

  /** What became of a field: a candidate, a conflict, or nothing. */
  datatype Selection = Selected(index: nat) | Conflict | Nothing

  predicate Same(a: Candidate, b: Candidate) { a.value == b.value && a.currency == b.currency }

  /** A candidate that may be taken for the field. */
  predicate Relevant(c: Candidate, field: FieldName, roles: seq<Role>) {
    c.field == field && c.role in roles && c.excluded == NotExcluded
  }

  predicate OfRole(c: Candidate, field: FieldName, roles: seq<Role>, role: Role) {
    Relevant(c, field, roles) && c.role == role
  }

  predicate NoneOfRole(cs: seq<Candidate>, field: FieldName, roles: seq<Role>, role: Role) {
    forall i | 0 <= i < |cs| :: !OfRole(cs[i], field, roles, role)
  }

  /** The first role, in order of priority, that some candidate has. */
  function FirstRole(cs: seq<Candidate>, field: FieldName, roles: seq<Role>, k: nat): (j: nat)
    requires k <= |roles|
    ensures k <= j <= |roles| && (j < |roles| ==> !NoneOfRole(cs, field, roles, roles[j]))
    ensures forall i | k <= i < j :: NoneOfRole(cs, field, roles, roles[i])
    decreases |roles| - k
  {
    if k == |roles| || !NoneOfRole(cs, field, roles, roles[k]) then k else FirstRole(cs, field, roles, k + 1)
  }

  /** The first candidate of the role. */
  function FirstOf(cs: seq<Candidate>, field: FieldName, roles: seq<Role>, role: Role, k: nat): (j: nat)
    requires k <= |cs|
    ensures k <= j <= |cs| && (j < |cs| ==> OfRole(cs[j], field, roles, role))
    ensures forall i | k <= i < j :: !OfRole(cs[i], field, roles, role)
    decreases |cs| - k
  {
    if k == |cs| || OfRole(cs[k], field, roles, role) then k else FirstOf(cs, field, roles, role, k + 1)
  }

  /** All candidates of the role agree in value and currency. */
  predicate Agree(cs: seq<Candidate>, field: FieldName, roles: seq<Role>, role: Role) {
    forall i, j | 0 <= i < |cs| && 0 <= j < |cs| && OfRole(cs[i], field, roles, role)
        && OfRole(cs[j], field, roles, role) ::
      Same(cs[i], cs[j])
  }

  /** How a candidate is marked. */
  function Mark(c: Candidate, i: nat, first: nat, agree: bool, field: FieldName, roles: seq<Role>,
                role: Role): Candidate {
    if !Relevant(c, field, roles) || (agree && i == first) then c
    else if c.role == role then c.(excluded := if agree then Repeated else Conflicting(role))
    else if agree then c.(excluded := LowerThan(role))
    else c
  }

  function Marked(cs: seq<Candidate>, first: nat, agree: bool, field: FieldName, roles: seq<Role>,
                  role: Role): seq<Candidate> {
    seq(|cs|, i requires 0 <= i < |cs| => Mark(cs[i], i, first, agree, field, roles, role))
  }

  /** The selection for a field. */
  function Pick(cs: seq<Candidate>, field: FieldName, roles: seq<Role>): (s: Selection)
    ensures s.Selected? ==> s.index < |cs| && Relevant(cs[s.index], field, roles)
  {
    var k := FirstRole(cs, field, roles, 0);
    if k == |roles| then Nothing
    else if Agree(cs, field, roles, roles[k]) then
      FirstIsOfRole(cs, field, roles, roles[k]);
      Selected(FirstOf(cs, field, roles, roles[k], 0))
    else Conflict
  }

  /** The candidates with the marks of that selection. */
  function AfterPick(cs: seq<Candidate>, field: FieldName, roles: seq<Role>): seq<Candidate> {
    var k := FirstRole(cs, field, roles, 0);
    if k == |roles| then cs
    else Marked(cs, FirstOf(cs, field, roles, roles[k], 0), Agree(cs, field, roles, roles[k]), field, roles, roles[k])
  }

  /** The selection with its marks, as the program makes them in place. */
  method SelectAmountRole(cs: array<Candidate>, field: FieldName, roles: seq<Role>) returns (s: Selection)
    modifies cs
    ensures s == Pick(old(cs[..]), field, roles)
    ensures cs[..] == AfterPick(old(cs[..]), field, roles)
  {
    ghost var before := cs[..];
    for k := 0 to |roles|
      invariant cs[..] == before
      invariant FirstRole(before, field, roles, 0) == FirstRole(before, field, roles, k)
    {
      var first, agree := Survey(cs, field, roles, roles[k]);
      if first < cs.Length {
        MarkAll(cs, first, agree, field, roles, roles[k]);
        return if agree then Selected(first) else Conflict;
      }
    }
    s := Nothing;
  }

  /** The first candidate of a role, and whether all of that role agree with it. */
  method Survey(cs: array<Candidate>, field: FieldName, roles: seq<Role>, role: Role) returns (first: nat, agree: bool)
    ensures first == FirstOf(cs[..], field, roles, role, 0) && agree == Agree(cs[..], field, roles, role)
    ensures first == cs.Length <==> NoneOfRole(cs[..], field, roles, role)
  {
    first := FindFirst(cs, field, roles, role);
    AgreesWithFirst(cs[..], field, roles, role, first);
    agree := AllLike(cs, field, roles, role, first);
  }

  method FindFirst(cs: array<Candidate>, field: FieldName, roles: seq<Role>, role: Role) returns (first: nat)
    ensures first == FirstOf(cs[..], field, roles, role, 0) <= cs.Length
    ensures first == cs.Length <==> NoneOfRole(cs[..], field, roles, role)
  {
    ghost var all := cs[..];
    first := 0;
    while first < cs.Length && !OfRole(cs[first], field, roles, role)
      invariant first <= cs.Length && FirstOf(all, field, roles, role, 0) == FirstOf(all, field, roles, role, first)
    {
      first := first + 1;
    }
  }

  method AllLike(cs: array<Candidate>, field: FieldName, roles: seq<Role>, role: Role, first: nat) returns (agree: bool)
    requires first <= cs.Length
    ensures agree <==> forall j | first <= j < cs.Length && OfRole(cs[j], field, roles, role) :: Same(cs[j], cs[first])
  {
    agree := true;
    for i := first to cs.Length
      invariant agree <==> forall j | first <= j < i && OfRole(cs[j], field, roles, role) :: Same(cs[j], cs[first])
    {
      if OfRole(cs[i], field, roles, role) && !Same(cs[i], cs[first]) {
        agree := false;
      }
    }
  }

  /** All of a role agree if and only if they agree with the first one. */
  lemma AgreesWithFirst(cs: seq<Candidate>, field: FieldName, roles: seq<Role>, role: Role, first: nat)
    requires first == FirstOf(cs, field, roles, role, 0)
    ensures Agree(cs, field, roles, role) <==>
              forall j | first <= j < |cs| && OfRole(cs[j], field, roles, role) :: Same(cs[j], cs[first])
  {
    if forall j | first <= j < |cs| && OfRole(cs[j], field, roles, role) :: Same(cs[j], cs[first]) {
      forall i, j | 0 <= i < |cs| && 0 <= j < |cs| && OfRole(cs[i], field, roles, role)
          && OfRole(cs[j], field, roles, role)
        ensures Same(cs[i], cs[j])
      {
        assert Same(cs[i], cs[first]) && Same(cs[j], cs[first]);
      }
    } else {
      var j :| first <= j < |cs| && OfRole(cs[j], field, roles, role) && !Same(cs[j], cs[first]);
      assert OfRole(cs[first], field, roles, role);
    }
  }

  /** The loops that mark the candidates that were not taken. */
  method MarkAll(cs: array<Candidate>, first: nat, agree: bool, field: FieldName, roles: seq<Role>, role: Role)
    modifies cs
    ensures cs[..] == Marked(old(cs[..]), first, agree, field, roles, role)
  {
    for i := 0 to cs.Length
      invariant forall j | 0 <= j < i :: cs[j] == Mark(old(cs[j]), j, first, agree, field, roles, role)
      invariant forall j | i <= j < cs.Length :: cs[j] == old(cs[j])
    {
      cs[i] := Mark(cs[i], i, first, agree, field, roles, role);
    }
  }

  /** Reasons that come with the candidate; selections give others. */
  predicate FromLabel(e: Excluded) { e.CreditSign? || e.CurrencyTokens? || e.NotATotal? || e.Percentage? }

  /** Nothing but the reason for not taking it may have changed, and that only when there was none. */
  predicate OnlyMarked(before: Candidate, after: Candidate) {
    && after == before.(excluded := after.excluded)
    && (before.excluded != NotExcluded ==> after == before)
    && (before.excluded == NotExcluded ==> !FromLabel(after.excluded))
  }

  lemma MarksAreMarks(cs: seq<Candidate>, field: FieldName, roles: seq<Role>)
    ensures var after := AfterPick(cs, field, roles);
            && |after| == |cs|
            && (forall i | 0 <= i < |cs| && !Relevant(cs[i], field, roles) :: after[i] == cs[i])
            && (forall i | 0 <= i < |cs| :: OnlyMarked(cs[i], after[i]))
  {
  }

  lemma NoRoleNoCandidate(cs: seq<Candidate>, field: FieldName, roles: seq<Role>, i: nat)
    requires i < |cs| && forall k | 0 <= k < |roles| :: NoneOfRole(cs, field, roles, roles[k])
    ensures !Relevant(cs[i], field, roles)
  {
  }

  lemma FirstIsOfRole(cs: seq<Candidate>, field: FieldName, roles: seq<Role>, role: Role)
    requires !NoneOfRole(cs, field, roles, role)
    ensures var first := FirstOf(cs, field, roles, role, 0); first < |cs| && OfRole(cs[first], field, roles, role)
  {
  }

  /** Who is left for the field. */
  ghost predicate LeftFor(s: Selection, before: seq<Candidate>, after: seq<Candidate>, field: FieldName,
                          roles: seq<Role>) {
    |after| == |before| &&
    match s
    case Selected(first) =>
      first < |before| && forall i | 0 <= i < |after| :: Relevant(after[i], field, roles) <==> i == first
    case Nothing => forall i | 0 <= i < |after| :: !Relevant(after[i], field, roles)
    case Conflict =>
      exists k :: 0 <= k < |roles| && !NoneOfRole(before, field, roles, roles[k])
          && NoneOfRole(after, field, roles, roles[k])
  }

  /** What the marks leave: after a selection the chosen candidate is the only one left for the field;
      without candidates none is; after a conflict none of the conflicting role is left.  Candidates
      of other fields and those that were already excluded are untouched, and a mark never changes what
      a candidate says. */
  lemma OneIsLeft(cs: seq<Candidate>, field: FieldName, roles: seq<Role>)
    ensures LeftFor(Pick(cs, field, roles), cs, AfterPick(cs, field, roles), field, roles)
    ensures forall i | 0 <= i < |cs| && !Relevant(cs[i], field, roles) :: AfterPick(cs, field, roles)[i] == cs[i]
    ensures forall i | 0 <= i < |cs| :: OnlyMarked(cs[i], AfterPick(cs, field, roles)[i])
  {
    MarksAreMarks(cs, field, roles);
    var k := FirstRole(cs, field, roles, 0);
    if k < |roles| {
      FirstIsOfRole(cs, field, roles, roles[k]);
    } else {
      forall i | 0 <= i < |cs| ensures !Relevant(cs[i], field, roles) {
        NoRoleNoCandidate(cs, field, roles, i);
      }
    }
  }

  // ----- what a selection depends on -----

  /** A candidate without its confidence. */
  function Bare(c: Candidate): Candidate { c.(confidence := 0.0) }

  /** What the open candidates of these roles say; order, repetition and confidence are gone. */
  function Offers(cs: seq<Candidate>, field: FieldName, roles: seq<Role>): set<Candidate> {
    set i | 0 <= i < |cs| && Relevant(cs[i], field, roles) :: Bare(cs[i])
  }

  lemma OfferedRole(cs: seq<Candidate>, field: FieldName, roles: seq<Role>, role: Role)
    ensures NoneOfRole(cs, field, roles, role) <==> forall o | o in Offers(cs, field, roles) :: o.role != role
  {
  }

  ghost predicate OneOffer(offers: set<Candidate>, role: Role) {
    forall o, p | o in offers && p in offers && o.role == p.role == role :: Same(o, p)
  }

  lemma OfferedAgreement(cs: seq<Candidate>, field: FieldName, roles: seq<Role>, role: Role)
    ensures Agree(cs, field, roles, role) <==> OneOffer(Offers(cs, field, roles), role)
  {
  }

  lemma {:induction false} OfferedFirstRole(a: seq<Candidate>, b: seq<Candidate>, field: FieldName, roles: seq<Role>,
                                            k: nat)
    requires Offers(a, field, roles) == Offers(b, field, roles) && k <= |roles|
    ensures FirstRole(a, field, roles, k) == FirstRole(b, field, roles, k)
    decreases |roles| - k
  {
    if k < |roles| {
      OfferedRole(a, field, roles, roles[k]);
      OfferedRole(b, field, roles, roles[k]);
      OfferedFirstRole(a, b, field, roles, k + 1);
    }
  }

  /** The first candidates of a role on which all agree say the same in both lists. */
  lemma OfferedFirst(a: seq<Candidate>, b: seq<Candidate>, field: FieldName, roles: seq<Role>, role: Role)
    requires Offers(a, field, roles) == Offers(b, field, roles)
    ensures Agree(a, field, roles, role) <==> Agree(b, field, roles, role)
    ensures NoneOfRole(a, field, roles, role) <==> NoneOfRole(b, field, roles, role)
    ensures !NoneOfRole(a, field, roles, role) ==>
              var i, j := FirstOf(a, field, roles, role, 0), FirstOf(b, field, roles, role, 0);
              i < |a| && j < |b| && (Agree(a, field, roles, role) ==> Bare(a[i]) == Bare(b[j]))
  {
    OfferedAgreement(a, field, roles, role);
    OfferedAgreement(b, field, roles, role);
    OfferedRole(a, field, roles, role);
    OfferedRole(b, field, roles, role);
    if !NoneOfRole(a, field, roles, role) {
      FirstIsOfRole(a, field, roles, role);
      FirstIsOfRole(b, field, roles, role);
      var x, y := a[FirstOf(a, field, roles, role, 0)], b[FirstOf(b, field, roles, role, 0)];
      assert Bare(x) in Offers(a, field, roles) && Bare(y) in Offers(b, field, roles);
    }
  }

  /** What was selected in two lists says the same; whether something was is the same. */
  predicate SamePicked(a: seq<Candidate>, s: Selection, b: seq<Candidate>, t: Selection) {
    match (s, t)
    case (Selected(i), Selected(j)) => i < |a| && j < |b| && Bare(a[i]) == Bare(b[j])
    case _ => s == t
  }

  /** A selection depends on what the candidates offer and on nothing else. */
  lemma OffersDecide(a: seq<Candidate>, b: seq<Candidate>, field: FieldName, roles: seq<Role>)
    requires Offers(a, field, roles) == Offers(b, field, roles)
    ensures SamePicked(a, Pick(a, field, roles), b, Pick(b, field, roles))
  {
    OfferedFirstRole(a, b, field, roles, 0);
    var k := FirstRole(a, field, roles, 0);
    if k < |roles| {
      OfferedFirst(a, b, field, roles, roles[k]);
    }
  }

  /** The two lists agree on the candidates of these roles, place by place. */
  predicate SameRelevant(a: seq<Candidate>, b: seq<Candidate>, field: FieldName, roles: seq<Role>) {
    |a| == |b| && forall i | 0 <= i < |a| && (Relevant(a[i], field, roles) || Relevant(b[i], field, roles)) ::
        a[i] == b[i]
  }

  lemma RelevantOffers(a: seq<Candidate>, b: seq<Candidate>, field: FieldName, roles: seq<Role>)
    requires SameRelevant(a, b, field, roles)
    ensures Offers(a, field, roles) == Offers(b, field, roles)
    ensures forall role :: FirstOf(a, field, roles, role, 0) == FirstOf(b, field, roles, role, 0)
  {
  }

  /** So lists that agree there give the same place and the same marks, whatever else they hold. */
  lemma SamePick(a: seq<Candidate>, b: seq<Candidate>, field: FieldName, roles: seq<Role>)
    requires SameRelevant(a, b, field, roles)
    ensures Pick(a, field, roles) == Pick(b, field, roles)
    ensures forall i | 0 <= i < |a| && a[i] == b[i] :: AfterPick(a, field, roles)[i] == AfterPick(b, field, roles)[i]
  {
    RelevantOffers(a, b, field, roles);
    OfferedFirstRole(a, b, field, roles, 0);
    var k := FirstRole(a, field, roles, 0);
    if k < |roles| {
      OfferedFirst(a, b, field, roles, roles[k]);
    }
  }

  // ----- the pages for OCR -----

  /** A bounded prefix of the pages and the last one. */
  function SelectOcrPages(pageCount: int, maxPages: int): (pages: seq<int>)
    ensures |pages| == if pageCount < 1 || maxPages < 1 then 0 else if pageCount <= maxPages then pageCount
              else maxPages
    ensures forall i, j | 0 <= i < j < |pages| :: pages[i] < pages[j]
    ensures forall i | 0 <= i < |pages| :: 1 <= pages[i] <= pageCount
    ensures pages != [] ==> pages[0] == 1
    ensures forall i | 0 <= i < |pages| - 1 :: pages[i] == i + 1
    ensures |pages| >= 2 ==> pages[|pages| - 1] == pageCount
  {
    if pageCount < 1 || maxPages < 1 then []
    else
      var budget := if pageCount <= maxPages then pageCount else maxPages;
      if budget == 1 then [1]
      else if pageCount <= budget then seq(pageCount, i requires 0 <= i < pageCount => i + 1)
      else seq(budget - 1, i requires 0 <= i < budget - 1 => i + 1) + [pageCount]
  }
}
