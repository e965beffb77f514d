/** Fusing what was read from a document's text layer with what OCR read, field by field, and deciding
    whether the result counts as confirmed. */
module InvoiceFusion {
  import opened Common

  datatype Name = InvoiceDate | InvoiceNumber | Supplier | Gross | Net | Tax | Currency | DueDate

  const FIELDS: seq<Name> := [InvoiceDate, InvoiceNumber, Supplier, Gross, Net, Tax, Currency, DueDate]

  /** A field with its confidence; `fromSender` says that the evidence is only the sender of the mail. */
  datatype Field = Field(value: string, confidence: real, fromSender: bool)

  datatype Reason = Conflict(name: Name) | Other(text: string)

  datatype Outcome = ConflictReview | OcrFallback | OcrSupport | Agree | NativeRetained | WeakDisagreement | OcrWeak |
      Unresolved

  datatype Metadata = Metadata(
    fields: map<Name, Field>, reasons: seq<Reason>, decisions: seq<(Name, Outcome)>, confidence: real, confirmed: bool)

  ghost predicate Complete(m: Metadata) { forall n: Name :: n in m.fields }

  // ----- one field -----

  function Threshold(n: Name): real {
    match n
    case InvoiceDate => 0.85
    case InvoiceNumber => 0.75
    case Supplier => 0.55
    case Gross => 0.80
    case Net => 0.70
    case Tax => 0.70
    case Currency => 0.65
    case DueDate => 0.65
  }

  predicate OnlySender(n: Name, f: Field) { n == Supplier && f.fromSender }

  predicate Usable(n: Name, f: Field) { !OnlySender(n, f) && f.value != "" && f.confidence >= Threshold(n) }

  /** A value that can contradict another one. */
  predicate Credible(n: Name, f: Field) {
    !OnlySender(n, f) && f.value != "" && f.confidence >= if Threshold(n) < 0.75 then Threshold(n) else 0.75
  }

  predicate Contradict(n: Name, left: Field, right: Field) {
    left.value != right.value && Credible(n, left) && Credible(n, right)
  }

  const NOTHING := Field("", 0.0, false)

  function FuseField(n: Name, left: Field, right: Field, requested: bool): (Field, Outcome) {
    if left.value != "" && right.value != "" && left.value != right.value && Credible(n, left)
        && Credible(n, right) then
      (NOTHING, ConflictReview)
    else if !Usable(n, left) && Usable(n, right) then (right, if requested then OcrFallback else OcrSupport)
    else if left.value != "" && right.value != "" && left.value == right.value then (left, Agree)
    else if Usable(n, left) then (left, if right.value != "" && right.value != left.value then WeakDisagreement
                                  else NativeRetained)
    else if right.value != "" && right.confidence > left.confidence then (right, OcrWeak)
    else (left, Unresolved)
  }

  /** A usable text value is kept, or cleared because OCR credibly contradicts it; it is never replaced
      by another value.  Whatever is not empty comes from one of the two sources. */
  lemma UsableTextIsNeverOverwritten(n: Name, left: Field, right: Field, requested: bool)
    ensures var (f, outcome) := FuseField(n, left, right, requested);
            && (Usable(n, left) ==> f == left || (f == NOTHING && Contradict(n, left, right)))
            && (f.value != "" ==> f == left || f == right)
            && (outcome == ConflictReview <==> Contradict(n, left, right))
            && (Usable(n, f) <==> !Contradict(n, left, right) && (Usable(n, left) || Usable(n, right)))
  {
  }

  // ----- the whole record -----

  function AddNew(reasons: seq<Reason>, more: seq<Reason>): seq<Reason> {
    if more == [] then reasons
    else
      var before, last := AddNew(reasons, more[..|more| - 1]), more[|more| - 1];
      if last in before then before else before + [last]
  }

  /** The loop that takes over the reasons that are not there yet. */
  method ExtendReasons(reasons: seq<Reason>, more: seq<Reason>) returns (r: seq<Reason>)
    ensures r == AddNew(reasons, more)
  {
    r := reasons;
    for i := 0 to |more|
      invariant r == AddNew(reasons, more[..i])
    {
      assert more[..i + 1][..i] == more[..i];
      if more[i] !in r {
        r := r + [more[i]];
      }
    }
    assert more[..|more|] == more;
  }

  lemma {:induction false} AddNewMembers(reasons: seq<Reason>, more: seq<Reason>)
    ensures AddNew(reasons, more) == [] <==> reasons == [] && more == []
    ensures forall x :: x in AddNew(reasons, more) <==> x in reasons || x in more
  {
    if more != [] {
      AddNewMembers(reasons, more[..|more| - 1]);
      assert more == more[..|more| - 1] + [more[|more| - 1]];
    }
  }

  /** The four critical fields weighted; the rounding to four places is left out. */
  function Weighted(fields: map<Name, Field>): real
    requires forall n: Name :: n in fields
  {
    0.30 * fields[InvoiceDate].confidence + 0.20 * fields[InvoiceNumber].confidence
    + 0.30 * fields[Gross].confidence + 0.20 * fields[Supplier].confidence
  }

  predicate DateConfirmed(f: Field) { f.value != "" && f.confidence >= 0.85 }

  /** What the four critical fields need for a confirmed record. */
  predicate CriticalGood(fields: map<Name, Field>)
    requires forall n: Name :: n in fields
  {
    && DateConfirmed(fields[InvoiceDate]) && fields[InvoiceNumber].confidence >= 0.75
    && fields[Gross].confidence >= 0.80 && fields[Supplier].confidence >= 0.55
  }

  function Finalize(m: Metadata): Metadata
    requires Complete(m)
  {
    m.(confidence := Weighted(m.fields), confirmed := CriticalGood(m.fields) && m.reasons == [])
  }

  predicate FieldFused(n: Name, native: Metadata, ocr: Metadata, requested: set<Name>, f: Field,
                       decision: (Name, Outcome))
    requires Complete(native) && Complete(ocr)
  {
    var (g, outcome) := FuseField(n, native.fields[n], ocr.fields[n], n in requested);
    f == g && decision == (n, outcome)
  }

  /** The first k names of the fusion order are fused, the others as in the text result. */
  ghost predicate FieldsFused(k: nat, native: Metadata, ocr: Metadata, requested: set<Name>, fields: map<Name, Field>,
                              decisions: seq<(Name, Outcome)>)
    requires k <= |FIELDS| && Complete(native) && Complete(ocr)
  {
    && (forall n: Name :: n in fields) && |decisions| == k
    && (forall i | 0 <= i < k :: FieldFused(FIELDS[i], native, ocr, requested, fields[FIELDS[i]], decisions[i]))
    && (forall i | k <= i < |FIELDS| :: fields[FIELDS[i]] == native.fields[FIELDS[i]])
  }

  /** The conflicts of the first k names. */
  predicate ConflictsFound(k: nat, native: Metadata, ocr: Metadata, conflicts: seq<Reason>)
    requires k <= |FIELDS| && Complete(native) && Complete(ocr)
  {
    && (forall i | 0 <= i < k :: Contradict(FIELDS[i], native.fields[FIELDS[i]], ocr.fields[FIELDS[i]]) <==>
        Conflict(FIELDS[i]) in conflicts)
    && (forall i | k <= i < |FIELDS| :: Conflict(FIELDS[i]) !in conflicts)
    && (forall x | x in conflicts :: x.Conflict?)
  }

  /** The contradictions of the first k names, in the order of the fusion. */
  function ConflictsUpTo(k: nat, native: Metadata, ocr: Metadata): seq<Reason>
    requires k <= |FIELDS| && Complete(native) && Complete(ocr)
  {
    if k == 0 then []
    else
      var n := FIELDS[k - 1];
      ConflictsUpTo(k - 1, native, ocr) + (if Contradict(n, native.fields[n], ocr.fields[n]) then [Conflict(n)] else [])
  }

  lemma ConflictsStep(k: nat, native: Metadata, ocr: Metadata, conflicts: seq<Reason>)
    requires k < |FIELDS| && Complete(native) && Complete(ocr) && ConflictsFound(k, native, ocr, conflicts)
    ensures var n := FIELDS[k];
            ConflictsFound(k + 1, native, ocr,
                           if Contradict(n, native.fields[n], ocr.fields[n]) then conflicts + [Conflict(n)]
                               else conflicts)
  {
  }

  lemma {:induction false} ConflictsAreFound(k: nat, native: Metadata, ocr: Metadata)
    requires k <= |FIELDS| && Complete(native) && Complete(ocr)
    ensures ConflictsFound(k, native, ocr, ConflictsUpTo(k, native, ocr))
  {
    if k > 0 {
      ConflictsAreFound(k - 1, native, ocr);
      ConflictsStep(k - 1, native, ocr, ConflictsUpTo(k - 1, native, ocr));
    }
  }

  lemma FieldsStep(k: nat, native: Metadata, ocr: Metadata, requested: set<Name>, fields: map<Name, Field>,
                   decisions: seq<(Name, Outcome)>)
    requires k < |FIELDS| && Complete(native) && Complete(ocr)
               && FieldsFused(k, native, ocr, requested, fields, decisions)
    ensures var n := FIELDS[k];
            var (f, outcome) := FuseField(n, native.fields[n], ocr.fields[n], n in requested);
            FieldsFused(k + 1, native, ocr, requested, fields[n := f], decisions + [(n, outcome)])
  {
  }

  /** The branches for one field: what is usable in the text is kept, or cleared for a contradiction, and
      nothing comes from anywhere else. */
  method FuseOne(n: Name, left: Field, right: Field, requested: bool) returns (f: Field, outcome: Outcome)
    ensures (f, outcome) == FuseField(n, left, right, requested)
    ensures Usable(n, left) ==> f == left || (f == NOTHING && Contradict(n, left, right))
    ensures f.value != "" ==> f == left || f == right
  {
    f := left;
    if left.value != "" && right.value != "" && left.value != right.value && Credible(n, left) && Credible(n, right) {
      f := NOTHING;
      outcome := ConflictReview;
    } else if !Usable(n, left) && Usable(n, right) {
      f := right;
      outcome := if requested then OcrFallback else OcrSupport;
    } else if left.value != "" && right.value != "" && left.value == right.value {
      outcome := Agree;
    } else if Usable(n, left) {
      outcome := NativeRetained;
      if right.value != "" && right.value != left.value {
        outcome := WeakDisagreement;
      }
    } else if right.value != "" && right.confidence > left.confidence {
      f := right;
      outcome := OcrWeak;
    } else {
      outcome := Unresolved;
    }
  }

  /** The loop over the fields. */
  method FuseFields(native: Metadata, ocr: Metadata, requested: set<Name>)
    returns (fields: map<Name, Field>, decisions: seq<(Name, Outcome)>, conflicts: seq<Reason>)
    requires Complete(native) && Complete(ocr)
    ensures FieldsFused(|FIELDS|, native, ocr, requested, fields, decisions)
              && ConflictsFound(|FIELDS|, native, ocr, conflicts)
    ensures conflicts == ConflictsUpTo(|FIELDS|, native, ocr)
  {
    fields, decisions, conflicts := native.fields, [], [];
    for k := 0 to |FIELDS|
      invariant FieldsFused(k, native, ocr, requested, fields, decisions)
      invariant conflicts == ConflictsUpTo(k, native, ocr)
    {
      var n := FIELDS[k];
      FieldsStep(k, native, ocr, requested, fields, decisions);
      var f, outcome := FuseOne(n, native.fields[n], ocr.fields[n], n in requested);
      fields := fields[n := f];
      decisions := decisions + [(n, outcome)];
      if outcome == ConflictReview {
        conflicts := conflicts + [Conflict(n)];
      }
    }
    ConflictsAreFound(|FIELDS|, native, ocr);
  }

  /** The record is the fusion of these two. */
  ghost predicate FusionOf(r: Metadata, native: Metadata, ocr: Metadata, requested: set<Name>, conflicts: seq<Reason>) {
    && Complete(native) && Complete(ocr) && Complete(r)
    && FieldsFused(|FIELDS|, native, ocr, requested, r.fields, r.decisions)
        && ConflictsFound(|FIELDS|, native, ocr, conflicts)
    && r.reasons == AddNew(AddNew(native.reasons, ocr.reasons), conflicts) && r == Finalize(r)
  }

  function FusedMap(native: Metadata, ocr: Metadata, requested: set<Name>): map<Name, Field>
    requires Complete(native) && Complete(ocr)
  {
    map n | n in native.fields :: FuseField(n, native.fields[n], ocr.fields[n], n in requested).0
  }

  function DecisionsOf(native: Metadata, ocr: Metadata, requested: set<Name>): seq<(Name, Outcome)>
    requires Complete(native) && Complete(ocr)
  {
    seq(|FIELDS|, i requires 0 <= i < |FIELDS| =>
          var n := FIELDS[i]; (n, FuseField(n, native.fields[n], ocr.fields[n], n in requested).1))
  }

  /** The fused record as a function of the two sources. */
  function ChooseOf(native: Metadata, ocr: Option<Metadata>, requested: set<Name>): (r: Metadata)
    requires Complete(native) && (ocr.Some? ==> Complete(ocr.value))
    ensures Complete(r)
  {
    if ocr.None? then native
    else
      Finalize(Metadata(FusedMap(native, ocr.value, requested),
                        AddNew(AddNew(native.reasons, ocr.value.reasons), ConflictsUpTo(|FIELDS|, native, ocr.value)),
                        DecisionsOf(native, ocr.value, requested), 0.0, false))
  }

  lemma FusedMapIs(native: Metadata, ocr: Metadata, requested: set<Name>, fields: map<Name, Field>,
                   decisions: seq<(Name, Outcome)>)
    requires Complete(native) && Complete(ocr) && FieldsFused(|FIELDS|, native, ocr, requested, fields, decisions)
    ensures fields == FusedMap(native, ocr, requested) && decisions == DecisionsOf(native, ocr, requested)
  {
    var fused := FusedMap(native, ocr, requested);
    forall n: Name ensures n in fused && n in fields && fields[n] == fused[n] {
      var k := Position(n);
      assert FieldFused(FIELDS[k], native, ocr, requested, fields[FIELDS[k]], decisions[k]);
    }
    assert fields.Keys == fused.Keys;
    forall i | 0 <= i < |FIELDS| ensures decisions[i] == DecisionsOf(native, ocr, requested)[i] {
      assert FieldFused(FIELDS[i], native, ocr, requested, fields[FIELDS[i]], decisions[i]);
    }
  }

  /** Fusing text and OCR; without OCR the text result stays as it is. */
  method Choose(native: Metadata, ocr: Option<Metadata>, requested: set<Name>)
    returns (r: Metadata, ghost conflicts: seq<Reason>)
    requires Complete(native) && (ocr.Some? ==> Complete(ocr.value))
    ensures r == ChooseOf(native, ocr, requested)
    ensures ocr.None? ==> r == native
    ensures ocr.Some? ==> FusionOf(r, native, ocr.value, requested, conflicts)
  {
    if ocr.None? {
      return native, [];
    }
    var fields, decisions, found := FuseFields(native, ocr.value, requested);
    conflicts := found;
    var reasons := ExtendReasons(native.reasons, ocr.value.reasons);
    reasons := ExtendReasons(reasons, found);
    FusedMapIs(native, ocr.value, requested, fields, decisions);
    r := Finalize(Metadata(fields, reasons, decisions, 0.0, false));
  }

  // ----- what a fused record guarantees -----

  function Position(n: Name): (k: nat)
    ensures k < |FIELDS| && FIELDS[k] == n
  {
    match n
    case InvoiceDate => 0
    case InvoiceNumber => 1
    case Supplier => 2
    case Gross => 3
    case Net => 4
    case Tax => 5
    case Currency => 6
    case DueDate => 7
  }

  /** Every field of a fused record: a usable text value is kept or cleared with its reason on record,
      and a value that is not empty comes from one of the two sources. */
  lemma FusedFields(r: Metadata, native: Metadata, ocr: Metadata, requested: set<Name>, conflicts: seq<Reason>, n: Name)
    requires FusionOf(r, native, ocr, requested, conflicts)
    ensures Usable(n, native.fields[n]) ==>
              r.fields[n] == native.fields[n] || (r.fields[n] == NOTHING && Conflict(n) in r.reasons)
    ensures r.fields[n].value != "" ==> r.fields[n] == native.fields[n] || r.fields[n] == ocr.fields[n]
    ensures Usable(n, r.fields[n]) <==>
              !Contradict(n, native.fields[n], ocr.fields[n])
                  && (Usable(n, native.fields[n]) || Usable(n, ocr.fields[n]))
    ensures Contradict(n, native.fields[n], ocr.fields[n]) ==> Conflict(n) in conflicts
  {
    var k := Position(n);
    assert FieldFused(FIELDS[k], native, ocr, requested, r.fields[FIELDS[k]], r.decisions[k]);
    UsableTextIsNeverOverwritten(n, native.fields[n], ocr.fields[n], n in requested);
    AddNewMembers(AddNew(native.reasons, ocr.reasons), conflicts);
  }

  lemma ConflictsAreContradictions(r: Metadata, native: Metadata, ocr: Metadata, requested: set<Name>,
                                   conflicts: seq<Reason>, n: Name)
    requires FusionOf(r, native, ocr, requested, conflicts)
    ensures Conflict(n) in conflicts ==> Contradict(n, native.fields[n], ocr.fields[n])
  {
    assert FIELDS[Position(n)] == n;
  }

  ghost predicate NoContradiction(native: Metadata, ocr: Metadata)
    requires Complete(native) && Complete(ocr)
  {
    forall n :: !Contradict(n, native.fields[n], ocr.fields[n])
  }

  lemma NoConflictsIff(r: Metadata, native: Metadata, ocr: Metadata, requested: set<Name>, conflicts: seq<Reason>)
    requires FusionOf(r, native, ocr, requested, conflicts)
    ensures conflicts == [] <==> NoContradiction(native, ocr)
  {
    forall n ensures Conflict(n) in conflicts <==> Contradict(n, native.fields[n], ocr.fields[n]) {
      FusedFields(r, native, ocr, requested, conflicts, n);
      ConflictsAreContradictions(r, native, ocr, requested, conflicts, n);
    }
    if conflicts != [] {
      var x := conflicts[0];
      assert x in conflicts && Contradict(x.name, native.fields[x.name], ocr.fields[x.name]);
    }
  }

  /** A fused record is confirmed exactly when neither source had a review reason, no field had a
      credible disagreement, and the four critical fields are good. */
  lemma ConfirmedIff(r: Metadata, native: Metadata, ocr: Metadata, requested: set<Name>, conflicts: seq<Reason>)
    requires FusionOf(r, native, ocr, requested, conflicts)
    ensures r.confirmed <==>
              native.reasons == [] && ocr.reasons == [] && NoContradiction(native, ocr) && CriticalGood(r.fields)
  {
    NoConflictsIff(r, native, ocr, requested, conflicts);
    AddNewMembers(native.reasons, ocr.reasons);
    AddNewMembers(AddNew(native.reasons, ocr.reasons), conflicts);
  }

  // ----- the extraction around it -----

  /** The required fields that OCR is asked for: those that are not usable, and the gross amount when an
      amount has a review reason. */
  function TriggerFields(native: Metadata, amountReason: bool): set<Name>
    requires Complete(native)
  {
    (set n | n in {InvoiceDate, InvoiceNumber, Gross, Supplier} && !Usable(n, native.fields[n]))
    + (if amountReason then {Gross} else {})
  }

  /** How OCR went: off, failed with an error, without any text and error, or with a result. */
  datatype Ocr = Off | FailedWith(error: string) | Silent | Read(m: Metadata)

  /** The text result, with a reason when OCR was wanted but is off or failed. */
  function WithOcrReason(native: Metadata, wanted: bool, ocr: Ocr): Metadata {
    if !wanted then native
    else match ocr
      case Off => native.(reasons := native.reasons + [Other("ocr:fallback-disabled")])
      case FailedWith(_) => native.(reasons := native.reasons + [Other("ocr:fallback-failed")])
      case _ => native
  }

  /** What an extraction comes to. */
  function ExtractOf(native: Metadata, amountReason: bool, ocr: Ocr, minConfidence: real): (r: Metadata)
    requires Complete(native) && (ocr.Read? ==> Complete(ocr.m))
    ensures Complete(r)
  {
    var trigger := TriggerFields(native, amountReason);
    var other := if trigger != {} && ocr.Read? then Some(ocr.m) else None;
    var chosen := ChooseOf(WithOcrReason(native, trigger != {}, ocr), other, trigger);
    if !DateConfirmed(chosen.fields[InvoiceDate]) || chosen.confidence < minConfidence then
      chosen.(confirmed := false)
    else chosen
  }

  /** The end of an extraction: a reason for missing OCR is added after the status was set. */
  method Extract(native: Metadata, amountReason: bool, ocr: Ocr, minConfidence: real) returns (r: Metadata)
    requires Complete(native) && native == Finalize(native) && (ocr.Read? ==> Complete(ocr.m))
    requires amountReason ==> native.reasons != []
    ensures r == ExtractOf(native, amountReason, ocr, minConfidence)
    ensures TriggerFields(native, amountReason) == {} || !ocr.Read? ==>
              var missing := TriggerFields(native, amountReason) != {} && (ocr.Off? || ocr.FailedWith?);
              && r.fields == native.fields
              && (r.confirmed <==> native.confirmed && native.confidence >= minConfidence)
              && (r.reasons != [] <==> native.reasons != [] || missing)
    ensures TriggerFields(native, amountReason) != {} && ocr.Read? && r.confirmed ==>
              native.reasons == [] && ocr.m.reasons == [] && NoContradiction(native, ocr.m) && r.reasons == []
  {
    var text, other, trigger := native, None, TriggerFields(native, amountReason);
    if trigger != {} {
      match ocr {
        case Off => text := native.(reasons := native.reasons + [Other("ocr:fallback-disabled")]);
        case FailedWith(_) => text := native.(reasons := native.reasons + [Other("ocr:fallback-failed")]);
        case Silent =>
        case Read(m) => other := Some(m);
      }
    }
    ghost var conflicts;
    r, conflicts := Choose(text, other, trigger);
    if other.Some? {
      ConfirmedIff(r, native, ocr.m, trigger, conflicts);
    }
    if !DateConfirmed(r.fields[InvoiceDate]) || r.confidence < minConfidence {
      r := r.(confirmed := false);
    }
  }

  /** A field without a value stays below the threshold, as all that the field finders return does. */
  predicate EmptyIsWeak(n: Name, f: Field) { f.value == "" ==> f.confidence < Threshold(n) }

  ghost predicate EmptyIsWeakEverywhere(m: Metadata)
    requires Complete(m)
  {
    forall n: Name :: EmptyIsWeak(n, m.fields[n])
  }

  /** A confirmed text result asks for OCR only for a supplier known from the sender. */
  lemma ConfirmedTrigger(native: Metadata, amountReason: bool)
    requires Complete(native) && native == Finalize(native) && (amountReason ==> native.reasons != [])
    requires EmptyIsWeakEverywhere(native) && native.confirmed
    ensures TriggerFields(native, amountReason) == if native.fields[Supplier].fromSender then {Supplier} else {}
  {
    assert EmptyIsWeak(InvoiceNumber, native.fields[InvoiceNumber]) && EmptyIsWeak(Gross, native.fields[Gross]);
    assert EmptyIsWeak(Supplier, native.fields[Supplier]) && EmptyIsWeak(InvoiceDate, native.fields[InvoiceDate]);
  }

  lemma FusedWithoutReasons(native: Metadata, ocr: Metadata, requested: set<Name>)
    requires Complete(native) && Complete(ocr)
    ensures ChooseOf(native, Some(ocr), requested).confirmed ==> ChooseOf(native, Some(ocr), requested).reasons == []
  {
  }

  /** An extraction as a whole is confirmed and still carries a review reason exactly when the text result
      is confirmed with enough confidence, its supplier is known only from the sender, and OCR is off or
      failed. */
  lemma ConfirmedWithReasonIff(native: Metadata, amountReason: bool, ocr: Ocr, minConfidence: real)
    requires Complete(native) && native == Finalize(native) && (ocr.Read? ==> Complete(ocr.m))
    requires (amountReason ==> native.reasons != []) && EmptyIsWeakEverywhere(native)
    ensures var r := ExtractOf(native, amountReason, ocr, minConfidence);
            r.confirmed && r.reasons != [] <==>
              && native.confirmed && native.confidence >= minConfidence && native.fields[Supplier].fromSender
              && (ocr.Off? || ocr.FailedWith?)
  {
    var trigger := TriggerFields(native, amountReason);
    if native.confirmed {
      ConfirmedTrigger(native, amountReason);
    }
    if trigger != {} && ocr.Read? {
      FusedWithoutReasons(native, ocr.m, trigger);
    }
  }

  /** A record whose fields are all certain, the supplier by the sender alone. */
  function SenderOnly(): (m: Metadata)
    ensures Complete(m)
  {
    var certain := Field("1", 1.0, false);
    var m := Metadata(map[InvoiceDate := certain, InvoiceNumber := certain, Supplier := Field("1", 1.0, true),
                          Gross := certain, Net := certain, Tax := certain, Currency := certain, DueDate := certain],
                      [], [], 0.0, false);
    assert Complete(m) by {
      forall n: Name ensures n in m.fields {
        assert FIELDS[Position(n)] == n;
      }
    }
    Finalize(m)
  }

  /** With OCR switched off such a record is confirmed and carries the reason. */
  lemma ConfirmedWithReason()
    ensures SenderOnly() == Finalize(SenderOnly()) && EmptyIsWeakEverywhere(SenderOnly())
    ensures var r := ExtractOf(SenderOnly(), false, Off, 0.8);
            r.confirmed && r.reasons == [Other("ocr:fallback-disabled")]
  {
    ConfirmedTrigger(SenderOnly(), false);
  }
}
