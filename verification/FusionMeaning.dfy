/** What the single decisions of the fusion mean: the outcome that is noted for a field, which fields count how
    much, which ones OCR is asked for, and what happens to the review reasons. */
module FusionMeaning {
  import opened Common
  import opened InvoiceFusion

  // ----- one field -----

  /** The outcome that is noted for a field is true of the two values and of the one that is kept. */
  lemma OutcomeIsTrue(n: Name, left: Field, right: Field, requested: bool)
    ensures var (f, outcome) := FuseField(n, left, right, requested);
            match outcome
            case ConflictReview => Contradict(n, left, right) && f.value == ""
            case OcrFallback => requested && f == right && Usable(n, right) && !Usable(n, left)
            case OcrSupport => !requested && f == right && Usable(n, right) && !Usable(n, left)
            case Agree => f == left && left.value == right.value && left.value != ""
            case NativeRetained => f == left && Usable(n, left) && right.value == ""
            case WeakDisagreement => f == left && Usable(n, left) && right.value != "" && right.value != left.value
                                     && !Contradict(n, left, right)
            case OcrWeak => f == right && right.value != "" && right.confidence > left.confidence
                            && !Usable(n, left) && !Usable(n, right)
            case Unresolved => f == left && !Usable(n, left) && !Usable(n, right)
                               && (right.value == "" || right.confidence <= left.confidence)
  {
  }

  /** A usable value can always contradict; a value that is not usable can only for the date and the gross
      amount, whose thresholds are the highest. */
  lemma CredibleBelowUsable(n: Name)
    ensures forall f: Field | Usable(n, f) :: Credible(n, f)
    ensures (exists f: Field :: Credible(n, f) && !Usable(n, f)) <==> n in {InvoiceDate, Gross}
    ensures forall f: Field | n in {InvoiceDate, Gross} && f.value != "" :: Credible(n, f) <==> f.confidence >= 0.75
  {
    var f := Field("1", 0.75, false);
    assert n in {InvoiceDate, Gross} ==> Credible(n, f) && !Usable(n, f);
  }

  /** The critical fields are good exactly when each reaches its threshold and the date has a value. */
  lemma CriticalMeans(fields: map<Name, Field>)
    requires forall n: Name :: n in fields
    ensures CriticalGood(fields) <==>
              && fields[InvoiceDate].value != ""
              && forall n | n in {InvoiceDate, InvoiceNumber, Supplier, Gross} :: fields[n].confidence >= Threshold(n)
  {
  }

  /** Net and tax amounts need more than the currency and the due date, and less than the critical amounts. */
  lemma OtherThresholds()
    ensures Threshold(Currency) == Threshold(DueDate) < Threshold(Net) == Threshold(Tax) < Threshold(InvoiceNumber)
    ensures Threshold(Net) == 0.70 && Threshold(Currency) == 0.65
  {
  }

  // ----- the confidence of the record -----

  /** Date and gross amount count for three tenths each, number and supplier for two tenths. */
  lemma WeightedMoves(fields: map<Name, Field>, n: Name, f: Field)
    requires forall m: Name :: m in fields
    ensures var gain := f.confidence - fields[n].confidence;
            Weighted(fields[n := f]) - Weighted(fields)
            == (if n in {InvoiceDate, Gross} then 0.3 else if n in {InvoiceNumber, Supplier} then 0.2 else 0.0) * gain
  {
  }

  /** The confidence of a record lies between those of its critical fields. */
  lemma WeightedBetween(fields: map<Name, Field>, low: real, high: real)
    requires forall m: Name :: m in fields
    requires forall n | n in {InvoiceDate, InvoiceNumber, Supplier, Gross} :: low <= fields[n].confidence <= high
    ensures low <= Weighted(fields) <= high
  {
  }

  // ----- OCR -----

  /** OCR is asked for exactly the critical fields that are missing, uncertain or known from the sender only,
      and for the gross amount when an amount needs review. */
  lemma TriggersMean(native: Metadata, amountReason: bool, n: Name)
    requires Complete(native)
    ensures var f := native.fields[n];
            n in TriggerFields(native, amountReason) <==>
              || (n == Gross && amountReason)
              || (n in {InvoiceDate, InvoiceNumber, Supplier, Gross}
                  && (f.value == "" || f.confidence < Threshold(n) || (n == Supplier && f.fromSender)))
  {
  }

  /** Where OCR is wanted but off or failed, that becomes one more reason after those there are; otherwise the
      text result keeps its reasons. */
  lemma MissingOcrIsAReason(native: Metadata, amountReason: bool, ocr: Ocr, minConfidence: real)
    requires Complete(native) && !ocr.Read?
    ensures var r := ExtractOf(native, amountReason, ocr, minConfidence);
            r.reasons == native.reasons
              + if TriggerFields(native, amountReason) == {} || ocr.Silent? then []
                else [Other(if ocr.Off? then "ocr:fallback-disabled" else "ocr:fallback-failed")]
  {
  }

  // ----- the reasons of a fused record -----

  lemma {:induction false} AddNewKeeps(reasons: seq<Reason>, more: seq<Reason>)
    ensures reasons <= AddNew(reasons, more)
    ensures forall i | |reasons| <= i < |AddNew(reasons, more)| ::
              AddNew(reasons, more)[i] in more && AddNew(reasons, more)[i] !in AddNew(reasons, more)[..i]
  {
    if more != [] {
      var front := more[..|more| - 1];
      AddNewKeeps(reasons, front);
      var before, after := AddNew(reasons, front), AddNew(reasons, more);
      forall i | |reasons| <= i < |after| ensures after[i] in more && after[i] !in after[..i] {
        if i < |before| {
          assert after[i] == before[i] && after[..i] == before[..i] && before[i] in front;
        } else {
          assert after[..i] == before;
        }
      }
    }
  }

  /** The text result's reasons stay in front, the other source's and the conflicts follow, each once. */
  lemma ReasonsInOrder(native: Metadata, ocr: Metadata, requested: set<Name>)
    requires Complete(native) && Complete(ocr)
    ensures var all, own := ChooseOf(native, Some(ocr), requested).reasons, AddNew(native.reasons, ocr.reasons);
            && native.reasons <= own <= all
            && (forall r :: r in own <==> r in native.reasons || r in ocr.reasons)
            && (forall n: Name :: Conflict(n) in all <==>
                  Conflict(n) in own || Contradict(n, native.fields[n], ocr.fields[n]))
            && (forall i | |own| <= i < |all| :: all[i].Conflict?)
  {
    var own, conflicts := AddNew(native.reasons, ocr.reasons), ConflictsUpTo(|FIELDS|, native, ocr);
    AddNewKeeps(native.reasons, ocr.reasons);
    AddNewKeeps(own, conflicts);
    AddNewMembers(native.reasons, ocr.reasons);
    AddNewMembers(own, conflicts);
    ConflictsAreFound(|FIELDS|, native, ocr);
    forall n: Name ensures Conflict(n) in conflicts <==> Contradict(n, native.fields[n], ocr.fields[n]) {
      assert FIELDS[Position(n)] == n;
    }
  }
}
