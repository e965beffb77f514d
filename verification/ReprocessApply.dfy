/** Applying one reprocessed invoice: the checks on the row and on the proposal, and the three
    database transactions that several processes may run against the same row.

    All state concerns one attachment hash.  SHA-256 digests are modelled as constructors around the
    digested value, that is, as injective functions: the row fingerprint around the joined row, and
    the preview digest around the row, the extractor version and the proposal it was made from.  The
    preview names the operation, as the operation id digests the attachment hash and the preview. */
module ReprocessApply {
  import opened Common
  import opened InvoiceMoney

  /** Rejections and error codes.  The stored code is cut to 120 characters, which is longer than any. */
  datatype Code =
    | NoError | InvoiceNotArchived | InvoicePathMissing | ProtectedInvoiceStatus | UnsupportedInvoiceStatus
    | ProposalNotImproved | ProposalNotConfirmed | ProposalHasConflicts | InvoiceDateUnconfirmed
    | RequiredFieldMissing | FieldValueTooLong | InvoiceDateInvalid | InvoiceYearInvalid | ApplyFailed
    | GrossAmountInvalid | AmountArithmeticInvalid | TaxAboveGross | CurrencyUnproven | InvoiceNotFound
    | RecordDrift | AuditMissing | LocalStateDrift | ProtectedStatusDrift | RegisterClaimLost | PreviewDrift
    | ExtractorVersionDrift | ProposalDrift | RegisterSyncInProgress | RegisterConflict | RegisterUnavailable
    | RegisterSyncFailed | Crashed

  type Token = nat

  const CONFIRMED := "confirmed"
  const CORRECTED := "confirmed-manual"

  const CLAIM_SECONDS: nat := 300
  const MICROS: nat := 1_000_000
  const SUPPORTED_CURRENCIES := {"EUR", "USD", "GBP", "CHF"}

  /** The values an apply writes into the row. */
  datatype Values = Values(
    invoiceDate: string, number: string, supplier: string, category: string,
    gross: int, net: Option<int>, tax: Option<int>, currency: string, dueDate: string,
    extractionStatus: string, confidence: real, via: string, json: string)

  /** The invoice row joined with its mail; `joined` stands for the columns no apply writes. */
  datatype Row = Row(
    id: int, status: string, path: string, joined: string, values: Values,
    registerYear: Option<int>, registerUpdatedAt: nat, updatedAt: nat)

  datatype Digest = Digest(of: Row)

  /** What the owner approved: the row, the extractor version and the proposal (its digest). */
  datatype Preview = Preview(record: Row, version: string, proposal: string)

  function Fingerprint(row: Row): Digest { Digest(row) }

  // ----- eligibility of the row -----

  function SourceStatus(row: Row): string {
    var s := Strip(row.values.extractionStatus);
    if s == "" then "unclassified" else s
  }

  /** NoError when the row may be rewritten, otherwise the reason it may not. */
  function RequireEligible(row: Row): Code {
    if row.status !in {"uploaded", "duplicate"} then InvoiceNotArchived
    else if row.path == "" then InvoicePathMissing
    else if SourceStatus(row) in {CONFIRMED, CORRECTED} then ProtectedInvoiceStatus
    else if SourceStatus(row) !in {"review", "unclassified"} then UnsupportedInvoiceStatus
    else NoError
  }

  predicate Eligible(row: Row) { RequireEligible(row) == NoError }

  lemma ConfirmedIsProtected(row: Row)
    requires row.values.extractionStatus in {CONFIRMED, CORRECTED}
    ensures !Eligible(row)
  {
    StripKeeps(row.values.extractionStatus);
  }

  /** The reason that is given is true of the row, and a row without one is archived and undecided. */
  lemma IneligibleMeans(row: Row)
    ensures match RequireEligible(row)
            case NoError => row.status in {"uploaded", "duplicate"} && row.path != ""
                            && Strip(row.values.extractionStatus) in {"", "review", "unclassified"}
            case InvoiceNotArchived => row.status !in {"uploaded", "duplicate"}
            case InvoicePathMissing => row.path == ""
            case ProtectedInvoiceStatus => Strip(row.values.extractionStatus) in {CONFIRMED, CORRECTED}
            case UnsupportedInvoiceStatus =>
              Strip(row.values.extractionStatus) !in {"", "review", "unclassified", CONFIRMED, CORRECTED}
            case _ => false
  {
  }

  // ----- safety of the proposal -----

  /** What the extractor returned; `year` is the year of `invoiceDate` if it is a valid date. */
  datatype Metadata = Metadata(
    status: string, reviewReasons: seq<string>, dateConfirmed: bool, year: Option<int>,
    invoiceDate: string, number: string, supplier: string, category: string,
    gross: string, net: string, tax: string, currency: string, dueDate: string,
    confidence: real, via: string, json: string)

  /** Upper case as far as currency codes go: the long s is the one other character whose upper case
      is an ASCII letter of theirs. */
  function UpperChar(c: char): char {
    if 'a' <= c <= 'z' then (c as int - 32) as char else if c == '\U{17f}' then 'S' else c
  }

  function Upper(s: string): string { seq(|s|, i requires 0 <= i < |s| => UpperChar(s[i])) }

  function Take(s: string, n: nat): string { if |s| <= n then s else s[..n] }

  /** The optional amount: text that is no amount counts as absent. */
  function OptionalCents(text: string): Option<int> {
    if text == "" then None
    else match AmountToCents(text) case Cents(c) => Some(c) case _ => None
  }

  predicate Overflows(text: string) { text != "" && AmountToCents(text) == Overflow }

  /** Only confirmed proposals without conflicts, and new ones only when they improve the row. */
  function StatusCode(m: Metadata, classification: Option<string>): Code {
    if classification.Some? && classification.value != "improved" then ProposalNotImproved
    else if m.status != CONFIRMED then ProposalNotConfirmed
    else if m.reviewReasons != [] then ProposalHasConflicts
    else if !m.dateConfirmed then InvoiceDateUnconfirmed
    else NoError
  }

  function TextCode(m: Metadata): Code {
    if Strip(m.invoiceDate) == "" || Strip(m.number) == "" || Strip(m.supplier) == "" || Strip(m.gross) == ""
        then RequiredFieldMissing
    else if |m.number| > 240 || |m.supplier| > 300 || |m.category| > 160 then FieldValueTooLong
    else if m.year.None? then InvoiceDateInvalid
    else if !(2000 <= m.year.value <= 2100) then InvoiceYearInvalid
    else NoError
  }

  function AmountCode(m: Metadata): Code {
    if Overflows(m.gross) || Overflows(m.net) || Overflows(m.tax) then ApplyFailed
    else ArithmeticCode(OptionalCents(m.gross), OptionalCents(m.net), OptionalCents(m.tax))
  }

  function ArithmeticCode(gross: Option<int>, net: Option<int>, tax: Option<int>): Code {
    if gross.None? then GrossAmountInvalid
    else if net.Some? && tax.Some? && Abs(gross.value - (net.value + tax.value)) > 2 then AmountArithmeticInvalid
    else if gross.value >= 0 && tax.Some? && tax.value > gross.value then TaxAboveGross
    else NoError
  }

  function ValuesOf(m: Metadata, gross: int, currency: string): Values {
    Values(m.invoiceDate, m.number, m.supplier, if m.category == "" then "Ungeklärt" else m.category,
           gross, OptionalCents(m.net), OptionalCents(m.tax), currency, m.dueDate, m.status, m.confidence,
           "reprocess-" + Take(if m.via == "" then "none" else m.via, 120), Take(m.json, 20000))
  }

  function SafeProposal(m: Metadata, classification: Option<string>): (r: Result<(int, Values), Code>)
    ensures r.Ok? ==> SafeValues(m, r.value.0, r.value.1)
  {
    if StatusCode(m, classification) != NoError then Err(StatusCode(m, classification))
    else if TextCode(m) != NoError then Err(TextCode(m))
    else if AmountCode(m) != NoError then Err(AmountCode(m))
    else
      var currency := Upper(Strip(m.currency));
      if currency !in SUPPORTED_CURRENCIES then Err(CurrencyUnproven)
      else Ok((m.year.value, ValuesOf(m, OptionalCents(m.gross).value, currency)))
  }

  /** What an accepted proposal guarantees about the values that reach the database. */
  ghost predicate SafeValues(m: Metadata, year: int, v: Values) {
    && m.year == Some(year) && 2000 <= year <= 2100
    && v.extractionStatus == CONFIRMED && m.reviewReasons == [] && m.dateConfirmed
    && AmountToCents(m.gross) == Cents(v.gross)
    && (v.net.Some? && v.tax.Some? ==> -2 <= v.gross - (v.net.value + v.tax.value) <= 2)
    && (v.gross >= 0 && v.tax.Some? ==> v.tax.value <= v.gross)
    && v.currency in SUPPORTED_CURRENCIES
    && Strip(v.number) != "" && Strip(v.supplier) != "" && Strip(v.invoiceDate) != ""
  }

  /** Every value is the metadata's own: each text is that of its field, each amount what the text of its
      field reads as, and long texts are cut. */
  ghost predicate Carries(m: Metadata, v: Values) {
    && v.invoiceDate == m.invoiceDate && v.number == m.number && v.supplier == m.supplier && v.dueDate == m.dueDate
    && (if m.category != "" then v.category == m.category else v.category == "Ungeklärt")
    && ReadAs(m.gross, Some(v.gross)) && ReadAs(m.net, v.net) && ReadAs(m.tax, v.tax)
    && Strip(m.currency) != "" && Spelled(Strip(m.currency), v.currency)
    && v.confidence == m.confidence
    && "reprocess-" <= v.via && CutTo(if m.via == "" then "none" else m.via, 120, v.via[10..])
    && CutTo(m.json, 20000, v.json)
  }

  /** What an accepted proposal writes is what the extractor returned. */
  lemma AcceptedCarries(m: Metadata, classification: Option<string>)
    requires SafeProposal(m, classification).Ok?
    ensures Carries(m, SafeProposal(m, classification).value.1)
  {
    AcceptedIs(m, classification);
    UpperSpells(Strip(m.currency));
    ValuesCarry(m, OptionalCents(m.gross).value, Upper(Strip(m.currency)));
  }

  lemma AcceptedIs(m: Metadata, classification: Option<string>)
    requires SafeProposal(m, classification).Ok?
    ensures OptionalCents(m.gross).Some? && Strip(m.currency) != ""
    ensures SafeProposal(m, classification).value.1
            == ValuesOf(m, OptionalCents(m.gross).value, Upper(Strip(m.currency)))
  {
  }

  lemma ValuesCarry(m: Metadata, gross: int, currency: string)
    requires ReadAs(m.gross, Some(gross)) && Strip(m.currency) != "" && Spelled(Strip(m.currency), currency)
    ensures Carries(m, ValuesOf(m, gross, currency))
  {
    var via := Take(if m.via == "" then "none" else m.via, 120);
    assert ("reprocess-" + via)[10..] == via;
  }

  predicate ReadAs(text: string, cents: Option<int>) {
    match cents
    case Some(c) => AmountToCents(text) == Cents(c)
    case None => text == "" || !AmountToCents(text).Cents?
  }

  predicate CutTo(text: string, limit: nat, cut: string) {
    cut <= text && |cut| == if |text| <= limit then |text| else limit
  }

  /** Text that spells the code in upper or lower case letters, or with a long s. */
  predicate Spelled(text: string, code: string) {
    |text| == |code| && forall i | 0 <= i < |code| ::
      || text[i] == code[i]
      || ('A' <= code[i] <= 'Z' && text[i] as int == code[i] as int + 32)
      || (code[i] == 'S' && text[i] == '\U{17f}')
  }

  lemma UpperSpells(text: string)
    ensures Spelled(text, Upper(text))
  {
  }

  lemma SpelledIff(text: string, code: string)
    requires forall i | 0 <= i < |code| :: 'A' <= code[i] <= 'Z'
    ensures Upper(text) == code <==> Spelled(text, code)
  {
    if Upper(text) == code { UpperSpells(text); }
  }

  /** The text names a supported currency, in whatever letters. */
  predicate NamesCurrency(text: string) { exists code :: code in SUPPORTED_CURRENCIES && Spelled(text, code) }

  lemma NamesCurrencyIff(text: string)
    ensures Upper(text) in SUPPORTED_CURRENCIES <==> NamesCurrency(text)
  {
    SpelledIff(text, "EUR");
    SpelledIff(text, "USD");
    SpelledIff(text, "GBP");
    SpelledIff(text, "CHF");
  }

  /** Amounts that are consistent up to two cents, with the tax within the gross. */
  predicate AmountsAgree(gross: int, net: Option<int>, tax: Option<int>) {
    && (net.Some? && tax.Some? ==> -2 <= gross - net.value - tax.value <= 2)
    && (gross >= 0 && tax.Some? ==> tax.value <= gross)
  }

  predicate TextsFit(m: Metadata) {
    && Strip(m.invoiceDate) != "" && Strip(m.number) != "" && Strip(m.supplier) != "" && Strip(m.gross) != ""
    && |m.number| <= 240 && |m.supplier| <= 300 && |m.category| <= 160
    && m.year.Some? && ValidYear(m.year.value)
  }

  /** No safe proposal is refused: it is accepted if and only if it is confirmed without reservations,
      its texts and date are in order, its amounts are readable and agree, its currency is supported,
      and a new one is classified as improved. */
  lemma AcceptedIff(m: Metadata, classification: Option<string>)
    ensures SafeProposal(m, classification).Ok? <==>
              && (classification.Some? ==> classification.value == "improved")
              && m.status == CONFIRMED && m.reviewReasons == [] && m.dateConfirmed && TextsFit(m)
              && OptionalCents(m.gross).Some? && !Overflows(m.net) && !Overflows(m.tax)
              && AmountsAgree(OptionalCents(m.gross).value, OptionalCents(m.net), OptionalCents(m.tax))
              && NamesCurrency(Strip(m.currency))
  {
    NamesCurrencyIff(Strip(m.currency));
    NoStatusCode(m, classification);
    assert TextCode(m) == NoError <==> TextsFit(m);
    NoArithmeticCode(OptionalCents(m.gross), OptionalCents(m.net), OptionalCents(m.tax));
  }

  /** A refused proposal is refused for a reason that is true of it. */
  lemma RefusalMeans(m: Metadata, classification: Option<string>)
    requires SafeProposal(m, classification).Err?
    ensures match SafeProposal(m, classification).error
            case ProposalNotImproved => classification.Some? && classification.value != "improved"
            case ProposalNotConfirmed => m.status != CONFIRMED
            case ProposalHasConflicts => m.reviewReasons != []
            case InvoiceDateUnconfirmed => !m.dateConfirmed
            case RequiredFieldMissing =>
              || Strip(m.invoiceDate) == "" || Strip(m.number) == "" || Strip(m.supplier) == "" || Strip(m.gross) == ""
            case FieldValueTooLong => |m.number| > 240 || |m.supplier| > 300 || |m.category| > 160
            case InvoiceDateInvalid => m.year.None?
            case InvoiceYearInvalid => m.year.Some? && !ValidYear(m.year.value)
            case ApplyFailed => Overflow in {AmountToCents(m.gross), AmountToCents(m.net), AmountToCents(m.tax)}
            case GrossAmountInvalid => ReadAs(m.gross, None)
            case AmountArithmeticInvalid =>
              && OptionalCents(m.gross).Some? && OptionalCents(m.net).Some? && OptionalCents(m.tax).Some?
              && Abs(OptionalCents(m.gross).value - OptionalCents(m.net).value - OptionalCents(m.tax).value) > 2
            case TaxAboveGross =>
              && OptionalCents(m.gross).Some? && OptionalCents(m.tax).Some?
              && OptionalCents(m.tax).value > OptionalCents(m.gross).value >= 0
            case CurrencyUnproven => !NamesCurrency(Strip(m.currency))
            case _ => false
  {
    NamesCurrencyIff(Strip(m.currency));
  }

  lemma NoStatusCode(m: Metadata, classification: Option<string>)
    ensures StatusCode(m, classification) == NoError <==>
              && (classification.Some? ==> classification.value == "improved")
              && m.status == CONFIRMED && m.reviewReasons == [] && m.dateConfirmed
  {
  }

  lemma NoArithmeticCode(gross: Option<int>, net: Option<int>, tax: Option<int>)
    ensures ArithmeticCode(gross, net, tax) == NoError <==> gross.Some? && AmountsAgree(gross.value, net, tax)
  {
  }

  // ----- the audit row -----

  datatype ResultStatus = RegisterPending | RegisterSyncing | RegisterFailed | Completed

  /** The part of an audit row that is written once: what was approved and what it changed. */
  datatype Operation = Operation(
    preview: Preview, invoiceId: int, oldState: Digest, newState: Digest, proposal: string, version: string,
    sourceStatus: string, proposedStatus: string, oldYear: Option<int>, newYear: int, registerYears: seq<int>,
    createdAt: nat)

  datatype Audit = Audit(
    op: Operation, completedYears: seq<int>, result: ResultStatus, attempts: nat, error: Code,
    token: Option<Token>, updatedAt: nat, completedAt: Option<nat>)

  datatype Db = Db(invoice: Option<Row>, audits: map<Preview, Audit>)

  /** Timestamps are stored with whole seconds; the clock runs in microseconds. */
  function Seconds(now: nat): nat { now / MICROS }

  /** A claim is stale once the time since its (truncated) timestamp reaches 300 seconds. */
  predicate Stale(updatedAt: nat, now: nat) {
    now - updatedAt * MICROS >= CLAIM_SECONDS * MICROS
  }

  predicate ValidYear(y: int) { 2000 <= y <= 2100 }

  /** The distinct years of the row before and after, ascending. */
  function RegisterYears(oldYear: Option<int>, newYear: int): seq<int> {
    if oldYear.None? || oldYear.value == newYear then [newYear]
    else if oldYear.value < newYear then [oldYear.value, newYear]
    else [newYear, oldYear.value]
  }

  /** Ascending, without duplicates. */
  function SortedYears(years: seq<int>): seq<int> {
    if years == [] then [] else Insert(years[0], SortedYears(years[1..]))
  }

  function Insert(y: int, sorted: seq<int>): seq<int> {
    if sorted == [] || y < sorted[0] then [y] + sorted
    else if y == sorted[0] then sorted
    else [sorted[0]] + Insert(y, sorted[1..])
  }

  /** Reading stored years back: the valid ones, sorted and without duplicates. */
  function ValidYears(years: seq<int>): seq<int> {
    if years == [] then []
    else if ValidYear(years[0]) then Insert(years[0], ValidYears(years[1..]))
    else ValidYears(years[1..])
  }

  /** The years that have to be synced for an operation. */
  function YearsToSync(op: Operation): seq<int> { ValidYears(op.registerYears) }

  // ----- transaction 1: rewrite the row and insert the audit row -----

  function Rewritten(row: Row, year: int, values: Values, stamp: nat): Row {
    row.(values := values, registerYear := Some(year), registerUpdatedAt := stamp, updatedAt := stamp)
  }

  function NewAudit(preview: Preview, current: Row, updated: Row, year: int, proposal: string, version: string,
                    stamp: nat): Audit {
    var op := Operation(preview, current.id, Fingerprint(current), Fingerprint(updated), proposal, version,
                        SourceStatus(current), updated.values.extractionStatus, current.registerYear, year,
                        RegisterYears(current.registerYear, year), stamp);
    Audit(op, [], RegisterPending, 0, NoError, None, stamp, None)
  }

  datatype Begun = Refused(code: Code) | Known(audit: Audit) | Rewrote(row: Row, audit: Audit)

  /** `item` is the row the run had read, on which the preview and the proposal are based. */
  function BeginResult(db: Db, item: Row, preview: Preview, proposal: string, version: string,
                       year: int, values: Values, now: nat): Begun
  {
    if preview in db.audits then Known(db.audits[preview])
    else if db.invoice.None? then Refused(InvoiceNotFound)
    else
      var current := db.invoice.value;
      if !Eligible(current) then Refused(RequireEligible(current))
      else if Fingerprint(current) != Fingerprint(item) then Refused(RecordDrift)
      else
        var updated := Rewritten(current, year, values, Seconds(now));
        Rewrote(updated, NewAudit(preview, current, updated, year, proposal, version, Seconds(now)))
  }

  function AfterBegin(db: Db, preview: Preview, r: Begun): Db {
    if r.Rewrote? then Db(Some(r.row), db.audits[preview := r.audit]) else db
  }

  // ----- transaction 2: claim the register sync -----

  datatype Claim = Rejected(code: Code) | InProgress(seen: Audit) | Claimed(audit: Audit)

  function ClaimResult(db: Db, preview: Preview, expected: Digest, token: Token, now: nat): Claim {
    if preview !in db.audits then Rejected(AuditMissing)
    else
      var audit := db.audits[preview];
      if db.invoice.None? || Fingerprint(db.invoice.value) != expected then Rejected(LocalStateDrift)
      else if db.invoice.value.values.extractionStatus != audit.op.proposedStatus then Rejected(ProtectedStatusDrift)
      else if audit.result.RegisterSyncing? && !Stale(audit.updatedAt, now) then InProgress(audit)
      else
        Claimed(audit.(result := RegisterSyncing, token := Some(token), attempts := audit.attempts + 1,
                       error := NoError, updatedAt := Seconds(now)))
  }

  function AfterClaim(db: Db, preview: Preview, r: Claim): Db {
    if r.Claimed? then db.(audits := db.audits[preview := r.audit]) else db
  }

  // ----- transaction 3: finish, as a compare-and-set on the token -----

  function FinishResult(db: Db, preview: Preview, token: Token, years: seq<int>, error: Code,
                        now: nat): Result<Audit, Code> {
    if preview in db.audits && db.audits[preview].result.RegisterSyncing?
        && db.audits[preview].token == Some(token) then
      Ok(db.audits[preview].(
        result := if error == NoError then Completed else RegisterFailed,
        completedYears := SortedYears(years), error := error, token := None,
        updatedAt := Seconds(now), completedAt := if error == NoError then Some(Seconds(now)) else None))
    else Err(RegisterClaimLost)
  }

  function AfterFinish(db: Db, preview: Preview, r: Result<Audit, Code>): Db {
    if r.Ok? then db.(audits := db.audits[preview := r.value]) else db
  }

  // ----- the transactions as the program runs them -----

  class Storage {
    var invoice: Option<Row>
    var audits: map<Preview, Audit>

    constructor (db: Db)
      ensures State() == db
    {
      invoice, audits := db.invoice, db.audits;
    }

    function State(): Db
      reads this
    {
      Db(invoice, audits)
    }

    method BeginLocalApply(item: Row, preview: Preview, proposal: string, version: string,
                           year: int, values: Values, now: nat) returns (r: Begun)
      modifies this
      ensures r == BeginResult(old(State()), item, preview, proposal, version, year, values, now)
      ensures State() == AfterBegin(old(State()), preview, r)
    {
      if preview in audits {
        return Known(audits[preview]);
      }
      if invoice.None? {
        return Refused(InvoiceNotFound);
      }
      var current := invoice.value;
      var reason := RequireEligible(current);
      if reason != NoError {
        return Refused(reason);
      }
      if Fingerprint(current) != Fingerprint(item) {
        return Refused(RecordDrift);
      }
      var stamp := Seconds(now);
      invoice := Some(current.(values := values, registerYear := Some(year), registerUpdatedAt := stamp,
                              updatedAt := stamp));
      var updated := invoice.value;
      var op := Operation(preview, current.id, Fingerprint(current), Fingerprint(updated), proposal, version,
                          SourceStatus(current), values.extractionStatus, current.registerYear, year,
                          RegisterYears(current.registerYear, year), stamp);
      var audit := Audit(op, [], RegisterPending, 0, NoError, None, stamp, None);
      audits := audits[preview := audit];
      r := Rewrote(updated, audit);
    }

    method ClaimRegisterSync(preview: Preview, expected: Digest, token: Token, now: nat) returns (r: Claim)
      modifies this
      ensures r == ClaimResult(old(State()), preview, expected, token, now)
      ensures State() == AfterClaim(old(State()), preview, r)
    {
      if preview !in audits {
        return Rejected(AuditMissing);
      }
      var audit := audits[preview];
      if invoice.None? || Fingerprint(invoice.value) != expected {
        return Rejected(LocalStateDrift);
      }
      if invoice.value.values.extractionStatus != audit.op.proposedStatus {
        return Rejected(ProtectedStatusDrift);
      }
      if audit.result.RegisterSyncing? && !Stale(audit.updatedAt, now) {
        return InProgress(audit);
      }
      audit := audit.(result := RegisterSyncing);
      audit := audit.(token := Some(token), attempts := audit.attempts + 1);
      audit := audit.(error := NoError, updatedAt := Seconds(now));
      audits := audits[preview := audit];
      r := Claimed(audit);
    }

    method FinishRegisterSync(preview: Preview, token: Token, years: seq<int>, error: Code, now: nat)
      returns (r: Result<Audit, Code>)
      modifies this
      ensures r == FinishResult(old(State()), preview, token, years, error, now)
      ensures State() == AfterFinish(old(State()), preview, r)
    {
      if preview !in audits {
        return Err(RegisterClaimLost);
      }
      var row := audits[preview];
      if !row.result.RegisterSyncing? || row.token != Some(token) {
        return Err(RegisterClaimLost);
      }
      var successful := error == NoError;
      row := row.(result := if successful then Completed else RegisterFailed, completedYears := SortedYears(years));
      row := row.(error := error, token := None, updatedAt := Seconds(now));
      row := row.(completedAt := if successful then Some(Seconds(now)) else None);
      audits := audits[preview := row];
      r := Ok(row);
    }
  }

  /** The year loop of one claim.  `matches(k)` is whether the row still carried the fingerprint
      before the k-th year, `sync(k)` the error code of the k-th register sync, NoError on success. */
  method SyncYears(years: seq<int>, matches: nat -> bool, sync: nat -> Code) returns (completed: seq<int>, error: Code)
    ensures completed <= years
    ensures forall k: nat | k < |completed| :: matches(k) && sync(k) == NoError
    ensures error == NoError <==> completed == years
    ensures |completed| < |years| ==>
              error == if matches(|completed|) then sync(|completed|) else LocalStateDrift
  {
    completed := [];
    for k := 0 to |years|
      invariant completed == years[..k]
      invariant forall j: nat | j < k :: matches(j) && sync(j) == NoError
    {
      if !matches(k) {
        return completed, LocalStateDrift;
      }
      var failure := sync(k);
      if failure != NoError {
        return completed, failure;
      }
      completed := completed + [years[k]];
    }
    error := NoError;
  }

  // ----- what the transactions guarantee one by one -----

  /** The years of any two register years come back sorted, valid and without duplicates, so storing
      the completed years of a full pass stores exactly the years that had to be synced. */
  lemma YearsAreSorted(oldYear: Option<int>, newYear: int)
    ensures var years := ValidYears(RegisterYears(oldYear, newYear));
            && SortedYears(years) == years
            && (forall y :: y in years <==> ValidYear(y) && (y == newYear || oldYear == Some(y)))
  {
    if oldYear.Some? && oldYear.value != newYear {
      var lo, hi := if oldYear.value < newYear then oldYear.value else newYear,
                    if oldYear.value < newYear then newYear else oldYear.value;
      assert [lo, hi][1..] == [hi] && [hi][1..] == [];
      assert ValidYears([hi]) == if ValidYear(hi) then [hi] else [];
      assert SortedYears([hi]) == [hi];
    } else {
      assert [newYear][1..] == [];
    }
  }

  /** A claim on an undrifted operation is refused only while another claim is younger than 300
      seconds, counted from its truncated timestamp. */
  lemma ClaimGrantedIff(db: Db, preview: Preview, token: Token, now: nat)
    requires preview in db.audits
    requires db.audits[preview].op.proposedStatus == db.audits[preview].op.newState.of.values.extractionStatus
    ensures ClaimResult(db, preview, db.audits[preview].op.newState, token, now).Claimed? <==>
            && db.invoice == Some(db.audits[preview].op.newState.of)
            && (db.audits[preview].result.RegisterSyncing? ==> Stale(db.audits[preview].updatedAt, now))
  {
  }

  /** Because timestamps are cut to seconds, the time within its second counts for a claim. */
  lemma TakeoverIff(claimedAt: nat, now: nat)
    ensures Stale(Seconds(claimedAt), now) <==> now - claimedAt + claimedAt % MICROS >= CLAIM_SECONDS * MICROS
  {
  }

  /** So a claim can be taken over after more than 299 seconds, never before, and always from 300 seconds
      on; one made at the last microsecond of its second is gone a microsecond after 299 seconds. */
  lemma TakeoverAge(claimedAt: nat, now: nat)
    ensures Stale(Seconds(claimedAt), now) ==> now - claimedAt > (CLAIM_SECONDS - 1) * MICROS
    ensures now - claimedAt >= CLAIM_SECONDS * MICROS ==> Stale(Seconds(claimedAt), now)
    ensures claimedAt == MICROS - 1 && now == CLAIM_SECONDS * MICROS ==>
              Stale(Seconds(claimedAt), now) && now - claimedAt == (CLAIM_SECONDS - 1) * MICROS + 1
  {
    TakeoverIff(claimedAt, now);
  }
}
