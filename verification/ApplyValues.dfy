/** What the apply runs write: the values in the row after a rewrite are those that the run extracted, in
    every interleaving, and an approved invoice that nobody disturbs gets them and is synced. */
module ApplyValues {
  import opened Common
  import opened ReprocessApply
  import opened ApplyProtocol

  // ----- what is written was extracted -----

  predicate PreparedFrom(w: World, id: Worker, run: Run) {
    run.phase.Prepared? ==>
      var made := run.phase.made;
      && made in w.extracted && made.worker == id
      && run.preview == Preview(run.phase.item, made.version, made.proposal)
      && SafeProposal(made.metadata, Some(made.classification)) == Ok((run.phase.year, run.phase.values))
  }

  /** The row got the values of what the run that rewrote it had extracted, and nothing else changed. */
  predicate FromExtraction(w: World, r: Rewrite) {
    && r.made in w.extracted && r.preview == Preview(r.from, r.made.version, r.made.proposal)
    && r.to.registerYear.Some?
    && SafeProposal(r.made.metadata, Some(r.made.classification)) == Ok((r.to.registerYear.value, r.to.values))
    && r.to == Rewritten(r.from, r.to.registerYear.value, r.to.values, r.to.updatedAt)
  }

  predicate RunsFaithful(w: World) { forall id | id in w.runs :: PreparedFrom(w, id, w.runs[id]) }

  predicate RewritesFaithful(w: World) { forall i | 0 <= i < |w.rewrites| :: FromExtraction(w, w.rewrites[i]) }

  /** The step prepares nothing new, rewrites nothing and forgets no extraction. */
  predicate Adds(w: World, w': World, id: Worker) {
    && w.extracted <= w'.extracted && w'.rewrites == w.rewrites
    && forall k | k in w'.runs && k != id && w'.runs[k].phase.Prepared? :: k in w.runs && w.runs[k] == w'.runs[k]
  }

  lemma AddsKeeps(w: World, w': World, id: Worker)
    requires RunsFaithful(w) && RewritesFaithful(w) && Adds(w, w', id)
    requires id in w'.runs ==> PreparedFrom(w', id, w'.runs[id])
    ensures RunsFaithful(w') && RewritesFaithful(w')
  {
    forall k | k in w'.runs ensures PreparedFrom(w', k, w'.runs[k]) {
      if k != id && w'.runs[k].phase.Prepared? { assert PreparedFrom(w, k, w.runs[k]); }
    }
    forall i | 0 <= i < |w'.rewrites| ensures FromExtraction(w', w'.rewrites[i]) {
      assert FromExtraction(w, w.rewrites[i]);
    }
  }

  lemma ExtractKeepsFaith(w: World, s: Step)
    requires RunsFaithful(w) && RewritesFaithful(w) && s.Extract? && Enabled(w, s)
    ensures RunsFaithful(Next(w, s)) && RewritesFaithful(Next(w, s))
  {
    AddsKeeps(w, Next(w, s), s.id);
  }

  lemma RewriteIsFaithful(w: World, id: Worker)
    requires id in w.runs && w.runs[id].phase.Prepared? && PreparedFrom(w, id, w.runs[id]) && BeginOf(w, id).Rewrote?
    ensures w.db.invoice == Some(w.runs[id].phase.item)
    ensures FromExtraction(w, Rewrite(w.runs[id].preview, w.runs[id].phase.item, BeginOf(w, id).row,
                                      w.runs[id].phase.made))
  {
    var run := w.runs[id];
    assert BeginOf(w, id).row == Rewritten(run.phase.item, run.phase.year, run.phase.values, Seconds(w.now));
  }

  lemma RewroteKeepsFaith(w: World, id: Worker, row: Row, audit: Audit)
    requires RunsFaithful(w) && RewritesFaithful(w) && id in w.runs && w.runs[id].phase.Prepared?
    requires FromExtraction(w, Rewrite(w.runs[id].preview, w.runs[id].phase.item, row, w.runs[id].phase.made))
    requires w.db.invoice == Some(w.runs[id].phase.item)
    ensures RunsFaithful(RewroteBy(w, id, row, audit)) && RewritesFaithful(RewroteBy(w, id, row, audit))
  {
    var w' := RewroteBy(w, id, row, audit);
    AddsKeeps(w, w'.(rewrites := w.rewrites), id);
    forall i | 0 <= i < |w'.rewrites| ensures FromExtraction(w', w'.rewrites[i]) {
      if i < |w.rewrites| { assert FromExtraction(w, w.rewrites[i]); }
    }
  }

  lemma BeginKeepsFaith(w: World, id: Worker)
    requires RunsFaithful(w) && RewritesFaithful(w) && Enabled(w, Begin(id))
    ensures RunsFaithful(DoBegin(w, id)) && RewritesFaithful(DoBegin(w, id))
  {
    if BeginOf(w, id).Rewrote? {
      assert PreparedFrom(w, id, w.runs[id]);
      RewriteIsFaithful(w, id);
      RewroteKeepsFaith(w, id, BeginOf(w, id).row, BeginOf(w, id).audit);
    } else {
      AddsKeeps(w, DoBegin(w, id), id);
    }
  }

  /** Nothing is extracted or rewritten, and whoever is prepared was so before. */
  predicate PreparesNothing(w: World, w': World) {
    && w'.extracted == w.extracted && w'.rewrites == w.rewrites
    && forall k | k in w'.runs && w'.runs[k].phase.Prepared? :: k in w.runs && w.runs[k] == w'.runs[k]
  }

  lemma ReadsPrepareNothing(w: World, s: Step)
    requires s.ReadRow? || s.ReadAudit? || s.Recheck?
    ensures PreparesNothing(w, Exec(w, s))
  {
  }

  lemma ClaimPreparesNothing(w: World, id: Worker, token: Token)
    ensures PreparesNothing(w, Exec(w, Claim(id, token)))
  {
  }

  lemma YearsPrepareNothing(w: World, s: Step)
    requires s.CheckYear? || s.SyncYear?
    ensures PreparesNothing(w, Exec(w, s))
  {
  }

  lemma FinishPreparesNothing(w: World, id: Worker)
    ensures PreparesNothing(w, Exec(w, Finish(id)))
  {
  }

  lemma SurroundingsPrepareNothing(w: World, s: Step)
    requires s.Crash? || s.Tick? || s.Edit?
    ensures PreparesNothing(w, Exec(w, s))
  {
  }

  /** No other step prepares a rewrite. */
  lemma OthersPrepareNothing(w: World, s: Step)
    requires !s.Extract? && !s.Begin?
    ensures PreparesNothing(w, Exec(w, s))
  {
    if s.ReadRow? || s.ReadAudit? || s.Recheck? {
      ReadsPrepareNothing(w, s);
    } else if s.Crash? || s.Tick? || s.Edit? {
      SurroundingsPrepareNothing(w, s);
    } else if s.Finish? {
      FinishPreparesNothing(w, s.id);
    } else if s.Claim? {
      ClaimPreparesNothing(w, s.id, s.token);
    } else {
      YearsPrepareNothing(w, s);
    }
  }

  lemma StepKeepsFaith(w: World, s: Step)
    requires RunsFaithful(w) && RewritesFaithful(w)
    ensures RunsFaithful(Exec(w, s)) && RewritesFaithful(Exec(w, s))
  {
    if s.Begin? {
      if Enabled(w, s) { BeginKeepsFaith(w, s.id); }
    } else if s.Extract? {
      if Enabled(w, s) { ExtractKeepsFaith(w, s); }
    } else {
      OthersPrepareNothing(w, s);
      var w' := Exec(w, s);
      forall k | k in w'.runs ensures PreparedFrom(w', k, w'.runs[k]) {
        if w'.runs[k].phase.Prepared? { assert PreparedFrom(w, k, w.runs[k]); }
      }
      forall i | 0 <= i < |w'.rewrites| ensures FromExtraction(w', w'.rewrites[i]) {
        assert FromExtraction(w, w.rewrites[i]);
      }
    }
  }

  lemma {:induction false} ExecuteKeepsFaith(w: World, steps: seq<Step>)
    requires RunsFaithful(w) && RewritesFaithful(w)
    ensures RunsFaithful(Execute(w, steps)) && RewritesFaithful(Execute(w, steps))
    decreases |steps|
  {
    if steps != [] {
      StepKeepsFaith(w, steps[0]);
      ExecuteKeepsFaith(Exec(w, steps[0]), steps[1..]);
    }
  }

  /** The step in which the run got it from the extractor. */
  function StepOf(e: Extraction): Step { Extract(e.worker, e.metadata, e.classification, e.version, e.proposal) }

  lemma OneStepExtracts(w: World, s: Step)
    ensures forall e | e in Exec(w, s).extracted :: e in w.extracted || s == StepOf(e)
  {
    if !s.Extract? && !s.Begin? { OthersPrepareNothing(w, s); }
  }

  lemma {:induction false} ExtractedInSteps(w: World, steps: seq<Step>, e: Extraction)
    requires e in Execute(w, steps).extracted && e !in w.extracted
    ensures StepOf(e) in steps
    decreases |steps|
  {
    if steps != [] {
      OneStepExtracts(w, steps[0]);
      if steps[0] != StepOf(e) { ExtractedInSteps(Exec(w, steps[0]), steps[1..], e); }
    }
  }

  /** Over every interleaving: each rewrite was made by a run that extracted a confirmed proposal from the
      approved row, and it put exactly that proposal's values and year into the row, nothing else. */
  lemma RewritesCarryTheExtracted(start: World, steps: seq<Step>, i: nat)
    requires Initial(start) && i < |Execute(start, steps).rewrites|
    ensures var r := Execute(start, steps).rewrites[i];
            && StepOf(r.made) in steps
            && r.preview == Preview(r.from, r.made.version, r.made.proposal)
            && r.made.metadata.year.Some? && r.to.registerYear == r.made.metadata.year
            && SafeValues(r.made.metadata, r.to.registerYear.value, r.to.values)
            && Carries(r.made.metadata, r.to.values)
            && OnlyValuesDiffer(r.from, r.to)
  {
    ExecuteKeepsFaith(start, steps);
    var r := Execute(start, steps).rewrites[i];
    assert FromExtraction(Execute(start, steps), r);
    AcceptedCarries(r.made.metadata, Some(r.made.classification));
    ExtractedInSteps(start, steps, r.made);
  }

  /** The columns that no apply writes are as they were. */
  predicate OnlyValuesDiffer(from: Row, to: Row) {
    to.id == from.id && to.status == from.status && to.path == from.path && to.joined == from.joined
  }

  // ----- an approved invoice gets its values -----

  /** The second half of a run: the written row is checked, claimed and synced. */
  function SyncWritten(id: Worker, token: Token, years: nat): seq<Step> {
    [Recheck(id)] + ([Claim(id, token)] + SyncAll(id, years))
  }

  /** What a run does for an approval that nobody has used. */
  function FreshRun(id: Worker, p: Preview, metadata: Metadata, token: Token, years: nat): seq<Step> {
    [ReadRow(id, p), ReadAudit(id)] + ([Extract(id, metadata, "improved", p.version, p.proposal)]
    + ([Begin(id)] + SyncWritten(id, token, years)))
  }

  /** The row is the approved one, archived and undecided. */
  predicate Approved(w: World, p: Preview) {
    && w.db.invoice == Some(p.record) && p !in w.db.audits
    && p.record.status in {"uploaded", "duplicate"} && p.record.path != ""
    && Strip(p.record.values.extractionStatus) in {"", "review", "unclassified"}
  }

  lemma ApprovedIsEligible(w: World, p: Preview)
    requires Approved(w, p)
    ensures Eligible(p.record)
  {
    IneligibleMeans(p.record);
    assert {"", "review", "unclassified"} !! {CONFIRMED, CORRECTED};
  }

  lemma FreshReads(w: World, id: Worker, p: Preview, rest: seq<Step>) returns (w': World)
    requires Approved(w, p) && Eligible(p.record) && id !in w.runs
    ensures Reached(w, w', id, Run(p, Extracting(p.record, None))) && w'.rewrites == w.rewrites
    ensures Execute(w, [ReadRow(id, p), ReadAudit(id)] + rest) == Execute(w', rest)
  {
    var w1 := Exec(w, ReadRow(id, p));
    assert Reached(w, w1, id, Run(p, ReadingAudit(w.db.invoice)));
    w' := Exec(w1, ReadAudit(id));
    ExecuteTwo(w, ReadRow(id, p), ReadAudit(id), rest);
  }

  predicate ReadyToWrite(run: Run, id: Worker, p: Preview, metadata: Metadata)
    requires SafeProposal(metadata, Some("improved")).Ok?
  {
    var safe := SafeProposal(metadata, Some("improved")).value;
    run == Run(p, Prepared(p.record, Extraction(id, metadata, "improved", p.version, p.proposal), safe.0, safe.1))
  }

  lemma FreshExtracts(w: World, id: Worker, p: Preview, metadata: Metadata, rest: seq<Step>) returns (w': World)
    requires id in w.runs && w.runs[id] == Run(p, Extracting(p.record, None))
    requires SafeProposal(metadata, Some("improved")).Ok?
    ensures id in w'.runs && ReadyToWrite(w'.runs[id], id, p, metadata)
    ensures w'.db == w.db && w'.claims == w.claims && w'.rewrites == w.rewrites
    ensures Execute(w, [Extract(id, metadata, "improved", p.version, p.proposal)] + rest) == Execute(w', rest)
  {
    w' := Exec(w, Extract(id, metadata, "improved", p.version, p.proposal));
    ExecuteOne(w, Extract(id, metadata, "improved", p.version, p.proposal), rest);
  }

  /** The row was rewritten with the proposal's values. */
  predicate Written(w': World, w: World, id: Worker, p: Preview, metadata: Metadata)
    requires SafeProposal(metadata, Some("improved")).Ok?
  {
    var safe := SafeProposal(metadata, Some("improved")).value;
    && Undrifted(w', p) && w'.db.audits[p].result == RegisterPending
    && w'.db.audits[p].op.proposedStatus == w'.db.invoice.value.values.extractionStatus
    && id in w'.runs && w'.runs[id] == Run(p, Applied(w'.db.audits[p].op)) && w'.claims == w.claims
    && w'.db.audits[p].op.registerYears == RegisterYears(p.record.registerYear, safe.0)
    && w'.db.invoice.value.registerYear == Some(safe.0) && w'.db.invoice.value.values == safe.1
  }

  lemma FreshBegins(w: World, id: Worker, p: Preview, metadata: Metadata, rest: seq<Step>) returns (w': World)
    requires SafeProposal(metadata, Some("improved")).Ok?
    requires Approved(w, p) && Eligible(p.record) && id in w.runs && ReadyToWrite(w.runs[id], id, p, metadata)
    ensures Written(w', w, id, p, metadata)
    ensures Execute(w, [Begin(id)] + rest) == Execute(w', rest)
  {
    w' := Exec(w, Begin(id));
    BeginRewrites(w, id, p);
    ExecuteOne(w, Begin(id), rest);
  }

  lemma BeginRewrites(w: World, id: Worker, p: Preview)
    requires Approved(w, p) && Eligible(p.record)
    requires id in w.runs && w.runs[id].preview == p && w.runs[id].phase.Prepared? && w.runs[id].phase.item == p.record
    ensures BeginOf(w, id).Rewrote?
    ensures BeginOf(w, id).row == Rewritten(p.record, w.runs[id].phase.year, w.runs[id].phase.values, Seconds(w.now))
    ensures Exec(w, Begin(id)) == RewroteBy(w, id, BeginOf(w, id).row, BeginOf(w, id).audit)
  {
  }

  lemma WrittenIsSynced(w: World, id: Worker, p: Preview, token: Token)
    requires Undrifted(w, p) && w.db.audits[p].result == RegisterPending && token !in w.claims
    requires w.db.audits[p].op.proposedStatus == w.db.invoice.value.values.extractionStatus
    requires id in w.runs && w.runs[id] == Run(p, Applied(w.db.audits[p].op))
    ensures var w' := Execute(w, SyncWritten(id, token, |YearsToSync(w.db.audits[p].op)|));
            FullySynced(w', p) && SameWork(w', w, p)
  {
    var last := SyncAll(id, |YearsToSync(w.db.audits[p].op)|);
    var w1 := RetryRechecks(w, id, p, [Claim(id, token)] + last);
    var w2 := RetryClaims(w1, id, p, token, last);
    AllYears(w2, id, p, token, []);
  }

  /** An approved invoice with an accepted proposal is rewritten with the proposal's values and year and
      synced for its years, when a run is left alone and the registers cooperate. */
  lemma ApprovedRunCompletes(w: World, id: Worker, p: Preview, metadata: Metadata, token: Token)
    requires Approved(w, p) && id !in w.runs && token !in w.claims
    requires SafeProposal(metadata, Some("improved")).Ok?
    ensures var years := ValidYears(RegisterYears(p.record.registerYear, metadata.year.value));
            var w' := Execute(w, FreshRun(id, p, metadata, token, |years|));
            && FullySynced(w', p) && w'.db.audits[p].completedYears == years
            && w'.db.invoice.Some? && w'.db.invoice.value.registerYear == metadata.year
            && Carries(metadata, w'.db.invoice.value.values)
  {
    ApprovedIsEligible(w, p);
    var years := ValidYears(RegisterYears(p.record.registerYear, metadata.year.value));
    var syncing := SyncWritten(id, token, |years|);
    var w1 := FreshReads(w, id, p, [Extract(id, metadata, "improved", p.version, p.proposal)]
                                   + ([Begin(id)] + syncing));
    var w2 := FreshExtracts(w1, id, p, metadata, [Begin(id)] + syncing);
    var w3 := FreshBegins(w2, id, p, metadata, syncing);
    WrittenIsSynced(w3, id, p, token);
    AcceptedCarries(metadata, Some("improved"));
    YearsAreSorted(p.record.registerYear, metadata.year.value);
  }

  // ----- why a run goes on -----

  /** A run goes on from an eligible row or from the row that the known operation wrote, and is refused for what
      is true of the row. */
  lemma ReadMeans(item: Option<Row>, known: Option<Operation>)
    ensures match AfterRead(item, known)
            case Extracting(row, op) =>
              && item == Some(row) && op == known
              && if known.None? then Eligible(row)
                 else Fingerprint(row) == known.value.newState
                      && row.values.extractionStatus == known.value.proposedStatus
            case Over(LocalStateDrift) => item.Some? && known.Some? && Fingerprint(item.value) != known.value.newState
            case Over(ProtectedStatusDrift) =>
              && item.Some?
              && if known.None? then RequireEligible(item.value) == ProtectedStatusDrift
                 else item.value.values.extractionStatus != known.value.proposedStatus
            case Over(code) => if item.None? then code == InvoiceNotFound
                               else known.None? && !Eligible(item.value) && code == RequireEligible(item.value)
            case _ => false
  {
  }

  /** A proposal is written only for the approved preview and when it is safe, and an operation that is known is
      carried on only with its own version and proposal. */
  lemma ExtractMeans(preview: Preview, item: Row, known: Option<Operation>, made: Extraction)
    ensures var phase, approved := AfterExtract(preview, item, known, made),
              Preview(item, made.version, made.proposal) == preview;
            var safe := SafeProposal(made.metadata, if known.None? then Some(made.classification) else None);
            && (phase.Prepared? <==> known.None? && approved && safe.Ok?)
            && (phase.Prepared? ==> phase == Prepared(item, made, safe.value.0, safe.value.1))
            && (phase.Applied? <==> known.Some? && safe.Ok? && made.version == known.value.version
                                    && made.proposal == known.value.proposal)
            && (phase.Applied? ==> phase.op == known.value)
            && (phase == Over(PreviewDrift) <==> known.None? && !approved)
            && (safe.Err? && (known.Some? || approved) ==> phase == Over(safe.error))
            && (known.Some? && safe.Ok? && made.version != known.value.version ==> phase == Over(ExtractorVersionDrift))
            && (known.Some? && safe.Ok? && made.version == known.value.version ==>
                  made.proposal != known.value.proposal ==> phase == Over(ProposalDrift))
  {
    var classification := if known.None? then Some(made.classification) else None;
    if SafeProposal(made.metadata, classification).Err? { RefusalMeans(made.metadata, classification); }
  }

  // ----- how often the row was made eligible again -----

  /** The edits from outside that make a row eligible which was not. */
  function Reopenings(w: World, steps: seq<Step>): nat
    decreases |steps|
  {
    if steps == [] then 0
    else
      (match steps[0]
       case Edit(Some(row)) => if Eligible(row) && (w.db.invoice.Some? ==> !Eligible(w.db.invoice.value)) then 1 else 0
       case _ => 0)
      + Reopenings(Exec(w, steps[0]), steps[1..])
  }

  lemma {:induction false} ReopenedCounts(w: World, steps: seq<Step>)
    ensures Execute(w, steps).reopened == w.reopened + Reopenings(w, steps)
    decreases |steps|
  {
    if steps != [] {
      OneStepReopens(w, steps[0]);
      ReopenedCounts(Exec(w, steps[0]), steps[1..]);
    }
  }

  lemma OneStepReopens(w: World, s: Step)
    ensures Exec(w, s).reopened == w.reopened
            + if s.Edit? && s.row.Some? && Eligible(s.row.value)
                 && (w.db.invoice.Some? ==> !Eligible(w.db.invoice.value)) then 1 else 0
  {
    if s.Claim? {
      ClaimEffect(w, s.id, s.token);
    } else if s.Finish? {
      FinishEffect(w, s.id);
    } else if !s.Begin? && !s.Edit? {
      QuietSteps(w, s);
    }
  }

  /** From the start on, the row is rewritten at most once and once more for each such edit. */
  lemma RewritesAreBounded(start: World, steps: seq<Step>)
    requires Initial(start)
    ensures |Execute(start, steps).rewrites| <= 1 + Reopenings(start, steps)
  {
    RewrittenAtMostOnce(Execute(start, steps));
    ReopenedCounts(start, steps);
  }

  // ----- attempts -----

  /** The attempts on record grow by one with every granted claim of the operation, and only then. */
  lemma AttemptsCountClaims(w: World, s: Step, p: Preview)
    requires p in w.db.audits
    ensures p in Exec(w, s).db.audits
    ensures Exec(w, s).db.audits[p].attempts == w.db.audits[p].attempts
            + if s.Claim? && Enabled(w, s) && w.runs[s.id].preview == p && s.token in Exec(w, s).claims then 1 else 0
  {
    if s.Claim? {
      AttemptsAtClaim(w, s.id, s.token, p);
    } else if s.Finish? {
      AttemptsAtFinish(w, s.id, p);
    } else if s.Begin? {
      BeginAddsOnly(w, s.id, p);
    } else if !s.Edit? {
      QuietSteps(w, s);
    }
  }

  lemma AttemptsAtClaim(w: World, id: Worker, token: Token, p: Preview)
    requires p in w.db.audits
    ensures var w' := Exec(w, Claim(id, token));
            && p in w'.db.audits
            && w'.db.audits[p].attempts == w.db.audits[p].attempts
               + if Enabled(w, Claim(id, token)) && w.runs[id].preview == p && token in w'.claims then 1 else 0
  {
  }

  lemma AttemptsAtFinish(w: World, id: Worker, p: Preview)
    requires p in w.db.audits
    ensures p in Exec(w, Finish(id)).db.audits
    ensures Exec(w, Finish(id)).db.audits[p].attempts == w.db.audits[p].attempts
  {
    if Enabled(w, Finish(id)) {
      var q := w.runs[id].phase;
      var error := if q.Finishing? then q.error else NoError;
      var r := FinishResult(w.db, w.runs[id].preview, q.token, q.done, error, w.now);
      assert Exec(w, Finish(id)).db == AfterFinish(w.db, w.runs[id].preview, r);
    }
  }

  // ----- the years on record -----

  predicate Ascending(years: seq<int>) { forall i, j | 0 <= i < j < |years| :: years[i] < years[j] }

  lemma {:induction false} InsertKeeps(y: int, sorted: seq<int>)
    requires Ascending(sorted)
    ensures Ascending(Insert(y, sorted)) && forall x :: x in Insert(y, sorted) <==> x == y || x in sorted
  {
    if sorted != [] && y > sorted[0] {
      InsertKeeps(y, sorted[1..]);
      assert sorted == [sorted[0]] + sorted[1..];
      forall x | x in Insert(y, sorted[1..]) ensures sorted[0] < x {
        if x != y { assert exists k :: 1 <= k < |sorted| && sorted[k] == x; }
      }
    }
  }

  /** Whatever years are recorded as completed, they are stored ascending and once each; read back, the same
      without those that are no register years. */
  lemma {:induction false} SortedYearsAre(years: seq<int>)
    ensures Ascending(SortedYears(years)) && forall y :: y in SortedYears(years) <==> y in years
    ensures Ascending(ValidYears(years)) && forall y :: y in ValidYears(years) <==> y in years && ValidYear(y)
  {
    if years != [] {
      SortedYearsAre(years[1..]);
      InsertKeeps(years[0], SortedYears(years[1..]));
      InsertKeeps(years[0], ValidYears(years[1..]));
      assert years == [years[0]] + years[1..];
    }
  }

  /** The register years of an operation are stored ascending too. */
  lemma RegisterYearsAre(oldYear: Option<int>, newYear: int)
    ensures var years := RegisterYears(oldYear, newYear);
            Ascending(years) && forall y :: y in years <==> y == newYear || oldYear == Some(y)
  {
  }

  // ----- what is recorded at the end -----

  /** An operation that ended well says when and has no error; one whose sync failed has an error and no such
      time. */
  predicate EndIsTrue(a: Audit) {
    && (a.result == Completed ==> a.error == NoError && a.completedAt == Some(a.updatedAt))
    && (a.result == RegisterFailed ==> a.error != NoError && a.completedAt == None)
  }

  predicate EndsAreTrue(db: Db) { forall p | p in db.audits :: EndIsTrue(db.audits[p]) }

  lemma BeginKeepsEnds(w: World, id: Worker)
    requires EndsAreTrue(w.db)
    ensures EndsAreTrue(Exec(w, Begin(id)).db)
  {
  }

  lemma ClaimKeepsEnds(w: World, id: Worker, token: Token)
    requires EndsAreTrue(w.db)
    ensures EndsAreTrue(Exec(w, Claim(id, token)).db)
  {
    ClaimEffect(w, id, token);
  }

  lemma FinishKeepsEnds(w: World, id: Worker)
    requires EndsAreTrue(w.db)
    ensures EndsAreTrue(Exec(w, Finish(id)).db)
  {
  }

  /** Over every interleaving what is recorded at the end of an operation is true. */
  lemma {:induction false} ExecuteKeepsEnds(w: World, steps: seq<Step>)
    requires EndsAreTrue(w.db)
    ensures EndsAreTrue(Execute(w, steps).db)
    decreases |steps|
  {
    if steps != [] {
      var s := steps[0];
      if s.Begin? {
        BeginKeepsEnds(w, s.id);
      } else if s.Claim? {
        ClaimKeepsEnds(w, s.id, s.token);
      } else if s.Finish? {
        FinishKeepsEnds(w, s.id);
      } else if !s.Edit? {
        QuietSteps(w, s);
      }
      ExecuteKeepsEnds(Exec(w, s), steps[1..]);
    }
  }
}
