/** Any number of apply runs for one attachment, interleaved with each other, with crashes, with the
    clock and with other programs that edit the row.  A run reads the row, reads the audit row,
    extracts a proposal, rewrites the row, claims the register sync and syncs year by year; every
    database access is one step. */
module ApplyProtocol {
  import opened Common
  import opened ReprocessApply

  type Worker = nat

  datatype Phase =
    | ReadingAudit(read: Option<Row>)
    | Extracting(item: Row, known: Option<Operation>)
    | Prepared(item: Row, made: Extraction, year: int, values: Values)
    | Applied(op: Operation)
    | Rechecked(op: Operation)
    | Syncing(token: Token, op: Operation, done: seq<int>, checked: Option<Row>)
    | Finishing(token: Token, op: Operation, done: seq<int>, error: Code)
    | Over(code: Code)

  datatype Run = Run(preview: Preview, phase: Phase)

  /** What the extractor gave to a run. */
  datatype Extraction = Extraction(worker: Worker, metadata: Metadata, classification: string, version: string,
                                   proposal: string)

  datatype Rewrite = Rewrite(preview: Preview, from: Row, to: Row, made: Extraction)

  datatype Claimant = Claimant(worker: Worker, preview: Preview, at: nat)

  /** A successful register sync and the row that was checked right before it. */
  datatype Synced = Synced(year: int, row: Row)

  /** The database, the clock and the runs, and what has happened so far: what was extracted, the rewrites
      of the row, who claimed when and with which token, the syncs made under each token, the tokens that
      were handed in, the token that completed each operation, and how often an edit made the row eligible
      again. */
  datatype World = World(
    db: Db, now: nat, runs: map<Worker, Run>,
    extracted: set<Extraction>, rewrites: seq<Rewrite>, claims: map<Token, Claimant>, synced: map<Token, seq<Synced>>,
    ended: set<Token>, completedBy: map<Preview, Token>, reopened: nat)

  datatype Step =
    | ReadRow(id: Worker, preview: Preview)
    | ReadAudit(id: Worker)
    | Extract(id: Worker, metadata: Metadata, classification: string, version: string, proposal: string)
    | Begin(id: Worker)
    | Recheck(id: Worker)
    | Claim(id: Worker, token: Token)
    | CheckYear(id: Worker)
    | SyncYear(id: Worker, error: Code)
    | Finish(id: Worker)
    | Crash(id: Worker)
    | Tick(elapsed: nat)
    | Edit(row: Option<Row>)

  predicate Initial(w: World) {
    && w.db.audits == map[] && w.runs == map[]
    && w.extracted == {} && w.rewrites == [] && w.claims == map[] && w.synced == map[] && w.ended == {}
    && w.completedBy == map[] && w.reopened == 0
  }

  predicate Open(db: Db) { db.invoice.Some? && Eligible(db.invoice.value) }

  function PhaseOf(w: World, id: Worker): Phase { if id in w.runs then w.runs[id].phase else Over(NoError) }

  function Goto(w: World, id: Worker, phase: Phase): World
    requires id in w.runs
  {
    w.(runs := w.runs[id := w.runs[id].(phase := phase)])
  }

  // ----- one step -----

  /** The checks on what was read: an operation that is already in the audit table must be undrifted. */
  function AfterRead(item: Option<Row>, known: Option<Operation>): Phase {
    if item.None? then Over(InvoiceNotFound)
    else if known.None? then
      if Eligible(item.value) then Extracting(item.value, None) else Over(RequireEligible(item.value))
    else if Fingerprint(item.value) != known.value.newState then Over(LocalStateDrift)
    else if item.value.values.extractionStatus != known.value.proposedStatus then Over(ProtectedStatusDrift)
    else Extracting(item.value, known)
  }

  /** The checks on the extracted proposal, for a new operation and for one that is in the table. */
  function AfterExtract(preview: Preview, item: Row, known: Option<Operation>, made: Extraction): Phase {
    match known
    case None =>
      if Preview(item, made.version, made.proposal) != preview then Over(PreviewDrift)
      else
        var safe := SafeProposal(made.metadata, Some(made.classification));
        if safe.Err? then Over(safe.error) else Prepared(item, made, safe.value.0, safe.value.1)
    case Some(op) =>
      var safe := SafeProposal(made.metadata, None);
      if safe.Err? then Over(safe.error) else SameProposal(op, made.version, made.proposal)
  }

  function SameProposal(op: Operation, version: string, proposal: string): Phase {
    if version != op.version then Over(ExtractorVersionDrift)
    else if proposal != op.proposal then Over(ProposalDrift)
    else Applied(op)
  }

  function BeginOf(w: World, id: Worker): Begun
    requires id in w.runs && w.runs[id].phase.Prepared?
  {
    var run := w.runs[id];
    BeginResult(w.db, run.phase.item, run.preview, run.phase.made.proposal, run.phase.made.version, run.phase.year,
                run.phase.values, w.now)
  }

  function DoBegin(w: World, id: Worker): World
    requires id in w.runs && w.runs[id].phase.Prepared?
  {
    var run := w.runs[id];
    match BeginOf(w, id)
    case Refused(code) => Goto(w, id, Over(code))
    case Known(audit) => Goto(w, id, SameProposal(audit.op, run.phase.made.version, run.phase.made.proposal))
    case Rewrote(row, audit) => RewroteBy(w, id, row, audit)
  }

  function RewroteBy(w: World, id: Worker, row: Row, audit: Audit): World
    requires id in w.runs && w.runs[id].phase.Prepared?
  {
    var run := w.runs[id];
    w.(runs := w.runs[id := run.(phase := Applied(audit.op))],
       db := AfterBegin(w.db, run.preview, Rewrote(row, audit)),
       rewrites := w.rewrites + [Rewrite(run.preview, if w.db.invoice.Some? then w.db.invoice.value else row, row,
                                         run.phase.made)])
  }

  function ClaimOf(w: World, id: Worker, token: Token): Claim
    requires id in w.runs && w.runs[id].phase.Rechecked?
  {
    ClaimResult(w.db, w.runs[id].preview, w.runs[id].phase.op.newState, token, w.now)
  }

  function DoClaim(w: World, id: Worker, token: Token): World
    requires id in w.runs && w.runs[id].phase.Rechecked?
  {
    match ClaimOf(w, id, token)
    case Rejected(code) => Goto(w, id, Over(code))
    case InProgress(_) => Goto(w, id, Over(RegisterSyncInProgress))
    case Claimed(audit) => ClaimedBy(w, id, token, audit)
  }

  function ClaimedBy(w: World, id: Worker, token: Token, audit: Audit): World
    requires id in w.runs
  {
    var run := w.runs[id];
    w.(runs := w.runs[id := run.(phase := Syncing(token, audit.op, [], None))],
       db := AfterClaim(w.db, run.preview, Claimed(audit)),
       claims := w.claims[token := Claimant(id, run.preview, w.now)], synced := w.synced[token := []])
  }

  function RowMatches(db: Db, state: Digest): bool { db.invoice.Some? && Fingerprint(db.invoice.value) == state }

  function DoCheckYear(w: World, id: Worker): World
    requires id in w.runs && w.runs[id].phase.Syncing?
  {
    var p := w.runs[id].phase;
    if RowMatches(w.db, p.op.newState) then Goto(w, id, p.(checked := w.db.invoice))
    else Goto(w, id, Finishing(p.token, p.op, p.done, LocalStateDrift))
  }

  function DoSyncYear(w: World, id: Worker, error: Code): World
    requires id in w.runs && w.runs[id].phase.Syncing? && w.runs[id].phase.checked.Some?
    requires |w.runs[id].phase.done| < |YearsToSync(w.runs[id].phase.op)|
  {
    var p := w.runs[id].phase;
    var year := YearsToSync(p.op)[|p.done|];
    if error != NoError then Goto(w, id, Finishing(p.token, p.op, p.done, error))
    else
      var before := if p.token in w.synced then w.synced[p.token] else [];
      Goto(w, id, Syncing(p.token, p.op, p.done + [year], None))
        .(synced := w.synced[p.token := before + [Synced(year, p.checked.value)]])
  }

  function DoFinish(w: World, id: Worker, token: Token, done: seq<int>, error: Code): World
    requires id in w.runs
  {
    match FinishResult(w.db, w.runs[id].preview, token, done, error, w.now)
    case Err(code) => Goto(w, id, Over(code)).(ended := w.ended + {token})
    case Ok(audit) => FinishedBy(w, id, token, audit)
  }

  function FinishedBy(w: World, id: Worker, token: Token, audit: Audit): World
    requires id in w.runs
  {
    var run := w.runs[id];
    w.(runs := w.runs[id := run.(phase := Over(audit.error))],
       db := AfterFinish(w.db, run.preview, Ok(audit)), ended := w.ended + {token},
       completedBy := if audit.result.Completed? then w.completedBy[run.preview := token] else w.completedBy)
  }

  /** Whether the step can happen; tokens are fresh. */
  predicate Enabled(w: World, s: Step) {
    match s
    case ReadRow(id, _) => id !in w.runs
    case ReadAudit(id) => PhaseOf(w, id).ReadingAudit?
    case Extract(id, _, _, _, _) => PhaseOf(w, id).Extracting?
    case Begin(id) => PhaseOf(w, id).Prepared?
    case Recheck(id) => PhaseOf(w, id).Applied?
    case Claim(id, token) => PhaseOf(w, id).Rechecked? && token !in w.claims
    case CheckYear(id) =>
      var p := PhaseOf(w, id);
      p.Syncing? && p.checked.None? && |p.done| < |YearsToSync(p.op)|
    case SyncYear(id, _) =>
      var p := PhaseOf(w, id);
      p.Syncing? && p.checked.Some? && |p.done| < |YearsToSync(p.op)|
    case Finish(id) =>
      var p := PhaseOf(w, id);
      p.Finishing? || (p.Syncing? && p.checked.None? && |p.done| >= |YearsToSync(p.op)|)
    case Crash(id) => id in w.runs
    case Tick(_) => true
    case Edit(_) => true
  }

  function Next(w: World, s: Step): World
    requires Enabled(w, s)
  {
    match s
    case ReadRow(id, preview) => w.(runs := w.runs[id := Run(preview, ReadingAudit(w.db.invoice))])
    case ReadAudit(id) =>
      var run := w.runs[id];
      var known := if run.preview in w.db.audits then Some(w.db.audits[run.preview].op) else None;
      Goto(w, id, AfterRead(run.phase.read, known))
    case Extract(id, metadata, classification, version, proposal) =>
      var run, made := w.runs[id], Extraction(id, metadata, classification, version, proposal);
      Goto(w, id, AfterExtract(run.preview, run.phase.item, run.phase.known, made))
        .(extracted := w.extracted + {made})
    case Begin(id) => DoBegin(w, id)
    case Recheck(id) =>
      var op := w.runs[id].phase.op;
      Goto(w, id, if RowMatches(w.db, op.newState) then Rechecked(op) else Over(LocalStateDrift))
    case Claim(id, token) => DoClaim(w, id, token)
    case CheckYear(id) => DoCheckYear(w, id)
    case SyncYear(id, error) => DoSyncYear(w, id, error)
    case Finish(id) =>
      var p := w.runs[id].phase;
      DoFinish(w, id, p.token, p.done, if p.Finishing? then p.error else NoError)
    case Crash(id) => Goto(w, id, Over(Crashed))
    case Tick(elapsed) => w.(now := w.now + elapsed)
    case Edit(row) =>
      var db := w.db.(invoice := row);
      w.(db := db, reopened := w.reopened + if Open(db) && !Open(w.db) then 1 else 0)
  }

  function Exec(w: World, s: Step): World { if Enabled(w, s) then Next(w, s) else w }

  function Execute(w: World, steps: seq<Step>): World
    decreases |steps|
  {
    if steps == [] then w else Execute(Exec(w, steps[0]), steps[1..])
  }

  // ----- the invariant -----

  predicate IsOperation(db: Db, preview: Preview, op: Operation) {
    preview in db.audits && db.audits[preview].op == op
  }

  function Stamped(years: seq<int>, row: Row): seq<Synced> {
    seq(|years|, i requires 0 <= i < |years| => Synced(years[i], row))
  }

  /** The token belongs to this worker's claim of this operation, is not handed in, and exactly the
      years done so far were synced under it, each right after seeing the row this operation wrote. */
  predicate HoldsToken(w: World, id: Worker, preview: Preview, token: Token, op: Operation, done: seq<int>) {
    && IsOperation(w.db, preview, op)
    && token in w.claims && w.claims[token].worker == id && w.claims[token].preview == preview && token !in w.ended
    && done <= YearsToSync(op)
    && token in w.synced && w.synced[token] == Stamped(done, op.newState.of)
  }

  predicate RunOk(w: World, id: Worker, run: Run) {
    match run.phase
    case ReadingAudit(_) => true
    case Extracting(item, known) => known.Some? ==> IsOperation(w.db, run.preview, known.value)
    case Prepared(item, made, year, values) =>
      && run.preview == Preview(item, made.version, made.proposal)
      && ValidYear(year) && values.extractionStatus == CONFIRMED
    case Applied(op) => IsOperation(w.db, run.preview, op)
    case Rechecked(op) => IsOperation(w.db, run.preview, op)
    case Syncing(token, op, done, checked) =>
      && HoldsToken(w, id, run.preview, token, op, done)
      && (checked.Some? ==> Fingerprint(checked.value) == op.newState)
    case Finishing(token, op, done, error) =>
      HoldsToken(w, id, run.preview, token, op, done) && error != NoError
    case Over(_) => true
  }

  /** What an operation is: it turned the approved row into the same row with confirmed values. */
  predicate OperationOk(p: Preview, op: Operation) {
    && op.preview == p && op.version == p.version && op.proposal == p.proposal
    && op.oldState == Fingerprint(p.record) && op.invoiceId == p.record.id
    && op.sourceStatus == SourceStatus(p.record) && op.oldYear == p.record.registerYear
    && op.newState.of.values.extractionStatus == op.proposedStatus == CONFIRMED
    && ValidYear(op.newYear) && op.registerYears == RegisterYears(p.record.registerYear, op.newYear)
    && op.newState.of == Rewritten(p.record, op.newYear, op.newState.of.values, op.createdAt)
  }

  /** The completion recorded for an operation: every year it had to sync was synced under that token. */
  predicate CompletedUnder(w: World, op: Operation, token: Token) {
    && token in w.ended && token in w.claims && w.claims[token].preview == op.preview
    && token in w.synced && w.synced[token] == Stamped(YearsToSync(op), op.newState.of)
  }

  predicate AuditOk(w: World, p: Preview, a: Audit) {
    && OperationOk(p, a.op)
    && a.updatedAt <= Seconds(w.now)
    && (a.result.RegisterSyncing? <==> a.token.Some?)
    && (a.token.Some? ==> a.token.value in w.claims && w.claims[a.token.value].preview == p
                          && a.updatedAt == Seconds(w.claims[a.token.value].at))
    && (a.result.Completed? ==> a.completedAt == Some(a.updatedAt))
    && (a.result.Completed? ==> a.completedYears == YearsToSync(a.op) && p in w.completedBy
                                && CompletedUnder(w, a.op, w.completedBy[p]))
  }

  predicate AuditsOk(w: World) { forall p | p in w.db.audits :: AuditOk(w, p, w.db.audits[p]) }

  predicate RunsOk(w: World) { forall id | id in w.runs :: RunOk(w, id, w.runs[id]) }

  predicate TokensOk(w: World) { w.ended <= w.claims.Keys && w.synced.Keys == w.claims.Keys }

  predicate RewriteOk(w: World, r: Rewrite) {
    && r.preview in w.db.audits
    && r.from == r.preview.record && Eligible(r.from)
    && Fingerprint(r.to) == w.db.audits[r.preview].op.newState
  }

  predicate RewritesOk(w: World) {
    && (forall i | 0 <= i < |w.rewrites| :: RewriteOk(w, w.rewrites[i]))
    && (forall i, j | 0 <= i < j < |w.rewrites| :: w.rewrites[i].preview != w.rewrites[j].preview)
    && (forall p | p in w.db.audits :: exists i :: 0 <= i < |w.rewrites| && w.rewrites[i].preview == p)
    && |w.rewrites| + (if Open(w.db) then 1 else 0) <= 1 + w.reopened
  }

  /** What holds of the table, the runs and the tokens. */
  predicate Orderly(w: World) { AuditsOk(w) && RunsOk(w) && TokensOk(w) }

  predicate Inv(w: World) { Orderly(w) && RewritesOk(w) }

  // ----- every step keeps it -----

  /** What a step of worker `but` may change as far as the runs of the others are concerned. */
  predicate Spares(w: World, w': World, but: Worker) {
    && (forall p | p in w.db.audits :: p in w'.db.audits && w'.db.audits[p].op == w.db.audits[p].op)
    && (forall t | t in w.claims && w.claims[t].worker != but && t in w.synced :: SameToken(w, w', t))
  }

  predicate SameToken(w: World, w': World, t: Token)
    requires t in w.claims && t in w.synced
  {
    && t in w'.claims && w'.claims[t] == w.claims[t] && (t in w'.ended ==> t in w.ended)
    && t in w'.synced && w'.synced[t] == w.synced[t]
  }

  lemma RunSpared(w: World, w': World, but: Worker, id: Worker, run: Run)
    requires RunOk(w, id, run) && id != but && Spares(w, w', but)
    ensures RunOk(w', id, run)
  {
  }

  /** What a step may change as far as an untouched audit row is concerned. */
  predicate KeepsRecords(w: World, w': World) {
    && w.now <= w'.now && w.ended <= w'.ended
    && (forall t | t in w.claims :: t in w'.claims && w'.claims[t] == w.claims[t])
    && (forall t | t in w.ended && t in w.synced :: t in w'.synced && w'.synced[t] == w.synced[t])
  }

  lemma AuditKept(w: World, w': World, p: Preview, a: Audit)
    requires AuditOk(w, p, a) && KeepsRecords(w, w')
    requires p in w.completedBy ==> p in w'.completedBy && w'.completedBy[p] == w.completedBy[p]
    ensures AuditOk(w', p, a)
  {
  }

  lemma LocalRuns(w: World, id: Worker, phase: Phase)
    requires RunsOk(w) && id in w.runs && RunOk(w, id, w.runs[id].(phase := phase))
    ensures RunsOk(Goto(w, id, phase))
  {
    OthersSpared(w, Goto(w, id, phase), id);
  }

  /** A step that only moves one run, to a phase that is in order. */
  lemma LocalStep(w: World, id: Worker, phase: Phase)
    requires Orderly(w) && id in w.runs && RunOk(w, id, w.runs[id].(phase := phase))
    ensures Orderly(Goto(w, id, phase))
  {
    LocalRuns(w, id, phase);
    AllAuditsKept(w, Goto(w, id, phase));
  }

  lemma OthersSpared(w: World, w': World, id: Worker)
    requires RunsOk(w) && Spares(w, w', id)
    requires w'.runs.Keys == w.runs.Keys + {id} && forall k | k in w.runs && k != id :: w'.runs[k] == w.runs[k]
    requires RunOk(w', id, w'.runs[id])
    ensures RunsOk(w')
  {
    forall k | k in w'.runs ensures RunOk(w', k, w'.runs[k]) {
      if k != id { RunSpared(w, w', id, k, w.runs[k]); }
    }
  }

  lemma AllAuditsKept(w: World, w': World)
    requires AuditsOk(w) && KeepsRecords(w, w')
    requires w'.db.audits == w.db.audits && w'.completedBy == w.completedBy
    ensures AuditsOk(w')
  {
    forall p | p in w'.db.audits ensures AuditOk(w', p, w'.db.audits[p]) {
      AuditKept(w, w', p, w.db.audits[p]);
    }
  }

  lemma ReadRowKeeps(w: World, id: Worker, preview: Preview)
    requires Orderly(w)
    ensures Orderly(Exec(w, ReadRow(id, preview)))
  {
    if id !in w.runs {
      var w' := Exec(w, ReadRow(id, preview));
      OthersSpared(w, w', id);
      AllAuditsKept(w, w');
    }
  }

  lemma ReadAuditKeeps(w: World, id: Worker)
    requires Orderly(w)
    ensures Orderly(Exec(w, ReadAudit(id)))
  {
    if Enabled(w, ReadAudit(id)) {
      var run := w.runs[id];
      LocalStep(w, id, AfterRead(run.phase.read, if run.preview in w.db.audits then Some(w.db.audits[run.preview].op)
                                 else None));
    }
  }

  lemma ExtractedPhaseOk(w: World, s: Step)
    requires s.Extract? && Enabled(w, s) && RunOk(w, s.id, w.runs[s.id])
    ensures RunOk(w, s.id, Next(w, s).runs[s.id])
  {
  }

  lemma ExtractionsAside(w: World, extracted: set<Extraction>)
    requires Orderly(w)
    ensures Orderly(w.(extracted := extracted))
  {
    var w' := w.(extracted := extracted);
    AllAuditsKept(w, w');
    forall k | k in w'.runs ensures RunOk(w', k, w'.runs[k]) { RunSpared(w, w', k + 1, k, w.runs[k]); }
  }

  lemma ExtractKeeps(w: World, s: Step)
    requires Orderly(w) && s.Extract?
    ensures Orderly(Exec(w, s))
  {
    if Enabled(w, s) {
      var phase := Next(w, s).runs[s.id].phase;
      ExtractedPhaseOk(w, s);
      LocalStep(w, s.id, phase);
      ExtractionsAside(Goto(w, s.id, phase), Next(w, s).extracted);
      assert Next(w, s) == Goto(w, s.id, phase).(extracted := Next(w, s).extracted);
    }
  }

  lemma RecheckKeeps(w: World, id: Worker)
    requires Orderly(w)
    ensures Orderly(Exec(w, Recheck(id)))
  {
    if Enabled(w, Recheck(id)) {
      assert RunOk(w, id, w.runs[id]);
      LocalStep(w, id, Next(w, Recheck(id)).runs[id].phase);
    }
  }

  lemma CheckedPhaseOk(w: World, id: Worker)
    requires id in w.runs && RunOk(w, id, w.runs[id]) && Enabled(w, CheckYear(id))
    ensures var p := w.runs[id].phase;
            RowMatches(w.db, p.op.newState) ==> RunOk(w, id, w.runs[id].(phase := p.(checked := w.db.invoice)))
    ensures var p := w.runs[id].phase;
            RunOk(w, id, w.runs[id].(phase := Finishing(p.token, p.op, p.done, LocalStateDrift)))
  {
  }

  lemma CheckYearKeeps(w: World, id: Worker)
    requires Orderly(w)
    ensures Orderly(Exec(w, CheckYear(id)))
  {
    if Enabled(w, CheckYear(id)) {
      var p := w.runs[id].phase;
      CheckedPhaseOk(w, id);
      if RowMatches(w.db, p.op.newState) {
        LocalStep(w, id, p.(checked := w.db.invoice));
      } else {
        LocalStep(w, id, Finishing(p.token, p.op, p.done, LocalStateDrift));
      }
    }
  }

  lemma EnvironmentKeeps(w: World, s: Step)
    requires Orderly(w) && (s.Tick? || s.Edit? || s.Crash?)
    ensures Orderly(Exec(w, s))
  {
    var w' := Exec(w, s);
    if s.Crash? {
      if Enabled(w, s) { LocalStep(w, s.id, Over(Crashed)); }
    } else {
      AllAuditsKept(w, w');
      forall k | k in w'.runs ensures RunOk(w', k, w'.runs[k]) {
        RunSpared(w, w', k + 1, k, w.runs[k]);
      }
    }
  }

  /** A step that writes one audit row. */
  lemma AuditWritten(w: World, w': World, p: Preview)
    requires AuditsOk(w) && KeepsRecords(w, w')
    requires p in w'.db.audits && w'.db.audits == w.db.audits[p := w'.db.audits[p]]
    requires forall q | q in w.completedBy && q != p :: q in w'.completedBy && w'.completedBy[q] == w.completedBy[q]
    requires AuditOk(w', p, w'.db.audits[p])
    ensures AuditsOk(w')
  {
    forall q | q in w'.db.audits ensures AuditOk(w', q, w'.db.audits[q]) {
      if q != p { AuditKept(w, w', q, w.db.audits[q]); }
    }
  }

  // Rewriting the row.

  lemma BegunOperationOk(run: Run, stamp: nat)
    requires run.phase.Prepared?
    requires run.preview == Preview(run.phase.item, run.phase.made.version, run.phase.made.proposal)
    requires ValidYear(run.phase.year) && run.phase.values.extractionStatus == CONFIRMED
    ensures var p := run.phase;
            OperationOk(run.preview, NewAudit(run.preview, p.item, Rewritten(p.item, p.year, p.values, stamp),
                                              p.year, p.made.proposal, p.made.version, stamp).op)
  {
  }

  predicate CanBegin(w: World, id: Worker) {
    id in w.runs && w.runs[id].phase.Prepared? && RunOk(w, id, w.runs[id])
  }

  lemma RewriteKeepsAudits(w: World, id: Worker, row: Row, audit: Audit)
    requires AuditsOk(w) && id in w.runs && w.runs[id].phase.Prepared? && AuditOk(w, w.runs[id].preview, audit)
    ensures AuditsOk(RewroteBy(w, id, row, audit))
  {
    var w' := RewroteBy(w, id, row, audit);
    AuditKept(w, w', w.runs[id].preview, audit);
    AuditWritten(w, w', w.runs[id].preview);
  }

  lemma RewriteKeepsRuns(w: World, id: Worker, row: Row, audit: Audit)
    requires RunsOk(w) && id in w.runs && w.runs[id].phase.Prepared? && w.runs[id].preview !in w.db.audits
    ensures RunsOk(RewroteBy(w, id, row, audit))
  {
    OthersSpared(w, RewroteBy(w, id, row, audit), id);
  }

  lemma BegunAuditOk(w: World, id: Worker)
    requires CanBegin(w, id) && BeginOf(w, id).Rewrote?
    ensures AuditOk(w, w.runs[id].preview, BeginOf(w, id).audit)
    ensures w.runs[id].preview !in w.db.audits
  {
    BegunOperationOk(w.runs[id], Seconds(w.now));
  }

  lemma BeginKeeps(w: World, id: Worker)
    requires Orderly(w) && CanBegin(w, id)
    ensures Orderly(DoBegin(w, id))
  {
    match BeginOf(w, id) {
      case Refused(code) => LocalStep(w, id, Over(code));
      case Known(audit) =>
        LocalStep(w, id, SameProposal(audit.op, w.runs[id].phase.made.version, w.runs[id].phase.made.proposal));
      case Rewrote(row, audit) =>
        BegunAuditOk(w, id);
        RewriteKeepsAudits(w, id, row, audit);
        RewriteKeepsRuns(w, id, row, audit);
    }
  }

  // Claiming.

  predicate CanClaim(w: World, id: Worker, token: Token) {
    id in w.runs && w.runs[id].phase.Rechecked? && token !in w.claims && RunOk(w, id, w.runs[id])
  }

  predicate ClaimOutcome(w: World, id: Worker, token: Token, audit: Audit)
    requires CanClaim(w, id, token)
  {
    && audit.op == w.db.audits[w.runs[id].preview].op
    && audit.result.RegisterSyncing? && audit.token == Some(token) && audit.updatedAt == Seconds(w.now)
  }

  lemma ClaimKeepsAudits(w: World, id: Worker, token: Token, audit: Audit)
    requires AuditsOk(w) && TokensOk(w) && CanClaim(w, id, token) && ClaimOutcome(w, id, token, audit)
    ensures AuditsOk(ClaimedBy(w, id, token, audit)) && TokensOk(ClaimedBy(w, id, token, audit))
  {
    var w', p := ClaimedBy(w, id, token, audit), w.runs[id].preview;
    assert AuditOk(w, p, w.db.audits[p]);
    AuditWritten(w, w', p);
  }

  lemma ClaimKeepsRuns(w: World, id: Worker, token: Token, audit: Audit)
    requires RunsOk(w) && TokensOk(w) && CanClaim(w, id, token) && ClaimOutcome(w, id, token, audit)
    ensures RunsOk(ClaimedBy(w, id, token, audit))
  {
    OthersSpared(w, ClaimedBy(w, id, token, audit), id);
  }

  lemma ClaimKeeps(w: World, id: Worker, token: Token)
    requires Orderly(w) && CanClaim(w, id, token)
    ensures Orderly(DoClaim(w, id, token))
  {
    match ClaimOf(w, id, token) {
      case Rejected(code) => LocalStep(w, id, Over(code));
      case InProgress(_) => LocalStep(w, id, Over(RegisterSyncInProgress));
      case Claimed(audit) =>
        ClaimKeepsAudits(w, id, token, audit);
        ClaimKeepsRuns(w, id, token, audit);
    }
  }

  // Syncing a year.

  lemma StampedOneMore(years: seq<int>, year: int, row: Row)
    ensures Stamped(years + [year], row) == Stamped(years, row) + [Synced(year, row)]
  {
  }

  predicate CanSync(w: World, id: Worker) {
    id in w.runs && w.runs[id].phase.Syncing? && w.runs[id].phase.checked.Some?
    && |w.runs[id].phase.done| < |YearsToSync(w.runs[id].phase.op)| && RunOk(w, id, w.runs[id])
  }

  lemma SyncKeepsAudits(w: World, id: Worker, error: Code)
    requires AuditsOk(w) && TokensOk(w) && CanSync(w, id)
    ensures AuditsOk(DoSyncYear(w, id, error)) && TokensOk(DoSyncYear(w, id, error))
  {
    AllAuditsKept(w, DoSyncYear(w, id, error));
  }

  lemma SyncedRunOk(w: World, id: Worker)
    requires CanSync(w, id)
    ensures RunOk(DoSyncYear(w, id, NoError), id, DoSyncYear(w, id, NoError).runs[id])
  {
    var p := w.runs[id].phase;
    StampedOneMore(p.done, YearsToSync(p.op)[|p.done|], p.op.newState.of);
  }

  lemma SyncKeepsRuns(w: World, id: Worker, error: Code)
    requires RunsOk(w) && CanSync(w, id)
    ensures RunsOk(DoSyncYear(w, id, error))
  {
    if error == NoError {
      SyncedRunOk(w, id);
      OthersSpared(w, DoSyncYear(w, id, error), id);
    } else {
      LocalRuns(w, id, DoSyncYear(w, id, error).runs[id].phase);
    }
  }

  // Finishing.

  lemma FinishedYears(p: Preview, op: Operation)
    requires OperationOk(p, op)
    ensures SortedYears(YearsToSync(op)) == YearsToSync(op)
  {
    YearsAreSorted(p.record.registerYear, op.newYear);
  }

  predicate CanFinish(w: World, id: Worker, token: Token, op: Operation, done: seq<int>, error: Code) {
    id in w.runs && HoldsToken(w, id, w.runs[id].preview, token, op, done)
    && (error == NoError ==> done == YearsToSync(op))
  }

  predicate FinishOutcome(w: World, op: Operation, done: seq<int>, audit: Audit) {
    && audit.op == op && audit.completedYears == SortedYears(done)
    && (audit.result.Completed? <==> audit.error == NoError) && !audit.result.RegisterSyncing?
    && audit.updatedAt == Seconds(w.now) && audit.token.None?
    && (audit.result.Completed? ==> audit.completedAt == Some(audit.updatedAt))
  }

  lemma FinishKeepsAudits(w: World, id: Worker, token: Token, op: Operation, done: seq<int>, audit: Audit)
    requires AuditsOk(w) && CanFinish(w, id, token, op, done, audit.error) && FinishOutcome(w, op, done, audit)
    ensures AuditsOk(FinishedBy(w, id, token, audit))
  {
    var w', p := FinishedBy(w, id, token, audit), w.runs[id].preview;
    assert AuditOk(w, p, w.db.audits[p]);
    FinishedYears(p, op);
    AuditWritten(w, w', p);
  }

  lemma FinishKeepsRuns(w: World, id: Worker, token: Token, op: Operation, done: seq<int>, audit: Audit)
    requires RunsOk(w) && CanFinish(w, id, token, op, done, audit.error) && FinishOutcome(w, op, done, audit)
    ensures RunsOk(FinishedBy(w, id, token, audit))
  {
    OthersSpared(w, FinishedBy(w, id, token, audit), id);
  }

  lemma ClaimLostKeeps(w: World, id: Worker, token: Token)
    requires Orderly(w) && id in w.runs && token in w.claims && w.claims[token].worker == id
    ensures Orderly(Goto(w, id, Over(RegisterClaimLost)).(ended := w.ended + {token}))
  {
    var w' := Goto(w, id, Over(RegisterClaimLost)).(ended := w.ended + {token});
    AllAuditsKept(w, w');
    OthersSpared(w, w', id);
  }

  lemma FinishOutcomeOf(w: World, id: Worker, token: Token, op: Operation, done: seq<int>, error: Code)
    requires CanFinish(w, id, token, op, done, error)
    ensures var r := FinishResult(w.db, w.runs[id].preview, token, done, error, w.now);
            r.Ok? ==> FinishOutcome(w, op, done, r.value) && r.value.error == error
    ensures FinishResult(w.db, w.runs[id].preview, token, done, error, w.now).Err? ==>
              FinishResult(w.db, w.runs[id].preview, token, done, error, w.now) == Err(RegisterClaimLost)
  {
  }

  lemma FinishedKeeps(w: World, id: Worker, token: Token, op: Operation, done: seq<int>, audit: Audit)
    requires Orderly(w) && CanFinish(w, id, token, op, done, audit.error) && FinishOutcome(w, op, done, audit)
    ensures Orderly(FinishedBy(w, id, token, audit))
  {
    FinishKeepsAudits(w, id, token, op, done, audit);
    FinishKeepsRuns(w, id, token, op, done, audit);
    assert TokensOk(FinishedBy(w, id, token, audit));
  }

  lemma FinishKeeps(w: World, id: Worker, token: Token, op: Operation, done: seq<int>, error: Code)
    requires Orderly(w) && CanFinish(w, id, token, op, done, error)
    ensures Orderly(DoFinish(w, id, token, done, error))
  {
    FinishOutcomeOf(w, id, token, op, done, error);
    match FinishResult(w.db, w.runs[id].preview, token, done, error, w.now) {
      case Err(_) => ClaimLostKeeps(w, id, token);
      case Ok(audit) => FinishedKeeps(w, id, token, op, done, audit);
    }
  }

  /** Every step keeps the table, the runs and the tokens in order. */
  lemma StepKeepsOrder(w: World, s: Step)
    requires Orderly(w)
    ensures Orderly(Exec(w, s))
  {
    if Enabled(w, s) {
      match s {
        case ReadRow(id, preview) => ReadRowKeeps(w, id, preview);
        case ReadAudit(id) => ReadAuditKeeps(w, id);
        case Extract(_, _, _, _, _) => ExtractKeeps(w, s);
        case Begin(id) => BeginKeeps(w, id);
        case Recheck(id) => RecheckKeeps(w, id);
        case Claim(id, token) => ClaimKeeps(w, id, token);
        case CheckYear(id) => CheckYearKeeps(w, id);
        case SyncYear(id, error) => SyncKeepsAudits(w, id, error); SyncKeepsRuns(w, id, error);
        case Finish(id) =>
          var p := w.runs[id].phase;
          var error := if p.Finishing? then p.error else NoError;
          assert RunOk(w, id, w.runs[id]);
          FinishKeeps(w, id, p.token, p.op, p.done, error);
        case Crash(_) => EnvironmentKeeps(w, s);
        case Tick(_) => EnvironmentKeeps(w, s);
        case Edit(_) => EnvironmentKeeps(w, s);
      }
    }
  }

  // ----- the rewrites of the row -----

  lemma RewritesStay(w: World, w': World)
    requires RewritesOk(w) && w'.rewrites == w.rewrites && w'.reopened == w.reopened
    requires w'.db.invoice == w.db.invoice && w'.db.audits.Keys == w.db.audits.Keys
    requires forall p | p in w.db.audits :: w'.db.audits[p].op == w.db.audits[p].op
    ensures RewritesOk(w')
  {
    forall i | 0 <= i < |w'.rewrites| ensures RewriteOk(w', w'.rewrites[i]) {
      assert RewriteOk(w, w.rewrites[i]);
    }
  }

  lemma EditKeepsRewrites(w: World, row: Option<Row>)
    requires RewritesOk(w)
    ensures RewritesOk(Exec(w, Edit(row)))
  {
    var w' := Exec(w, Edit(row));
    forall i | 0 <= i < |w'.rewrites| ensures RewriteOk(w', w'.rewrites[i]) {
      assert RewriteOk(w, w.rewrites[i]);
    }
  }

  predicate CanRewrite(w: World, id: Worker, row: Row, audit: Audit) {
    && id in w.runs && w.runs[id].phase.Prepared? && w.runs[id].preview !in w.db.audits
    && w.db.invoice == Some(w.runs[id].preview.record) && Eligible(w.runs[id].preview.record)
    && audit.op.newState == Fingerprint(row) && !Eligible(row)
  }

  lemma RewroteEach(w: World, id: Worker, row: Row, audit: Audit)
    requires RewritesOk(w) && CanRewrite(w, id, row, audit)
    ensures var w' := RewroteBy(w, id, row, audit);
            forall i | 0 <= i < |w'.rewrites| :: RewriteOk(w', w'.rewrites[i])
  {
    var w' := RewroteBy(w, id, row, audit);
    forall i | 0 <= i < |w'.rewrites| ensures RewriteOk(w', w'.rewrites[i]) {
      if i < |w.rewrites| { assert RewriteOk(w, w.rewrites[i]); }
    }
  }

  lemma RewroteOnce(w: World, id: Worker, row: Row, audit: Audit)
    requires RewritesOk(w) && CanRewrite(w, id, row, audit)
    ensures var w' := RewroteBy(w, id, row, audit);
            && (forall i, j | 0 <= i < j < |w'.rewrites| :: w'.rewrites[i].preview != w'.rewrites[j].preview)
            && (forall p | p in w'.db.audits :: exists i :: 0 <= i < |w'.rewrites| && w'.rewrites[i].preview == p)
  {
    var w' := RewroteBy(w, id, row, audit);
    forall i, j | 0 <= i < j < |w'.rewrites| ensures w'.rewrites[i].preview != w'.rewrites[j].preview {
      assert RewriteOk(w, w.rewrites[i]);
    }
    assert w'.rewrites[|w.rewrites|].preview == w.runs[id].preview;
    forall p | p in w'.db.audits ensures exists i :: 0 <= i < |w'.rewrites| && w'.rewrites[i].preview == p {
      if p in w.db.audits {
        var i :| 0 <= i < |w.rewrites| && w.rewrites[i].preview == p;
        assert w'.rewrites[i].preview == p;
      }
    }
  }

  lemma RewroteKeepsRewrites(w: World, id: Worker, row: Row, audit: Audit)
    requires RewritesOk(w) && CanRewrite(w, id, row, audit)
    ensures RewritesOk(RewroteBy(w, id, row, audit))
  {
    RewroteEach(w, id, row, audit);
    RewroteOnce(w, id, row, audit);
  }

  /** A rewrite starts from the approved row, which was eligible, and leaves it protected. */
  lemma RewriteFromApproved(w: World, id: Worker)
    requires CanBegin(w, id) && BeginOf(w, id).Rewrote?
    ensures var r, p := BeginOf(w, id), w.runs[id].preview;
            && w.db.invoice == Some(p.record) && Eligible(p.record)
            && r.audit.op.newState == Fingerprint(r.row) && !Eligible(r.row)
            && r.audit.result == RegisterPending && r.audit.token == None
  {
    ConfirmedIsProtected(BeginOf(w, id).row);
  }

  lemma MoveKeepsRewrites(w: World, id: Worker, phase: Phase)
    requires RewritesOk(w) && id in w.runs
    ensures RewritesOk(Goto(w, id, phase))
  {
    RewritesStay(w, Goto(w, id, phase));
  }

  lemma BeginKeepsRewrites(w: World, id: Worker)
    requires RewritesOk(w) && CanBegin(w, id)
    ensures RewritesOk(DoBegin(w, id))
  {
    match BeginOf(w, id) {
      case Refused(code) => MoveKeepsRewrites(w, id, Over(code));
      case Known(audit) =>
        MoveKeepsRewrites(w, id, SameProposal(audit.op, w.runs[id].phase.made.version,
                                              w.runs[id].phase.made.proposal));
      case Rewrote(row, audit) =>
        RewriteFromApproved(w, id);
        RewroteKeepsRewrites(w, id, row, audit);
    }
  }

  /** Every step but a rewrite, a claim, a finish and an edit leaves the database alone. */
  lemma QuietSteps(w: World, s: Step)
    requires !s.Begin? && !s.Claim? && !s.Finish? && !s.Edit?
    ensures var w' := Exec(w, s);
            w'.db == w.db && w'.claims == w.claims && w'.rewrites == w.rewrites && w'.reopened == w.reopened
  {
  }

  lemma ClaimEffect(w: World, id: Worker, token: Token)
    ensures var w' := Exec(w, Claim(id, token));
            && w'.rewrites == w.rewrites && w'.reopened == w.reopened
            && (w'.db == w.db || (Enabled(w, Claim(id, token)) && ClaimOf(w, id, token).Claimed?
                                  && w'.db == AfterClaim(w.db, w.runs[id].preview, ClaimOf(w, id, token))))
  {
  }

  lemma FinishEffect(w: World, id: Worker)
    ensures var w' := Exec(w, Finish(id));
            && w'.rewrites == w.rewrites && w'.reopened == w.reopened && w'.claims == w.claims
            && (w'.db == w.db ||
                (Enabled(w, Finish(id)) &&
                 var p, token := w.runs[id].preview, w.runs[id].phase.token;
                 && p in w.db.audits && w.db.audits[p].token == Some(token)
                 && p in w'.db.audits && w'.db == w.db.(audits := w.db.audits[p := w'.db.audits[p]])
                 && w'.db.audits[p].op == w.db.audits[p].op && w'.db.audits[p].token == None))
  {
  }

  lemma OtherStepsTouchNoRow(w: World, s: Step)
    requires !s.Edit? && !s.Begin?
    ensures var w' := Exec(w, s);
            && w'.db.invoice == w.db.invoice && w'.rewrites == w.rewrites && w'.reopened == w.reopened
            && w'.db.audits.Keys == w.db.audits.Keys
            && forall p | p in w.db.audits :: w'.db.audits[p].op == w.db.audits[p].op
  {
    if s.Claim? {
      ClaimEffect(w, s.id, s.token);
    } else if s.Finish? {
      FinishEffect(w, s.id);
    } else {
      QuietSteps(w, s);
    }
  }

  lemma {:induction false} StepKeepsInv(w: World, s: Step)
    requires Inv(w)
    ensures Inv(Exec(w, s))
  {
    StepKeepsOrder(w, s);
    if s.Edit? {
      EditKeepsRewrites(w, s.row);
    } else if s.Begin? {
      if Enabled(w, s) {
        assert RunOk(w, s.id, w.runs[s.id]);
        BeginKeepsRewrites(w, s.id);
      }
    } else {
      OtherStepsTouchNoRow(w, s);
      RewritesStay(w, Exec(w, s));
    }
  }

  /** Every reachable state satisfies the invariant. */
  lemma {:induction false} ExecuteKeepsInv(w: World, steps: seq<Step>)
    requires Inv(w)
    ensures Inv(Execute(w, steps))
    decreases |steps|
  {
    if steps != [] {
      StepKeepsInv(w, steps[0]);
      ExecuteKeepsInv(Exec(w, steps[0]), steps[1..]);
    }
  }

  lemma InitialInv(w: World)
    requires Initial(w)
    ensures Inv(w)
  {
  }

  ghost predicate Reachable(w: World) {
    exists start: World, steps: seq<Step> :: Initial(start) && w == Execute(start, steps)
  }

  lemma ReachableInv(w: World)
    requires Reachable(w)
    ensures Inv(w)
  {
    var start: World, steps: seq<Step> :| Initial(start) && w == Execute(start, steps);
    InitialInv(start);
    ExecuteKeepsInv(start, steps);
  }

  // ----- main results -----

  /** Over every interleaving, with crashes anywhere: the number of rewrites is at most one plus the
      number of times another program made the row eligible again, no approval is used twice, and
      each rewrite started from exactly the approved, unprotected row and left it confirmed. */
  lemma RewrittenAtMostOnce(w: World)
    requires Reachable(w)
    ensures |w.rewrites| <= 1 + w.reopened
    ensures forall i, j | 0 <= i < j < |w.rewrites| :: w.rewrites[i].preview != w.rewrites[j].preview
    ensures forall i | 0 <= i < |w.rewrites| ::
              && w.rewrites[i].from == w.rewrites[i].preview.record && Eligible(w.rewrites[i].from)
              && w.rewrites[i].to.values.extractionStatus == CONFIRMED
  {
    ReachableInv(w);
    forall i | 0 <= i < |w.rewrites|
      ensures w.rewrites[i].from == w.rewrites[i].preview.record && Eligible(w.rewrites[i].from)
      ensures w.rewrites[i].to.values.extractionStatus == CONFIRMED
    {
      assert RewriteOk(w, w.rewrites[i]);
      assert AuditOk(w, w.rewrites[i].preview, w.db.audits[w.rewrites[i].preview]);
    }
  }

  /** No step but an edit from outside changes the row, except the one that in the same transaction
      inserts the audit row of its approval; and audit rows come into being in no other way. */
  lemma RewriteAndAuditAreAtomic(w: World, s: Step)
    requires Reachable(w)
    ensures var w' := Exec(w, s);
            !s.Edit? && (w'.db.invoice != w.db.invoice || w'.db.audits.Keys != w.db.audits.Keys) ==>
              s.Begin? && RewriteTogether(w, w', s.id)
    ensures s.Edit? ==> Exec(w, s).db.audits == w.db.audits
  {
    if s.Begin? {
      ReachableInv(w);
      if Enabled(w, s) {
        BeginIsAtomic(w, s.id);
      }
    } else if !s.Edit? {
      OtherStepsTouchNoRow(w, s);
    }
  }

  /** The row changed from the approved, eligible one, and its audit row appeared with it. */
  predicate RewriteTogether(w: World, w': World, id: Worker) {
    && id in w.runs && w'.db.invoice.Some?
    && var p := w.runs[id].preview;
    && p !in w.db.audits && w.db.invoice == Some(p.record) && Eligible(p.record)
    && p in w'.db.audits && w'.db.audits == w.db.audits[p := w'.db.audits[p]]
    && w'.db.audits[p].op.newState == Fingerprint(w'.db.invoice.value)
    && w'.db.audits[p].result == RegisterPending
    && w.runs[id].phase.Prepared?
    && w'.rewrites == w.rewrites + [Rewrite(p, p.record, w'.db.invoice.value, w.runs[id].phase.made)]
  }

  lemma BeginIsAtomic(w: World, id: Worker)
    requires RunsOk(w) && id in w.runs && w.runs[id].phase.Prepared?
    ensures DoBegin(w, id).db == w.db || RewriteTogether(w, DoBegin(w, id), id)
  {
    assert RunOk(w, id, w.runs[id]);
    if BeginOf(w, id).Rewrote? {
      RewriteFromApproved(w, id);
    }
  }

  /** A completed operation has synced exactly its valid register years: under one token that was
      claimed for it, each year right after the row was seen to be the one the operation wrote. */
  lemma CompletedMeansSynced(w: World, p: Preview)
    requires Reachable(w) && p in w.db.audits && w.db.audits[p].result.Completed?
    ensures var a := w.db.audits[p];
            && a.completedYears == YearsToSync(a.op)
            && (forall y :: y in a.completedYears <==>
                  ValidYear(y) && (y == a.op.newYear || p.record.registerYear == Some(y)))
            && p in w.completedBy
            && var t := w.completedBy[p];
            && t in w.claims && w.claims[t].preview == p
            && t in w.synced && w.synced[t] == Stamped(a.completedYears, a.op.newState.of)
  {
    ReachableInv(w);
    assert AuditOk(w, p, w.db.audits[p]);
    YearsAreSorted(p.record.registerYear, w.db.audits[p].op.newYear);
  }

  predicate Holds(w: World, id: Worker, token: Token) {
    id in w.runs && (w.runs[id].phase.Syncing? || w.runs[id].phase.Finishing?) && w.runs[id].phase.token == token
  }

  lemma BeginAddsOnly(w: World, id: Worker, p: Preview)
    requires p in w.db.audits
    ensures p in Exec(w, Begin(id)).db.audits && Exec(w, Begin(id)).db.audits[p] == w.db.audits[p]
  {
  }

  lemma ClaimTakesOverStale(w: World, id: Worker, token: Token, p: Preview, held: Token)
    requires p in w.db.audits && w.db.audits[p].token == Some(held) && w.db.audits[p].result.RegisterSyncing?
    requires held in w.claims
    ensures var w' := Exec(w, Claim(id, token));
            && p in w'.db.audits
            && (w'.db.audits[p] != w.db.audits[p] ==>
                  Stale(w.db.audits[p].updatedAt, w.now) && w'.db.audits[p].token == Some(token) && token != held)
  {
    ClaimEffect(w, id, token);
  }

  lemma FinishEndsOwn(w: World, id: Worker, p: Preview, held: Token)
    requires p in w.db.audits && w.db.audits[p].token == Some(held)
    ensures var w' := Exec(w, Finish(id));
            && p in w'.db.audits
            && (w'.db.audits[p] != w.db.audits[p] ==>
                  Holds(w, id, held) && w.runs[id].preview == p && w'.db.audits[p].token == None)
  {
    FinishEffect(w, id);
  }

  /** A running register sync is ended only by the worker that holds the stored token, and is taken
      over only once that claim is more than 299 seconds old. */
  lemma OnlyTheHolderEndsASync(w: World, s: Step, p: Preview, token: Token)
    requires Reachable(w) && p in w.db.audits && w.db.audits[p].token == Some(token)
    ensures p in Exec(w, s).db.audits && token in w.claims
    ensures Exec(w, s).db.audits[p] != w.db.audits[p] ==>
              || (s.Finish? && Holds(w, s.id, token) && w.runs[s.id].preview == p
                  && Exec(w, s).db.audits[p].token == None)
              || (s.Claim? && w.now - w.claims[token].at > (CLAIM_SECONDS - 1) * MICROS
                  && Exec(w, s).db.audits[p].token == Some(s.token) && s.token != token)
  {
    ReachableInv(w);
    HeldIsClaimed(w, p, token);
    SyncEndsOnlyBy(w, s, p, token);
    TakeoverAge(w.claims[token].at, w.now);
  }

  lemma HeldIsClaimed(w: World, p: Preview, token: Token)
    requires AuditsOk(w) && p in w.db.audits && w.db.audits[p].token == Some(token)
    ensures w.db.audits[p].result.RegisterSyncing? && token in w.claims
    ensures w.db.audits[p].updatedAt == Seconds(w.claims[token].at)
  {
    assert AuditOk(w, p, w.db.audits[p]);
  }

  lemma SyncEndsOnlyBy(w: World, s: Step, p: Preview, token: Token)
    requires p in w.db.audits && w.db.audits[p].token == Some(token)
    requires w.db.audits[p].result.RegisterSyncing? && token in w.claims
    ensures p in Exec(w, s).db.audits
    ensures Exec(w, s).db.audits[p] != w.db.audits[p] ==>
              || (s.Finish? && Holds(w, s.id, token) && w.runs[s.id].preview == p
                  && Exec(w, s).db.audits[p].token == None)
              || (s.Claim? && Stale(w.db.audits[p].updatedAt, w.now) && Exec(w, s).db.audits[p].token == Some(s.token)
                  && s.token != token)
  {
    match s {
      case Begin(id) => BeginAddsOnly(w, id, p);
      case Claim(id, t) => ClaimTakesOverStale(w, id, t, p, token);
      case Finish(id) => FinishEndsOwn(w, id, p, token);
      case Edit(_) =>
      case _ => QuietSteps(w, s);
    }
  }

  /** The worker's claim is not the stored one, and the worker has no other. */
  predicate Lost(w: World, id: Worker, token: Token) {
    && HoldsOrOver(w, id, token) && token in w.claims
    && forall p | p in w.db.audits :: w.db.audits[p].token != Some(token)
  }

  lemma NoNewHolder(w: World, s: Step, token: Token)
    requires token in w.claims && forall p | p in w.db.audits :: w.db.audits[p].token != Some(token)
    ensures forall p | p in Exec(w, s).db.audits :: Exec(w, s).db.audits[p].token != Some(token)
  {
    if s.Claim? {
      ClaimEffect(w, s.id, s.token);
    } else if s.Finish? {
      FinishEffect(w, s.id);
    } else if !s.Edit? && !s.Begin? {
      QuietSteps(w, s);
    }
  }

  predicate HoldsOrOver(w: World, id: Worker, token: Token) {
    id in w.runs && (Holds(w, id, token) || w.runs[id].phase.Over?)
  }

  lemma OthersUntouched(w: World, s: Step, id: Worker)
    requires id in w.runs && (s.Tick? || s.Edit? || s.id != id)
    ensures id in Exec(w, s).runs && Exec(w, s).runs[id] == w.runs[id]
  {
    match s {
      case ReadRow(_, _) =>
      case ReadAudit(_) =>
      case Extract(_, _, _, _, _) =>
      case Begin(_) =>
      case Recheck(_) =>
      case Claim(_, _) =>
      case CheckYear(_) =>
      case SyncYear(_, _) =>
      case Finish(_) =>
      case Crash(_) =>
      case Tick(_) =>
      case Edit(_) =>
    }
  }

  lemma HolderOnlyStops(w: World, s: Step, id: Worker, token: Token)
    requires HoldsOrOver(w, id, token)
    ensures HoldsOrOver(Exec(w, s), id, token)
  {
    if s.Tick? || s.Edit? || s.id != id {
      OthersUntouched(w, s, id);
    } else {
      match s {
        case ReadRow(_, _) =>
        case ReadAudit(_) =>
        case Extract(_, _, _, _, _) =>
        case Begin(_) =>
        case Recheck(_) =>
        case Claim(_, _) =>
        case CheckYear(_) =>
        case SyncYear(_, _) =>
        case Finish(_) =>
        case Crash(_) =>
        case Tick(_) =>
        case Edit(_) =>
      }
    }
  }

  lemma LostStaysLost(w: World, s: Step, id: Worker, token: Token)
    requires Lost(w, id, token)
    ensures Lost(Exec(w, s), id, token)
  {
    NoNewHolder(w, s, token);
    HolderOnlyStops(w, s, id, token);
    ClaimsGrow(w, s, token);
  }

  lemma ClaimsGrow(w: World, s: Step, token: Token)
    requires token in w.claims
    ensures token in Exec(w, s).claims
  {
  }

  /** A worker whose claim was taken over (or ended) can never record anything again: however the
      others go on, its attempt to finish changes nothing and reports the lost claim. */
  lemma {:induction false} TakenOverRecordsNothing(w: World, steps: seq<Step>, id: Worker, token: Token)
    requires Lost(w, id, token)
    ensures var later := Execute(w, steps);
            Enabled(later, Finish(id)) ==>
              Exec(later, Finish(id)).db == later.db && PhaseOf(Exec(later, Finish(id)), id) == Over(RegisterClaimLost)
    decreases |steps|
  {
    if steps != [] {
      LostStaysLost(w, steps[0], id, token);
      TakenOverRecordsNothing(Exec(w, steps[0]), steps[1..], id, token);
    }
  }

  /** No other audit row stores a token that is stored here. */
  lemma StoredOnce(w: World, p: Preview, token: Token)
    requires AuditsOk(w) && p in w.db.audits && w.db.audits[p].token == Some(token)
    ensures forall q | q in w.db.audits && w.db.audits[q].token == Some(token) :: q == p
  {
    assert AuditOk(w, p, w.db.audits[p]);
    forall q | q in w.db.audits && w.db.audits[q].token == Some(token) ensures q == p {
      assert AuditOk(w, q, w.db.audits[q]);
    }
  }

  lemma StoredNoMore(db: Db, p: Preview, held: Token, audit: Audit)
    requires forall q | q in db.audits && db.audits[q].token == Some(held) :: q == p
    requires audit.token != Some(held)
    ensures forall q | q in AfterClaim(db, p, Claimed(audit)).audits ::
              AfterClaim(db, p, Claimed(audit)).audits[q].token != Some(held)
  {
  }

  lemma ClaimWrites(w: World, id: Worker, token: Token) returns (audit: Audit)
    requires Enabled(w, Claim(id, token)) && ClaimOf(w, id, token).Claimed?
    ensures audit.token == Some(token)
    ensures Exec(w, Claim(id, token)).db == AfterClaim(w.db, w.runs[id].preview, Claimed(audit))
  {
    audit := ClaimOf(w, id, token).audit;
  }

  /** A takeover is what loses a claim: after it the worker that held the stored token holds it in vain. */
  lemma TakeoverLosesClaim(w: World, id: Worker, token: Token, p: Preview, holder: Worker, held: Token)
    requires Reachable(w) && p in w.db.audits && w.db.audits[p].token == Some(held) && Holds(w, holder, held)
    requires Enabled(w, Claim(id, token)) && w.runs[id].preview == p && ClaimOf(w, id, token).Claimed?
    ensures Lost(Exec(w, Claim(id, token)), holder, held)
  {
    ReachableInv(w);
    StoredOnce(w, p, held);
    HeldIsClaimed(w, p, held);
    var audit := ClaimWrites(w, id, token);
    StoredNoMore(w.db, p, held, audit);
    HolderOnlyStops(w, Claim(id, token), holder, held);
    ClaimsGrow(w, Claim(id, token), held);
  }

  // ----- recovery -----

  /** The row is still the one the operation wrote. */
  predicate Undrifted(w: World, p: Preview) {
    p in w.db.audits && w.db.invoice == Some(w.db.audits[p].op.newState.of)
  }

  /** What another run does for an operation whose earlier runs are gone. */
  function Retry(id: Worker, p: Preview, op: Operation, metadata: Metadata, token: Token): seq<Step> {
    [ReadRow(id, p), ReadAudit(id)] + ([Extract(id, metadata, "", op.version, op.proposal)]
    + ([Recheck(id)] + ([Claim(id, token)] + SyncAll(id, |YearsToSync(op)|))))
  }

  function SyncAll(id: Worker, years: nat): seq<Step> {
    if years == 0 then [Finish(id)] else [CheckYear(id), SyncYear(id, NoError)] + SyncAll(id, years - 1)
  }

  lemma ExecuteOne(w: World, s: Step, rest: seq<Step>)
    ensures Execute(w, [s] + rest) == Execute(Exec(w, s), rest)
  {
    assert ([s] + rest)[1..] == rest;
  }

  lemma ExecuteTwo(w: World, s: Step, t: Step, rest: seq<Step>)
    ensures Execute(w, [s, t] + rest) == Execute(Exec(Exec(w, s), t), rest)
  {
    assert ([s, t] + rest)[1..] == [t] + rest;
    assert ([t] + rest)[1..] == rest;
  }

  /** A stretch of steps that changed nothing but the run, which is now this one. */
  predicate Reached(w: World, w': World, id: Worker, run: Run) {
    && w'.db == w.db && w'.claims == w.claims && w'.now == w.now
    && id in w'.runs && w'.runs[id] == run
  }

  lemma RetryReads(w: World, id: Worker, p: Preview, rest: seq<Step>) returns (w': World)
    requires Undrifted(w, p) && id !in w.runs
    requires w.db.audits[p].op.proposedStatus == w.db.audits[p].op.newState.of.values.extractionStatus
    ensures var op := w.db.audits[p].op; Reached(w, w', id, Run(p, Extracting(op.newState.of, Some(op))))
    ensures Execute(w, [ReadRow(id, p), ReadAudit(id)] + rest) == Execute(w', rest)
  {
    var w1 := Exec(w, ReadRow(id, p));
    assert Reached(w, w1, id, Run(p, ReadingAudit(w.db.invoice)));
    w' := Exec(w1, ReadAudit(id));
    ExecuteTwo(w, ReadRow(id, p), ReadAudit(id), rest);
  }

  lemma ExtractApplied(w: World, id: Worker, p: Preview, item: Row, op: Operation, metadata: Metadata)
    requires id in w.runs && w.runs[id] == Run(p, Extracting(item, Some(op))) && SafeProposal(metadata, None).Ok?
    ensures Reached(w, Exec(w, Extract(id, metadata, "", op.version, op.proposal)), id, Run(p, Applied(op)))
  {
  }

  lemma RetryRechecks(w: World, id: Worker, p: Preview, rest: seq<Step>) returns (w': World)
    requires Undrifted(w, p) && id in w.runs && w.runs[id] == Run(p, Applied(w.db.audits[p].op))
    ensures Reached(w, w', id, Run(p, Rechecked(w.db.audits[p].op)))
    ensures Execute(w, [Recheck(id)] + rest) == Execute(w', rest)
  {
    w' := Exec(w, Recheck(id));
    ExecuteOne(w, Recheck(id), rest);
  }

  lemma RetryExtracts(w: World, id: Worker, p: Preview, item: Row, op: Operation, metadata: Metadata, rest: seq<Step>)
    returns (w': World)
    requires id in w.runs && w.runs[id] == Run(p, Extracting(item, Some(op))) && SafeProposal(metadata, None).Ok?
    ensures Reached(w, w', id, Run(p, Applied(op)))
    ensures Execute(w, [Extract(id, metadata, "", op.version, op.proposal)] + rest) == Execute(w', rest)
  {
    w' := Exec(w, Extract(id, metadata, "", op.version, op.proposal));
    ExtractApplied(w, id, p, item, op, metadata);
    ExecuteOne(w, Extract(id, metadata, "", op.version, op.proposal), rest);
  }

  predicate ReadyToSync(w: World, id: Worker, p: Preview, token: Token, done: seq<int>) {
    && Undrifted(w, p) && w.db.audits[p].result.RegisterSyncing? && w.db.audits[p].token == Some(token)
    && id in w.runs && w.runs[id] == Run(p, Syncing(token, w.db.audits[p].op, done, None))
  }

  /** Row and operation are the same as before. */
  predicate SameWork(w: World, before: World, p: Preview)
    requires p in before.db.audits
  {
    p in w.db.audits && w.db.audits[p].op == before.db.audits[p].op && w.db.invoice == before.db.invoice
  }

  lemma RetryClaims(w: World, id: Worker, p: Preview, token: Token, rest: seq<Step>) returns (w': World)
    requires Undrifted(w, p) && id in w.runs && w.runs[id] == Run(p, Rechecked(w.db.audits[p].op)) && token !in w.claims
    requires w.db.audits[p].op.proposedStatus == w.db.audits[p].op.newState.of.values.extractionStatus
    requires w.db.audits[p].result.RegisterSyncing? ==> Stale(w.db.audits[p].updatedAt, w.now)
    ensures ReadyToSync(w', id, p, token, []) && SameWork(w', w, p)
    ensures Execute(w, [Claim(id, token)] + rest) == Execute(w', rest)
  {
    w' := Exec(w, Claim(id, token));
    ExecuteOne(w, Claim(id, token), rest);
  }

  lemma OneYear(w: World, id: Worker, p: Preview, token: Token, done: seq<int>, rest: seq<Step>) returns (w': World)
    requires ReadyToSync(w, id, p, token, done) && |done| < |YearsToSync(w.db.audits[p].op)|
    ensures ReadyToSync(w', id, p, token, done + [YearsToSync(w.db.audits[p].op)[|done|]]) && w'.db == w.db
    ensures Execute(w, [CheckYear(id), SyncYear(id, NoError)] + rest) == Execute(w', rest)
  {
    var w1 := Exec(w, CheckYear(id));
    assert w1.runs[id].phase == Syncing(token, w.db.audits[p].op, done, w.db.invoice) && w1.db == w.db;
    w' := Exec(w1, SyncYear(id, NoError));
    ExecuteTwo(w, CheckYear(id), SyncYear(id, NoError), rest);
  }

  predicate FullySynced(w: World, p: Preview) {
    && p in w.db.audits && w.db.audits[p].result.Completed?
    && w.db.audits[p].completedYears == SortedYears(YearsToSync(w.db.audits[p].op))
  }

  lemma LastStep(w: World, id: Worker, p: Preview, token: Token, done: seq<int>)
    requires ReadyToSync(w, id, p, token, done) && done == YearsToSync(w.db.audits[p].op)
    ensures FullySynced(Execute(w, [Finish(id)]), p) && SameWork(Execute(w, [Finish(id)]), w, p)
  {
    ExecuteOne(w, Finish(id), []);
    assert [Finish(id)] + [] == [Finish(id)];
  }

  lemma {:induction false} AllYears(w: World, id: Worker, p: Preview, token: Token, done: seq<int>)
    requires ReadyToSync(w, id, p, token, done) && done <= YearsToSync(w.db.audits[p].op)
    ensures var w' := Execute(w, SyncAll(id, |YearsToSync(w.db.audits[p].op)| - |done|));
            FullySynced(w', p) && SameWork(w', w, p)
    decreases |YearsToSync(w.db.audits[p].op)| - |done|
  {
    var years := YearsToSync(w.db.audits[p].op);
    if |done| == |years| {
      LastStep(w, id, p, token, done);
    } else {
      var w' := OneYear(w, id, p, token, done, SyncAll(id, |years| - |done| - 1));
      AllYears(w', id, p, token, done + [years[|done|]]);
    }
  }

  lemma RetryCompletes(w: World, id: Worker, p: Preview, metadata: Metadata, token: Token)
    requires Undrifted(w, p) && id !in w.runs && token !in w.claims && SafeProposal(metadata, None).Ok?
    requires w.db.audits[p].op.proposedStatus == w.db.audits[p].op.newState.of.values.extractionStatus
    requires w.db.audits[p].result.RegisterSyncing? ==> Stale(w.db.audits[p].updatedAt, w.now)
    ensures var w' := Execute(w, Retry(id, p, w.db.audits[p].op, metadata, token));
            FullySynced(w', p) && SameWork(w', w, p)
  {
    var op := w.db.audits[p].op;
    var last := SyncAll(id, |YearsToSync(op)|);
    var claiming := [Claim(id, token)] + last;
    var checking := [Recheck(id)] + claiming;
    var w1 := RetryReads(w, id, p, [Extract(id, metadata, "", op.version, op.proposal)] + checking);
    var w2 := RetryExtracts(w1, id, p, op.newState.of, op, metadata, checking);
    var w3 := RetryRechecks(w2, id, p, claiming);
    var w4 := RetryClaims(w3, id, p, token, last);
    AllYears(w4, id, p, token, []);
  }

  /** What a retry needs to know about an audit row. */
  predicate Retriable(w: World, p: Preview) {
    && Undrifted(w, p)
    && w.db.audits[p].op.proposedStatus == w.db.audits[p].op.newState.of.values.extractionStatus
    && w.db.audits[p].updatedAt <= Seconds(w.now)
  }

  lemma ReachableRetriable(w: World, p: Preview)
    requires Reachable(w) && Undrifted(w, p)
    ensures Retriable(w, p)
  {
    ReachableInv(w);
    assert AuditOk(w, p, w.db.audits[p]);
  }

  lemma LaterRetryCompletes(w: World, id: Worker, p: Preview, metadata: Metadata, token: Token)
    requires Retriable(w, p)
    requires id !in w.runs && token !in w.claims && SafeProposal(metadata, None).Ok?
    ensures var later := w.(now := w.now + CLAIM_SECONDS * MICROS);
            var w' := Execute(later, Retry(id, p, w.db.audits[p].op, metadata, token));
            FullySynced(w', p) && SameWork(w', w, p)
  {
    RetryCompletes(w.(now := w.now + CLAIM_SECONDS * MICROS), id, p, metadata, token);
  }

  /** No crash leaves an operation stuck: from every reachable state in which the row is still the one
      it wrote, one more run at least 300 seconds after the last claim completes it, whatever the
      earlier runs left behind. */
  lemma UndriftedOperationCanComplete(w: World, id: Worker, p: Preview, metadata: Metadata, token: Token)
    requires Reachable(w) && Undrifted(w, p)
    requires id !in w.runs && token !in w.claims && SafeProposal(metadata, None).Ok?
    ensures var later := w.(now := w.now + CLAIM_SECONDS * MICROS);
            var w' := Execute(later, Retry(id, p, w.db.audits[p].op, metadata, token));
            FullySynced(w', p) && SameWork(w', w, p)
  {
    ReachableRetriable(w, p);
    LaterRetryCompletes(w, id, p, metadata, token);
  }

  // ----- completed is not final -----

  lemma ClaimsCompletedIff(w: World, id: Worker, token: Token, p: Preview)
    requires p in w.db.audits && w.db.audits[p].result.Completed?
    requires w.db.audits[p].op.proposedStatus == w.db.audits[p].op.newState.of.values.extractionStatus
    requires id in w.runs && w.runs[id].phase.Rechecked? && token !in w.claims
    requires w.runs[id].preview == p ==> w.runs[id].phase.op == w.db.audits[p].op
    ensures var w' := Exec(w, Claim(id, token));
            && p in w'.db.audits
            && (!w'.db.audits[p].result.Completed? <==>
                  w.runs[id].preview == p && w.db.invoice == Some(w.db.audits[p].op.newState.of))
  {
    ClaimEffect(w, id, token);
  }

  lemma CompletedAtClaim(w: World, id: Worker, token: Token, p: Preview)
    requires Reachable(w) && p in w.db.audits && w.db.audits[p].result.Completed? && Enabled(w, Claim(id, token))
    ensures p in Exec(w, Claim(id, token)).db.audits
    ensures !Exec(w, Claim(id, token)).db.audits[p].result.Completed?
            <==> w.runs[id].preview == p && w.db.invoice == Some(w.db.audits[p].op.newState.of)
  {
    ReachableInv(w);
    assert AuditOk(w, p, w.db.audits[p]) && RunOk(w, id, w.runs[id]);
    ClaimsCompletedIff(w, id, token, p);
  }

  lemma CompletedHasNoToken(w: World, p: Preview)
    requires Reachable(w) && p in w.db.audits && w.db.audits[p].result.Completed?
    ensures w.db.audits[p].token == None
  {
    ReachableInv(w);
    assert AuditOk(w, p, w.db.audits[p]);
  }

  /** A step takes an operation out of the completed state if and only if it is a claim on it while the
      row is still the one the operation wrote. */
  lemma CompletedEndsIff(w: World, s: Step, p: Preview)
    requires Reachable(w) && p in w.db.audits && w.db.audits[p].result.Completed?
    ensures p in Exec(w, s).db.audits
    ensures !Exec(w, s).db.audits[p].result.Completed? <==>
              s.Claim? && Enabled(w, s) && w.runs[s.id].preview == p
                  && w.db.invoice == Some(w.db.audits[p].op.newState.of)
  {
    if s.Claim? {
      if Enabled(w, s) { CompletedAtClaim(w, s.id, s.token, p); }
    } else if s.Finish? {
      CompletedHasNoToken(w, p);
      FinishEffect(w, s.id);
    } else if s.Begin? {
      BeginAddsOnly(w, s.id, p);
    } else if !s.Edit? {
      QuietSteps(w, s);
    }
  }

  /** A run that repeats a completed operation and fails at its first register. */
  function FailingRetry(id: Worker, p: Preview, op: Operation, metadata: Metadata, token: Token,
                        error: Code): seq<Step> {
    [ReadRow(id, p), ReadAudit(id)] + ([Extract(id, metadata, "", op.version, op.proposal)]
    + ([Recheck(id)] + ([Claim(id, token)] + ([CheckYear(id), SyncYear(id, error)] + [Finish(id)]))))
  }

  predicate FailedWith(w: World, p: Preview, error: Code) {
    p in w.db.audits && w.db.audits[p].result == RegisterFailed && w.db.audits[p].error == error
        && w.db.audits[p].completedYears == []
  }

  lemma FirstYearFails(w: World, id: Worker, p: Preview, token: Token, error: Code)
    requires ReadyToSync(w, id, p, token, []) && YearsToSync(w.db.audits[p].op) != [] && error != NoError
    ensures FailedWith(Execute(w, [CheckYear(id), SyncYear(id, error)] + [Finish(id)]), p, error)
  {
    var op := w.db.audits[p].op;
    var w1 := Exec(w, CheckYear(id));
    assert w1.runs[id].phase == Syncing(token, op, [], w.db.invoice) && w1.db == w.db;
    var w2 := Exec(w1, SyncYear(id, error));
    assert w2.runs[id] == Run(p, Finishing(token, op, [], error)) && w2.db == w.db;
    ExecuteTwo(w, CheckYear(id), SyncYear(id, error), [Finish(id)]);
    ExecuteOne(w2, Finish(id), []);
    assert [Finish(id)] + [] == [Finish(id)];
  }

  /** So completed is not final: from every reachable state with a completed operation and its row
      unchanged, repeating the run can end with the operation failed and no year on record. */
  lemma CompletedCanFailAgain(w: World, id: Worker, p: Preview, metadata: Metadata, token: Token, error: Code)
    requires Reachable(w) && Undrifted(w, p) && w.db.audits[p].result.Completed?
    requires id !in w.runs && token !in w.claims && SafeProposal(metadata, None).Ok? && error != NoError
    ensures FailedWith(Execute(w, FailingRetry(id, p, w.db.audits[p].op, metadata, token, error)), p, error)
  {
    ReachableRetriable(w, p);
    SomeYearToSync(w, p);
    var op := w.db.audits[p].op;
    var last := [CheckYear(id), SyncYear(id, error)] + [Finish(id)];
    var claiming := [Claim(id, token)] + last;
    var checking := [Recheck(id)] + claiming;
    var w1 := RetryReads(w, id, p, [Extract(id, metadata, "", op.version, op.proposal)] + checking);
    var w2 := RetryExtracts(w1, id, p, op.newState.of, op, metadata, checking);
    var w3 := RetryRechecks(w2, id, p, claiming);
    var w4 := RetryClaims(w3, id, p, token, last);
    FirstYearFails(w4, id, p, token, error);
  }

  lemma SomeYearToSync(w: World, p: Preview)
    requires Reachable(w) && p in w.db.audits
    ensures YearsToSync(w.db.audits[p].op) != []
  {
    ReachableInv(w);
    assert AuditOk(w, p, w.db.audits[p]);
    YearsAreSorted(p.record.registerYear, w.db.audits[p].op.newYear);
    assert w.db.audits[p].op.newYear in YearsToSync(w.db.audits[p].op);
  }

  // ----- races -----

  lemma OperationMatchesPreview(w: World, id: Worker)
    requires Reachable(w) && PhaseOf(w, id).Prepared? && w.runs[id].preview in w.db.audits
    ensures var p, op := w.runs[id].phase, w.db.audits[w.runs[id].preview].op;
            p.made.version == op.version && p.made.proposal == op.proposal
  {
    ReachableInv(w);
    assert RunOk(w, id, w.runs[id]);
    assert AuditOk(w, w.runs[id].preview, w.db.audits[w.runs[id].preview]);
  }

  lemma BeginKnown(w: World, id: Worker)
    requires id in w.runs && w.runs[id].phase.Prepared? && w.runs[id].preview in w.db.audits
    ensures var run, op := w.runs[id], w.db.audits[w.runs[id].preview].op;
            Exec(w, Begin(id)) == Goto(w, id, SameProposal(op, run.phase.made.version, run.phase.made.proposal))
  {
  }

  /** The loser of a race for the same approval never meets a drift: it goes on with the winner's
      operation, since the approval fixes extractor version and proposal. */
  lemma RaceLoserContinues(w: World, id: Worker)
    requires Reachable(w) && PhaseOf(w, id).Prepared? && w.runs[id].preview in w.db.audits
    ensures Exec(w, Begin(id)) == Goto(w, id, Applied(w.db.audits[w.runs[id].preview].op))
  {
    OperationMatchesPreview(w, id);
    BeginKnown(w, id);
  }

  /** The status check of the claim never fires: it comes after the fingerprint check, and the
      fingerprinted row carries the proposed status. */
  lemma StatusDriftNeverReported(w: World, id: Worker, token: Token)
    requires Reachable(w) && PhaseOf(w, id).Rechecked?
    ensures ClaimOf(w, id, token) != Rejected(ProtectedStatusDrift) && ClaimOf(w, id, token) != Rejected(AuditMissing)
  {
    ReachableInv(w);
    assert RunOk(w, id, w.runs[id]);
    assert AuditOk(w, w.runs[id].preview, w.db.audits[w.runs[id].preview]);
  }
}
