# Proofs about the mail agent

The mail agent reads a mailbox, classifies messages with a local language model, archives and
re-reads invoices, keeps a local search index, and creates calendar events after approval by mail.
This project models the parts where state, concurrency or arithmetic decide whether the agent is
right, and proves what those parts promise. `dafny verify dfyconfig.toml` checks all of it.

## Components

| file | models | central question |
|---|---|---|
| `ReprocessApply.dfy`, `ApplyProtocol.dfy`, `ApplyValues.dfy` | the invoice re-apply protocol: eligibility, proposal safety, the three transactions, and any number of interleaved runs with crashes, foreign edits and a clock | Is a row rewritten at most once, only from the approved state and with exactly the values that were extracted from it, and can only the holder of a claim end it? |
| `BackfillWalk.dfy`, `SearchBackfill.dfy`, `BackfillRun.dfy`, `BackfillResults.dfy`, `BackfillComplete.dfy`, `BackfillReasons.dfy` | the resumable index backfill: page walk, coverage, one invocation with a fault possible at every access, meaning of `complete` | Does a run that is cut up, crashed and resumed give exactly the index of one unstopped run? When is a report complete, and are its reasons true? |
| `SearchProjection.dfy`, `ProjectionMeaning.dfy` | partition files and the root manifest with its coverage guards | Do the guards mean what the manifest says? |
| `ImapInventory.dfy`, `ImapAnswers.dfy`, `ModifiedUtf7.dfy`, `Utf7Tokens.dfy`, `Utf7Names.dfy` | the race-checked UID snapshot, its pages, and mailbox names in modified UTF-7 (section 5.1.3 of RFC 3501) | Is an accepted snapshot the true UID set? Do printer and parser undo each other, and is what they write and read the bits of the name in UTF-16? |
| `ModelGroups.dfy`, `Classifier.dfy`, `ClassifierGroups.dfy`, `ClassifyResults.dfy`, `ClassifyMany.dfy`, `ModelRequest.dfy` | batching around an unreliable model: greedy partition, identified batch answers, bounded split, parallel groups, timeouts and retries | Does every message get its own result, in its own place, whatever the model does and in whatever order groups complete, and what do rules and fallbacks make of it? |
| `CalendarApproval.dfy`, `CalendarAnswers.dfy`, `CalendarNames.dfy`, `CalendarRuns.dfy` | approval replies, calendar mails and commands, create-only calendar writes, local records, a crash after every effect; whole runs of these | Is an event only ever made by a timely yes, once per key, and is every answer true? Which steps keep a record, and which leave an approval wrong about its event? |
| `InvoiceMoney.dfy`, `MoneyWhole.dfy`, `AmountSelection.dfy`, `AmountExtraction.dfy`, `AmountMeaning.dfy`, `AmountOrder.dfy`, `AmountLines.dfy`, `InvoiceFusion.dfy`, `FusionMeaning.dfy` | amount parsing and printing, the amounts that labels find on their lines, in-place selection among labelled amounts, the extraction of gross, net and tax, fusion of text and OCR | Is money read back as printed? When has an extraction no review reason, when is it confirmed, and when does the order of candidates and of lines matter? |
| `Drain.dfy`, `DrainBounds.dfy`, `DrainCounts.dfy`, `DrainEnds.dfy` | the nested message budgets of a drain, with moves whose record fails | How many messages can be acted on, when does the limit bound them, and is every listed message handled once? |
| `LearningQuality.dfy`, `LearningPredictors.dfy` | predictor counters, the predictors and the purged holdout | Do the counters agree, when is anything predicted, and does the holdout leak? |
| `EnvFile.dfy`, `EnvLines.dfy`, `EnvLayout.dfy`, `EnvText.dfy`, `EnvEntries.dfy`, `EnvRoundTrip.dfy` | the value printer and parser of the secrets file, and the loading and rewriting of the whole file | Which secrets come back from the file, and what does writing do to the others? |
| `Common.dfy` | trimming, sequential replacement and decimal rendering as the original language defines them | |

Code that updates things step by step is modelled by classes and loops whose contracts equate the new
state with a specification function of the old one; what the agent promises is then proved about those
functions and about runs made of them.

## Contracts of the surroundings

- A digest is injective: SHA-256 is a constructor around the digested value. Used by every theorem of
  `ApplyProtocol` (row fingerprint, preview digest) and for partition file names and occurrence ids in
  `SearchProjection`.
- Claim tokens are fresh. Used by `OnlyTheHolderEndsASync`, `TakenOverRecordsNothing`,
  `CompletedMeansSynced` and the invariant they rest on.
- The clock is monotone. Used by `AuditOk` (a claim is never stamped in the future), and so by
  `UndriftedOperationCanComplete`, and by `CalendarRuns.ClosedNeverCreates`.
- A database transaction is atomic and a file is replaced atomically. Used by `ApplyProtocol`,
  `CalendarApproval`, `CalendarRuns` and `BackfillRun`; between two of them a crash is possible.
- A mailbox evolves as section 2.3.1.1 of RFC 3501 says: UIDs are never reused under one UIDVALIDITY,
  UIDNEXT only grows, and a reset takes a larger UIDVALIDITY. Used by `SnapshotIsExact` only.
- Scanner, mail parser, backend pages and folder list are functions of what they are given, unchanging
  across the invocations of one backfill. Used by all theorems about the walk. Folder ids are distinct
  and short enough to be safe ids with their suffixes (`GoodFolders`); limits are those that
  `BackfillLimits.validated` admits.
- Model, server and OCR results, failures, orders of completion and everything else outside are
  arbitrary.

## What turned out to hold only under a condition

- Secrets that are written to the file are the ones that are loaded from it exactly when the file could
  be loaded before and every secret holds no backslash directly followed by n, r or t and no line break
  but the newline (`EnvRoundTrip.WrittenIsLoadedIff`; `EnvFile.DecodeEncode` is the half about one printed
  value). A carriage return in a secret cuts its line: what follows stops the loader
  (`EnvRoundTrip.CarriageReturnStopsTheLoader`) or binds another variable (`CarriageReturnBindsAnother`).
  A printer could do better: single quotes bring back everything on one line
  (`EnvFile.QuotedIsRead`), and `EnvFile.ReadableIff` says what any printer can reach.
- A printed amount is read back exactly up to 28 digits of cents; the parser fails with a decimal error
  above that, which an apply run reports as `apply-failed` (`InvoiceMoney.FormatAmountRoundTrip`).
- Claim timestamps have whole seconds, so a claim can be taken over before its 300 seconds are up,
  exactly by the time within its second (`ReprocessApply.TakeoverIff`); one made at the last microsecond
  of a second is gone one microsecond after 299 seconds (`ReprocessApply.TakeoverAge`).
- `completed` is not final: a completed operation leaves that state exactly by a claim on it while its
  row is unchanged (`ApplyProtocol.CompletedEndsIff`), and from every reachable state of that kind a
  repeated run can end as `register-failed` with no completed year on record
  (`ApplyProtocol.CompletedCanFailAgain`).
- A fault-free backfill invocation makes progress exactly when the next page fits into the budgets of
  one invocation; a page with more messages or bytes than a whole budget is read again and again and
  never committed (`BackfillRun.Backfill.Run`, `NextFits`).
- A backfill is reported complete exactly when every folder was read to its last page and every message of
  every page was in order under a stable UID (`BackfillComplete.CompleteIff`).
- A message is indexed without being checked exactly when the failure of its attachments has an empty
  name (`BackfillResults.IndexedIsChecked`); the scanner and the decoder that the assistant comes with
  name every failure (`BackfillResults.HostNamesFailures`), so with them indexed means checked.
- An extraction as a whole can be confirmed and carry a review reason, exactly when the text result is
  confirmed with enough confidence, its supplier is known only from the sender, and OCR is off or failed
  (`InvoiceFusion.ConfirmedWithReasonIff`; `ConfirmedWithReason` is such an input).
- The order of the candidates changes no amount, currency or review reason
  (`AmountOrder.ReorderingChangesNothing`), but it does change the confidence of a selected amount
  (`AmountOrder.OrderMovesConfidence`), by at most what the next line costs and never across the
  threshold of its field.
- The order of the lines does change the candidates: a label without an amount takes that of the next
  line only if that has no label, so swapping two lines can make a gross amount appear
  (`AmountLines.LinesThatMayNotSwap`, `SwapMakesGross`). A block of lines gives the same candidates
  whatever follows it exactly when its last line does not look for its amount on the next one
  (`AmountLines.IndependentIff`), and such blocks may stand in any order (`BlocksMayMove`).
- The message limit of a drain does not bound what is moved: the virus gate moves an infected message
  before it records that, and when the record fails the message is moved but not counted. With one
  infected message in each feedback folder a limit of one moves four
  (`DrainBounds.FourMovedUnderALimitOfOne`). What is acted on is bounded by the limit plus these losses
  (`ActedIsBoundedUpToLosses`), and by the limit alone in every environment exactly when the run is dry,
  the scanner is off, or the rounds are too few (`BoundedIff`).
- A calendar record is not kept for ever: tentative and untrusted mails and commands are recorded over
  whatever is there, so a tentative mail replaces the record of a created event
  (`CalendarRuns.TentativeMailReplacesRecord`). A record is kept through a step exactly when the step is
  no such overwrite (`CalendarRuns.RecordIsKeptIff`).
- A rejected approval can have its event in the calendar: after a crash between the server's answer and
  the record of it (`CalendarRuns.RejectedAlthoughCreated`), and without any crash after a request that
  took effect but timed out (`CalendarRuns.RejectedAfterTimeout`). A step keeps every approval with an
  event marked as created exactly when it is not such a yes (`CalendarRuns.MarkedIff`).
- An approval can be marked as created without its event in the calendar: file names in the calendar are
  made from UIDs with loss, and a file that is taken is answered like a duplicate
  (`CalendarRuns.FileNameIsTaken`; `CreatedWithoutEventIff` is the exact condition).
- A key has at most one event as long as no command mail is handled
  (`CalendarRuns.OneEventWithoutCommands`); a command mail names its file in another way and can make a
  second one (`CalendarRuns.CommandMakesAnother`).
- On the purged holdout the sender and the pattern predictor never predict anything
  (`LearningQuality.Evaluate`).

## Model

| member | source | states |
|---|---|---|
| `ReprocessApply.ConfirmedIsProtected` | mail_agent/invoice_reprocess_apply.py:113-130 | A row whose stored status is confirmed or confirmed-manual is never eligible for a rewrite. |
| `ReprocessApply.SafeProposal` | mail_agent/invoice_reprocess_apply.py:133-196 | An accepted proposal is confirmed and free of review reasons, its year lies in 2000 to 2100, the stored gross is the parsed one, gross equals net plus tax up to two cents, tax does not exceed gross, the currency is a supported one and no required field is blank. |
| `ReprocessApply.AcceptedIff` | mail_agent/invoice_reprocess_apply.py:133-196 | A proposal is accepted if and only if it is confirmed without reservations, its texts fit, its date, amounts and currency are in order, and a new one is classified as improved. |
| `ReprocessApply.AcceptedCarries` | mail_agent/invoice_reprocess_apply.py:178-196 | An accepted proposal is written as it is: date, number, supplier, due date, confidence and method from the field of the same name, the text up to its limit, the category or its default, and the cents that gross, net and tax stand for, in the proposal's own currency. |
| `ReprocessApply.RefusalMeans` | mail_agent/invoice_reprocess_apply.py:133-178 | Each refusal of a proposal is for a reason that is true of it. |
| `ReprocessApply.IneligibleMeans` | mail_agent/invoice_reprocess_apply.py:113-130 | Each refusal of a row is for a reason that is true of it, and no other row is refused. |
| `ReprocessApply.Storage.BeginLocalApply` | mail_agent/invoice_reprocess_apply.py:223-329 | First transaction: a known operation, every refusal, or the rewrite of the row together with the insert of its audit row; nothing else changes. |
| `ReprocessApply.Storage.ClaimRegisterSync` | mail_agent/invoice_reprocess_apply.py:342-393 | Second transaction: drift checks in order, a younger claim is left alone, otherwise token, attempt count and stamp are written. |
| `ReprocessApply.Storage.FinishRegisterSync` | mail_agent/invoice_reprocess_apply.py:396-434 | Third transaction: a compare-and-set on state and token; with the wrong token nothing changes and the claim counts as lost. |
| `ReprocessApply.SyncYears` | mail_agent/invoice_reprocess_apply.py:605-653 | The completed years are the longest prefix of years that were each checked and synced; the error is that of the first failing check or sync. |
| `ReprocessApply.YearsAreSorted` | mail_agent/invoice_reprocess_apply.py:205-220 | The stored years read back are exactly the valid ones of the old and the new register year, sorted and without duplicates. |
| `ApplyValues.SortedYearsAre` | mail_agent/invoice_reprocess_apply.py:205-220 | Whatever years are recorded as completed, they are stored ascending and once each; read back, the same without those that are no register years. |
| `ApplyValues.RegisterYearsAre` | mail_agent/invoice_reprocess_apply.py:223-329 | The register years of an operation are those of the row before and after it, ascending and once each. |
| `ReprocessApply.ClaimGrantedIff` | mail_agent/invoice_reprocess_apply.py:342-373 | A claim is granted if and only if the row is still the one the operation wrote and no claim younger than the limit is held. |
| `ReprocessApply.TakeoverIff` | mail_agent/invoice_reprocess_apply.py:332-339 | A claim can be taken over if and only if its age plus the part of its second that the timestamp drops reaches 300 seconds. |
| `ReprocessApply.TakeoverAge` | mail_agent/invoice_reprocess_apply.py:332-339 | No takeover up to 299 seconds after a claim, always one from 300 seconds on, and an input with a takeover right after 299 seconds. |
| `ApplyProtocol.StepKeepsOrder` | mail_agent/invoice_reprocess_apply.py:490-667 | Every step of any run, crash, foreign edit and tick of the clock keeps the audit table, the runs and the tokens in order. |
| `ApplyProtocol.StepKeepsInv` | mail_agent/invoice_reprocess_apply.py:490-667 | The same with the history of rewrites. |
| `ApplyProtocol.ExecuteKeepsInv` | mail_agent/invoice_reprocess_apply.py:490-667 | The invariant holds over every interleaving of any length. |
| `ApplyProtocol.ReachableInv` | mail_agent/invoice_reprocess_apply.py:490-667 | Every reachable state satisfies the invariant. |
| `ApplyProtocol.RewrittenAtMostOnce` | mail_agent/invoice_reprocess_apply.py:223-329 | Over every interleaving there is at most one rewrite plus one for each time a foreign edit made the row eligible again; no preview is used twice; each rewrite starts from exactly the approved, eligible row and ends confirmed. |
| `ApplyProtocol.RewriteAndAuditAreAtomic` | mail_agent/invoice_reprocess_apply.py:246-325 | No step changes the row or the set of audit rows except one that does both together, from the fingerprinted row, under a new operation. |
| `ApplyProtocol.CompletedMeansSynced` | mail_agent/invoice_reprocess_apply.py:586-667 | A completed operation's years are exactly its valid register years, each synced under one token claimed for it, right after the row carried the operation's fingerprint. |
| `ApplyProtocol.OnlyTheHolderEndsASync` | mail_agent/invoice_reprocess_apply.py:342-434 | A running sync changes only by the finish of the worker whose token is stored, or by a takeover of a claim older than 299 seconds. |
| `ApplyProtocol.TakenOverRecordsNothing` | mail_agent/invoice_reprocess_apply.py:396-434 | However the others go on, a worker whose token is no longer stored changes nothing when it finishes and is told that its claim was lost. |
| `ApplyProtocol.TakeoverLosesClaim` | mail_agent/invoice_reprocess_apply.py:342-393 | A granted takeover puts the earlier holder into exactly the state that `TakenOverRecordsNothing` starts from. |
| `ApplyProtocol.CompletedEndsIff` | mail_agent/invoice_reprocess_apply.py:342-393 | In a reachable state a step takes an operation out of `completed` if and only if it is a claim on it while the row is still the one it wrote. |
| `ApplyProtocol.CompletedCanFailAgain` | mail_agent/invoice_reprocess_apply.py:490-667 | From every reachable state with a completed operation and its row unchanged, a repeated run whose sync fails ends it as register-failed with no completed year on record. |
| `ApplyProtocol.UndriftedOperationCanComplete` | mail_agent/invoice_reprocess_apply.py:490-667 | From every reachable state in which the row is still the one an operation wrote, one more run 300 seconds later completes it, whatever crashes happened. |
| `ApplyProtocol.RaceLoserContinues` | mail_agent/invoice_reprocess_apply.py:545-569 | A run that loses the race for the same preview never meets version or proposal drift and goes on with the winner's operation. |
| `ApplyValues.RewritesCarryTheExtracted` | mail_agent/invoice_reprocess_apply.py:490-580 | Over every interleaving each rewrite was made by a run that extracted a safe proposal from the approved row in a step of its own, and it put exactly that proposal's values and year into the row, and nothing else. |
| `ApplyValues.ApprovedRunCompletes` | mail_agent/invoice_reprocess_apply.py:490-667 | An approved invoice with an accepted proposal is rewritten with the proposal's values and synced for its years when a run is left alone and the registers cooperate. |
| `ApplyValues.AttemptsCountClaims` | mail_agent/invoice_reprocess_apply.py:342-393 | The attempts on record grow by one with every granted claim of the operation, and only then. |
| `ApplyValues.ReadMeans` | mail_agent/invoice_reprocess_apply.py:505-522 | A run goes on from an eligible row or from the row that the known operation wrote, and is refused for what is true of the row. |
| `ApplyValues.ExtractMeans` | mail_agent/invoice_reprocess_apply.py:538-585 | A proposal is written only for the approved preview and when it is safe; a known operation is carried on if and only if version and proposal are its own and the proposal is safe; each refusal is for what is true. |
| `ApplyValues.RewritesAreBounded` | mail_agent/invoice_reprocess_apply.py:223-329 | From an empty audit table on there is at most one rewrite and one more for each edit from outside that makes a row eligible which was not. |
| `ApplyValues.ExecuteKeepsEnds` | mail_agent/invoice_reprocess_apply.py:396-434 | Over every interleaving an operation that ended well says when and has no error, and one whose sync failed has an error and no such time. |
| `ApplyProtocol.StatusDriftNeverReported` | mail_agent/invoice_reprocess_apply.py:353-366 | The status check and the missing-audit check of a claim never fire in a reachable state. |
| `SearchProjection.PartitionIdsDistinct` | mail_agent/search_backfill.py:616 | Partition ids of different folders or pages differ, and none is the pending marker of any folder. |
| `SearchProjection.PublishRoot` | mail_agent/search_projection_v2.py:368-467 | A published manifest is honest: complete and incomplete ids split the expected ones, every partition is expected, an incomplete partition is not covered, and a complete manifest has every expected id covered by a partition. |
| `SearchProjection.DistinctIdsCount` | mail_agent/search_projection_v2.py:382-384 | Comparing set size with list length detects exactly the lists with a repeated partition id. |
| `ProjectionMeaning.RootMeans` | mail_agent/search_projection_v2.py:368-467 | A manifest is published exactly when no partition comes twice, the ids are safe, the coverage is exact, and it claims to be complete only when nothing is missing; then it holds what it was given, and each refusal is for what is true. |
| `ProjectionMeaning.PartitionMeans` | mail_agent/search_projection_v2.py:189-302 | A partition holds what it was given, and is refused exactly for a message without identity, an unsafe id, or two messages that are the same. |
| `ProjectionMeaning.SameIff` | personal_assistant/contracts/mail_projection_v2.py:109-135 | Two messages are the same if and only if they are in one folder and have the same UIDVALIDITY and UID, or, where UIDs are missing, the same mailbox id and content. |
| `ProjectionMeaning.IdentifiedIff` | personal_assistant/contracts/mail_projection_v2.py:109-135 | A message has an identity if and only if its folder is a safe id and it has UIDVALIDITY and UID, or neither of them but a mailbox id. |
| `BackfillWalk.CompletedRunsAgree` | mail_agent/search_backfill.py:494-656 | All completed walks with the same start time have the same folder states and metrics. |
| `BackfillWalk.DoneStaysDone` | mail_agent/search_backfill.py:494-499 | Once every folder is done nothing is read any more. |
| `BackfillWalk.WalkShape` | mail_agent/search_backfill.py:626-644 | In every checkpoint each folder holds its pages 1 to next_page - 1 in order, and the page, message and byte metrics are the sums over the folders. |
| `BackfillWalk.FolderPages` | mail_agent/search_backfill.py:629-635 | The k-th partition of a folder is the publication of its page k, all pages but the last announce more, and a folder is done if and only if its last page announced no more. |
| `SearchBackfill.ScanMonotone` | mail_agent/search_backfill.py:507-517 | The bytes counted for a page never shrink, so the byte budget fails on some message if and only if it fails for the page. |
| `SearchBackfill.CommitFollowsWalk` | mail_agent/search_backfill.py:494-644 | Committing the page the program reads next is the next step of the unstopped run. |
| `SearchBackfill.PageHasOwnId` | mail_agent/search_backfill.py:616-625 | A published page carries the id of its folder and page number, and it is a safe id. |
| `SearchBackfill.FolderOwnsIds` | mail_agent/search_backfill.py:616-634 | The partitions of a folder have distinct ids of that folder. |
| `SearchBackfill.MarkPartitions` | mail_agent/search_backfill.py:668-673 | The loop over a folder's partitions gives a reason to exactly those that are not complete and authoritative. |
| `SearchBackfill.CollectCoverage` | mail_agent/search_backfill.py:658-679 | The loop over the folders collects references, expected ids, reasons and the two completeness flags folder by folder. |
| `SearchBackfill.RootIsAccepted` | mail_agent/search_backfill.py:658-701 | The arguments the run builds never trip a guard of the manifest; expected is actual plus the markers of unfinished folders, incomplete is expected minus covered, and the manifest is complete if and only if all folders are done and all partitions covered, when all sets coincide. |
| `SearchBackfill.CutUpRunsAgree` | mail_agent/search_backfill.py:418-701 | Two backfills with the same start time that got through all folders, however they were cut up and stopped in between, have the same folder states and the same manifest. |
| `BackfillRun.Backfill.Judge` | mail_agent/search_backfill.py:519-604 | The checks on one message in order: size, raw scan, attachments up to the first failure, parsing. |
| `BackfillRun.Backfill.ScanPage` | mail_agent/search_backfill.py:508-604 | A page is scanned to its end only within the message and byte budgets, and without faults exactly then. |
| `BackfillRun.Backfill.ReadPage` | mail_agent/search_backfill.py:505-625 | A page that was read is published and fits the budgets; published files are never removed. |
| `BackfillRun.Backfill.CommitPage` | mail_agent/search_backfill.py:626-644 | Published first, checkpointed second: the file holds the old or the new state, the new one if the commit was reached. |
| `BackfillRun.Backfill.TakePage` | mail_agent/search_backfill.py:505-644 | One page keeps the checkpoint on the unstopped run's walk, with a fault possible at every access. |
| `BackfillRun.Backfill.Turn` | mail_agent/search_backfill.py:500-656 | A turn of the inner loop commits one page or leaves the state, within the page and message limits. |
| `BackfillRun.Backfill.CrawlFolder` | mail_agent/search_backfill.py:500-644 | The loop over the pages of a folder ends with the folder done or a stop that leaves an unfinished folder. |
| `BackfillRun.Backfill.Crawl` | mail_agent/search_backfill.py:493-656 | The loop over the folders stays on the walk and within the budgets; without faults it advances if and only if the next page fits. |
| `BackfillRun.Backfill.SaveInterrupted` | mail_agent/search_backfill.py:652-656 | The exception handler leaves the old file or the state in memory. |
| `BackfillRun.Backfill.BuildManifest` | mail_agent/search_backfill.py:658-701 | The manifest of the current state is always accepted and is exact. |
| `BackfillRun.Backfill.Conclude` | mail_agent/search_backfill.py:645-707 | The end of an invocation: the manifest of exactly what was read, and a checkpoint that is complete if and only if the manifest is. |
| `BackfillRun.Backfill.Prepare` | mail_agent/search_backfill.py:418-463 | An invocation continues an unfinished checkpoint of the same fingerprint, or saves a fresh one. |
| `BackfillRun.Backfill.Close` | mail_agent/search_backfill.py:658-739 | The report's counters are the differences this invocation made. |
| `BackfillRun.Backfill.Work` | mail_agent/search_backfill.py:494-739 | Crawl and conclusion together: the file stays on the walk within one invocation's budgets. |
| `BackfillRun.Backfill.Run` | mail_agent/search_backfill.py:400-739 | After every invocation, however it ends, the checkpoint is a state of the unstopped run with all its files published, at most max_pages, max_messages and max_bytes further; a report is exact; without faults there is progress if and only if the next page fits one invocation, and a report unless that page cannot be published. |
| `BackfillRun.FinishedBackfillsAgree` | mail_agent/search_backfill.py:400-739 | Two backfills with the same start time whose last invocations report no stop leave the same checkpoint state and the same manifest, whatever faults, limits and resumes came before. |
| `BackfillResults.UncleanIsReported` | mail_agent/search_backfill.py:543-569 | The attachment loop passes if and only if all attachments are clean, and otherwise takes the status of the first unclean one. |
| `BackfillResults.IndexedIsChecked` | mail_agent/search_backfill.py:519-580 | A message is indexed without being checked if and only if size, raw scan and parsing are in order and the failure of its attachments has an empty name; otherwise indexed means checked and parsed. |
| `BackfillResults.FailureIff` | mail_agent/search_backfill.py:543-569 | The attachment failure is empty if and only if all attachments are there and clean, or the failure has an empty name. |
| `BackfillResults.HostNamesFailures` | personal_assistant/antivirus.py:43-75 | With the statuses that the assistant's scanner produces and the texts of its decoder errors no failure has an empty name. |
| `BackfillResults.CoveredFolder` | mail_agent/search_backfill.py:605-644 | A finished folder whose partitions are all covered has no blocked entry, and each partition lists exactly the messages of its page in order. |
| `BackfillResults.CompleteIndexesEverything` | mail_agent/search_backfill.py:658-701 | A complete manifest has every message of every page of every folder indexed, with nothing blocked. |
| `BackfillResults.EveryUidOnce` | mail_agent/imap_inventory.py:604-628 | With the native inventory a complete folder's records are one for each UID of the snapshot, in order, and none besides. |
| `BackfillResults.CompleteReportMeans` | mail_agent/search_backfill.py:658-739 | From a report that says complete: every folder is done with nothing blocked, its partitions are published and named by the manifest, and its records are one for each UID in order, each within the size limit and cleanly scanned. |
| `BackfillComplete.CoveredIff` | mail_agent/search_backfill.py:605-625 | A published page is covered if and only if the connector proves UIDs, the folder has a UIDVALIDITY, every envelope has a UID, and every message is within the size limit, clean and parsed. |
| `BackfillComplete.FateIsOwn` | mail_agent/search_backfill.py:519-604 | A message that is indexed has its own content, place and UID on record, and one that is not is held for a reason that is true of it. |
| `BackfillComplete.PageCounts` | mail_agent/search_backfill.py:616-644 | A page counts all its messages and their bytes, indexed or held. |
| `BackfillComplete.FolderHolds` | mail_agent/search_backfill.py:626-635 | In every checkpoint a folder lists exactly the messages of its pages that are not indexed, in order, and each of its messages is either on record or listed there. |
| `BackfillComplete.CompleteIff` | mail_agent/search_backfill.py:658-739 | A report says complete if and only if every folder was read to its last page and every message of every page was in order under a stable UID. |
| `BackfillReasons.ReasonsAreTrue` | mail_agent/search_backfill.py:658-701 | The manifest gives a reason for exactly what is incomplete: a partition that is not covered failed closed, and the rest of a folder waits for its own error or for what stopped the invocation. |
| `BackfillReasons.StopIsTheReason` | mail_agent/search_backfill.py:645-701 | In the manifest of an invocation that was stopped, the first folder that is not done waits for what stopped it. |
| `BackfillComplete.UnfinishedFits` | mail_agent/search_backfill.py:493-656 | Where the walk ends after some pages and each fits the budgets, every earlier state has a next page that a fresh invocation can take. |
| `BackfillComplete.RunToTheEnd` | mail_agent/search_backfill.py:400-739 | Where that is so, invoking the backfill without faults until it reports no stop ends with every folder done, after at most as many invocations as there are pages, and complete if and only if every message of every page was in order. |
| `ImapInventory.SnapshotIsExact` | mail_agent/imap_inventory.py:558-599 | Against every history of appends, expunges and resets a snapshot is accepted if and only if the mailbox was the same at both EXAMINEs and the search came in order; the UIDs are then the mailbox's at every moment in between. |
| `ImapInventory.Inventory.TakeSnapshot` | mail_agent/imap_inventory.py:558-599 | The checks in order with their errors; only an accepted snapshot is remembered. |
| `ImapInventory.Inventory.StateOf` | mail_agent/imap_inventory.py:601-602 | The remembered snapshot, or a new one. |
| `ImapInventory.Inventory.ListEnvelopes` | mail_agent/imap_inventory.py:611-627 | One envelope for each selected UID, in order, named by the UID. |
| `ImapInventory.Inventory.FetchPage` | mail_agent/imap_inventory.py:604-628 | Invalid page numbers and sizes are refused, otherwise the page is cut from the folder's one snapshot. |
| `ImapInventory.LastPage` | mail_agent/imap_inventory.py:609-628 | A page announces more if and only if it does not reach the last UID. |
| `ImapInventory.PagesYieldEveryUid` | mail_agent/imap_inventory.py:604-628 | Reading pages until one announces no more yields every UID of the snapshot once, in order. |
| `ImapAnswers.AnswersMean` | mail_agent/imap_inventory.py:558-599 | Whatever a server answers, a snapshot is accepted only when both answers agree and count what was found, and each refusal is for a reason that is true of the answers. |
| `ImapAnswers.RefusalsMean` | mail_agent/imap_inventory.py:558-599 | Against a mailbox that answers truly a snapshot is refused for exactly what is wrong, and never looks partial. |
| `ImapAnswers.NumberIsRead` | mail_agent/imap_inventory.py:561-572 | The number at the end of an answer is read, with or without a closing bracket. |
| `ImapAnswers.PageHolds` | mail_agent/imap_inventory.py:604-628 | A page holds the UIDs from its start on, in order, and as many as its size while more follow. |
| `ModifiedUtf7.EncodeModifiedUtf7` | mail_agent/imap_inventory.py:249-271 | The printer's loop with its buffer computes the encoding. |
| `ModifiedUtf7.DecodeModifiedUtf7` | mail_agent/imap_inventory.py:223-246 | The parser's loop computes the decoding, with its error and its unterminated tail. |
| `ModifiedUtf7.DecodeEncode` | mail_agent/imap_inventory.py:223-271 | Decoding the encoding of any Unicode text returns the text. |
| `ModifiedUtf7.EncodeInjective` | mail_agent/imap_inventory.py:249-271 | Two names have the same encoding if and only if they are the same. |
| `ModifiedUtf7.EncodePrintable` | mail_agent/imap_inventory.py:249-271 | The encoding is printable ASCII. |
| `ModifiedUtf7.TokenRoundTrip` | mail_agent/imap_inventory.py:238-261 | Surrogate pairs, unpadded base64 and the comma are undone, and a token holds none of the characters that delimit it. |
| `ModifiedUtf7.ListedNameIsRecognised` | mail_agent/imap_inventory.py:279-286 | A server that quotes an encoded name gets back the name and the encoded form, whatever quotes and backslashes it holds. |
| `Utf7Tokens.PrinterWritesBits` | mail_agent/imap_inventory.py:252-258 | The k-th digit of a token has its place in the literal alphabet as the k-th six bits of the text in big-endian UTF-16, padded with zeros, and there are no more digits than the bits need. |
| `Utf7Tokens.ParserReadsBits` | mail_agent/imap_inventory.py:238-244 | A token of the alphabet is read as a text if and only if it holds the bits of the text and less than another digit. |
| `Utf7Names.PrinterLaws` | mail_agent/imap_inventory.py:249-271 | A plain character stands for itself, the ampersand is written with a hyphen, and each longest stretch of others is one token between them. |
| `Utf7Names.ParserLaws` | mail_agent/imap_inventory.py:223-246 | Text up to an ampersand stands for itself, a token is what it stands for or an error, and an ampersand without an end is read as it stands. |
| `Utf7Names.OnlyAscii` | mail_agent/imap_inventory.py:241-244 | A token with a character outside ASCII is an error. |
| `Utf7Names.OthersArePassedOver` | mail_agent/imap_inventory.py:241-243 | Between the digits of a token any other ASCII character but the padding is passed over. |
| `Utf7Names.UnquotedIsRecognised` | mail_agent/imap_inventory.py:279-286 | A name that a server lists without quotes is taken as it stands. |
| `Utf7Names.Drafts` | mail_agent/imap_inventory.py:223-271 | An input: Entwürfe is printed as Entw&APw-rfe, and read back. |
| `ModelGroups.FixedGroups` | mail_agent/classifier.py:453-454 | The fixed groups concatenate to the input and are the greedy partition by size. |
| `ModelGroups.AdaptiveGroups` | mail_agent/classifier.py:456-491 | The adaptive loop yields a greedy partition: groups concatenate to the input, every message fitted when it joined, and a group ends only where the next message did not fit. |
| `ModelGroups.Groups` | mail_agent/classifier.py:440-497 | Both variants. |
| `ModelGroups.GroupsAreConservative` | mail_agent/classifier.py:440-497 | No group is empty or above the batch size; adaptively an invitation is alone, at most one message is heavy, and two or more stay within the character target. |
| `ModelGroups.GroupsAreMaximal` | mail_agent/classifier.py:440-497 | No group is smaller than it must be: with the first message of the next one it would break a limit. |
| `ModelGroups.GroupCount` | mail_agent/classifier.py:495-496 | There are at least n / size groups, rounded up. |
| `ModelGroups.GreedyIsUnique` | mail_agent/classifier.py:440-497 | The partition is determined by messages and policy. |
| `Classifier.GuardedIsNeverSpam` | mail_agent/classifier.py:686-772 | A message that must not be spam or comes from an important sender never becomes spam, no message becomes spam by its context, and only an important sender adds forwarding. |
| `ClassifyResults.ContextAdjusts` | mail_agent/classifier.py:686-773 | Mail of an important sender is an appointment exactly when the model said so or found an event, otherwise relevant, forwarded and raised to 0.96 and 8; guarded spam becomes uncertain, at most 0.69 and not forwarded; a known contact only gains importance up to 10; everything else is unchanged. |
| `ClassifyResults.FallbackIsCautious` | mail_agent/classifier.py:1359-1382 | A message without an answer is relevant and forwarded for an important sender, otherwise uncertain without confidence and not forwarded. |
| `ClassifyResults.ClearedRules` | mail_agent/classifier.py:528-538 | Once the user has said that a message is no spam, a rule that says spam is dropped and every other rule stays. |
| `Classifier.LocalIdsDistinct` | mail_agent/classifier.py:801 | The ids handed to the model are distinct. |
| `Classifier.ReadEntries` | mail_agent/classifier.py:818-828 | The loop over the answer fails if and only if an entry is malformed, unknown or repeated, and otherwise tabulates exactly the entries. |
| `Classifier.ParseBatch` | mail_agent/classifier.py:814-833 | A batch answer is used if and only if it has exactly one entry for each id, and then in the order of the messages. |
| `Classifier.OneEntryPerId` | mail_agent/classifier.py:820-828 | Where no id repeats, an entry is found by its id if and only if it is there. |
| `Classifier.AnswersAreOwn` | mail_agent/classifier.py:829-833 | The k-th answer is the one the model gave under the k-th message's id. |
| `ClassifierGroups.Runner.CallSingle` | mail_agent/classifier.py:549-577 | A single message: its answer, its fallback, or an aborted run; the fallback count grows with the fallbacks. |
| `ClassifierGroups.Runner.ClassifyModelGroup` | mail_agent/classifier.py:540-684 | The recursion with its four failure paths computes the specified outcome and makes exactly the specified requests, and `fallback_messages` grows by exactly the fallbacks in it. |
| `ClassifierGroups.GroupIsSound` | mail_agent/classifier.py:540-684 | Whatever the model does, unless the budget runs out a group yields one result for each message in order, each the message's own fallback or its own entry in the reply to a request made on the recursion for this group, with at most batch_max_split_depth + 1 group calls for any message. |
| `ClassifierGroups.AbortedIff` | mail_agent/classifier.py:540-684 | A group gives up if and only if the budget runs out in one of its requests. |
| `ClassifierGroups.CallsAreHalves` | mail_agent/classifier.py:579-684 | Every request for a group is for messages of it, which has been halved at each level of the split, never below the deepest allowed level. |
| `ClassifierGroups.AbortEndsRequests` | mail_agent/classifier.py:540-684 | Once the budget has run out in a request nothing more is asked for the group. |
| `ClassifierGroups.TriesAreRequests` | mail_agent/classifier.py:540-684 | The count of a result is exactly the number of requests that were made for its message. |
| `ClassifyMany.ApplyRules` | mail_agent/classifier.py:379-392 | Rule decisions are final, and exactly the other messages are listed for the model. |
| `ClassifyMany.RunGroups` | mail_agent/classifier.py:394-418 | In any order of completion all groups get their outcome, or the run aborts if and only if some group runs out of budget. |
| `ClassifyMany.PlaceGroups` | mail_agent/classifier.py:420-424 | The join puts every group's results in the places of its messages. |
| `ClassifyMany.ClassifyAll` | mail_agent/classifier.py:361-437 | The result depends on messages, policy and model only, not on the order of completion; `fallback_messages` grows by the number of fallbacks; nothing is returned if and only if the budget runs out in some request; and every result is its message's own, as `EveryMessageGetsItsOwn` says. |
| `ClassifyMany.UnresolvedListed` | mail_agent/classifier.py:379-392 | Every message without a rule decision is listed. |
| `ClassifyMany.ItemsAreTheirMessages` | mail_agent/classifier.py:379-392 | What the partition looks at is what is known of each message: prompt size, weight and invitation. |
| `ClassifyMany.ResultsAreSound` | mail_agent/classifier.py:361-437 | Over all groups there is one own result for each listed message, from a request of this run, within the bound on group calls. |
| `ClassifyMany.GivenUpIff` | mail_agent/classifier.py:394-418 | A run gives up if and only if the budget runs out in one of its requests. |
| `ClassifyMany.EveryMessageGetsItsOwn` | mail_agent/classifier.py:361-437 | Result i is the decision of message i's rule, or what its rules make of its own entry in the reply to a request of this run, or its own fallback after its request failed, each spelled out by `ContextAdjusts` and `FallbackIsCautious`; under an explicit correction it is never spam. |
| `ModelRequest.RequestTimeouts` | mail_agent/classifier.py:318-336 | A request is granted if and only if 90 seconds remain after the margin and at least 60 are requested; the granted timeouts fit the remaining time, keep 60 seconds for the model, and are uncut where they fit. |
| `ModelRequest.RepeatRequest` | mail_agent/classifier.py:1072-1312 | The loop over the growing list of attempts makes exactly the specified attempts and ends with the last reply. |
| `ModelRequest.RequestJson` | mail_agent/classifier.py:1045-1312 | The same with the token limits as configured. |
| `ModelRequest.AttemptsAreBounded` | mail_agent/classifier.py:1045-1312 | At most three attempts, two without a larger token limit. |
| `ModelRequest.OnlyRetriableFailuresRepeat` | mail_agent/classifier.py:1045-1312 | Every attempt but the last was cut off or did not fit the schema; timeouts, an unreachable model and an answer end the request. |
| `ModelRequest.RetriesAre` | mail_agent/classifier.py:1072-1312 | An attempt after a cut answer asks for more tokens in the schema's format, one after an answer that does not fit the schema asks for plain JSON with the same tokens; each kind is retried once at most, and no retry that the last failure allows is left out. |
| `ModelRequest.FailuresMean` | mail_agent/classifier.py:1195-1312 | Every failure has its own end. |
| `CalendarApproval.ReplyDecision` | mail_agent/calendar.py:551-563 | The decision is that of the first line that is neither blank nor quoted, and there is none without such a line. |
| `CalendarNames.WordMeans` | mail_agent/calendar.py:558-563 | A line approves if and only if it is yes in either language in any capitals, rejects if and only if it is no, and decides nothing otherwise. |
| `CalendarApproval.Agent.CreateNormalized` | mail_agent/calendar.py:622-683 | The record checks, the create-only request and the record, with a crash after any effect. |
| `CalendarApproval.Agent.CreateApproved` | mail_agent/calendar.py:522-549 | The approval is marked before the creation and after it, with a crash after any effect. |
| `CalendarApproval.Agent.HandleApprovalReply` | mail_agent/calendar.py:452-549 | Every answer to a reply in the order of the checks, and its effects up to the crash. |
| `CalendarApproval.Agent.Process` | mail_agent/calendar.py:218-286 | A calendar mail: what is not confirmed or not trusted is stored as pending over whatever record there is, past events and approvals aside; the rest is created. |
| `CalendarApproval.Agent.ProcessCommand` | mail_agent/calendar.py:154-216 | A command mail for an event not in the past: a created or a known event is recorded as such over whatever record there is, a taken file is an error, and a failure, with or without effect, is not recorded. |
| `CalendarAnswers.AnswerIsTrue` | mail_agent/calendar.py:452-549 | Each answer to a reply is true of the reply and the approval, and the approval ends in the status that belongs to it. |
| `CalendarAnswers.SuccessIff` | mail_agent/calendar.py:452-549 | A reply is answered as created if and only if it is a timely yes whose event is on record already or gets there by a request that works. |
| `CalendarAnswers.CreationLeaves` | mail_agent/calendar.py:622-683 | A creation leaves nothing where a record stands in the way, a pending record where it is switched off, and otherwise an attempt recorded as created or failed by the server's answer, with the event in the calendar whenever the request took effect and its file was free. |
| `CalendarAnswers.MailLeaves` | mail_agent/calendar.py:218-286 | A mail leaves nothing when its event is past or waits for approval, one record beside or on the event's own when it is not certain, confirmed or trusted enough, and attempts a creation only otherwise. |
| `CalendarAnswers.BesideTheRecord` | mail_agent/calendar.py:245-250 | The record of an event that is not certain enough never stands in the place of the event's own. |
| `CalendarAnswers.OneRecordForAPrefix` | mail_agent/calendar.py:249 | Versions of one event have such records of their own as far as the first 16 characters of their fingerprints differ. |
| `CalendarAnswers.CommandLeaves` | mail_agent/calendar.py:154-216 | A command mail leaves its event on record as created exactly when the calendar action created it. |
| `CalendarRuns.CreateOnlyByTimelyYes` | mail_agent/calendar.py:452-549 | In every step an event is made through an approval only by the configured sender's yes before the expiry, to an approval neither created nor rejected, and it is the approved event. |
| `CalendarRuns.EveryEventHadItsYes` | mail_agent/calendar.py:452-549 | Over whole runs with crashes at any effect, each event made through an approval goes back to one step that was the configured sender's yes in time, to an open approval of just this event. |
| `CalendarRuns.RecordsAreKeptForever` | mail_agent/calendar.py:622-683 | Over whole runs without an overwriting step, fingerprint and created status of a recorded event never change. |
| `CalendarRuns.RecordIsKeptIff` | mail_agent/calendar.py:154-286 | For every step a recorded event keeps its fingerprint, and a created one its status, if and only if the step is no unchecked write over it: the pending record of a tentative or untrusted mail or the record of a command, with another fingerprint or over the created status. |
| `CalendarRuns.RecordIsKeptThroughoutIff` | mail_agent/storage.py:1367-1404 | Over whole runs a record is kept at every step if and only if no step is such an overwrite. |
| `CalendarRuns.TentativeMailReplacesRecord` | mail_agent/calendar.py:268-286 | An input: a tentative mail with the key of a created event replaces its fingerprint and its status. |
| `CalendarRuns.ClosedNeverCreates` | mail_agent/calendar.py:484-506 | Once an approval is rejected, created or past its expiry, no continuation makes an event through it. |
| `CalendarRuns.KeyFixesUid` | mail_agent/calendar.py:711-716 | Events with the same key have the same UID and the same file name. |
| `CalendarNames.FileNameMeans` | mail_agent/utils.py:254-256 | A file name holds the letters and digits of its UID in their order and only safe characters, up to 180; a UID that is such a name keeps it. |
| `CalendarNames.ActionNameMeans` | personal_assistant/connectors/nextcloud/calendar.py:137-139 | The same of the name that the calendar action gives; without any character to keep it is made of the text. |
| `CalendarRuns.OneEventPerKey` | mail_agent/calendar.py:832-860 | Over every run with crashes and failing requests on a create-only server, no file name is used twice, and of two events with one key at most one was made under the name of the agent's own request. |
| `CalendarRuns.OneEventWithoutCommands` | mail_agent/calendar.py:832-860 | Over every run without command mails an event key yields at most one event. |
| `CalendarRuns.CommandMakesAnother` | mail_agent/calendar.py:154-216 | A run in which a yes and then a command mail make two events with one key, whose two file names differ. |
| `CalendarRuns.CreatedWithoutEventIff` | mail_agent/calendar.py:832-860 | A timely yes handled to its end leaves its approval as created without the event in the calendar if and only if nothing stands in the way of the creation, the event is not there, and its record already says created or its file is taken. |
| `CalendarRuns.FileNameIsTaken` | mail_agent/calendar.py:838 | An input: with UID a-b in the calendar a yes to UID a@b ends as created, and nothing was made. |
| `CalendarRuns.ReplyMakesIff` | mail_agent/calendar.py:452-549 | A reply makes an event if and only if it is a timely yes whose creation reaches the server with effect while the event's file is free, and its approval then ends as created if and only if the server answers and the process lives on to record it. |
| `CalendarRuns.MarkedIff` | mail_agent/calendar.py:452-549 | From a state in which every approval with an event is marked as created, a step keeps it so if and only if it is not a yes that makes its event and fails to record it. |
| `CalendarRuns.MarkedThroughoutIff` | mail_agent/calendar.py:452-549 | The same for every state of a whole run. |
| `CalendarRuns.UninterruptedIsConsistent` | mail_agent/calendar.py:452-549 | As long as replies are handled to their end by a server that does not fail after taking effect, every approval through which an event was made is marked as created. |
| `CalendarRuns.RejectedAlthoughCreated` | mail_agent/calendar.py:452-549 | The run in which an interrupted yes and a later no leave a rejected approval with its event in the calendar. |
| `CalendarRuns.RejectedAfterTimeout` | mail_agent/calendar.py:452-549 | The run without any crash in which a request takes effect but times out, and a later no leaves a rejected approval with its event. |
| `InvoiceMoney.AmountToCents` | mail_agent/invoice_extract.py:416-462 | Whatever is parsed, a result in cents has at most 28 digits. |
| `InvoiceMoney.RenderingRoundTrip` | mail_agent/invoice_extract.py:416-462 | Every cent amount of at most 28 digits, in German, English, apostrophe, blank or ungrouped style, with a leading sign or parentheses, is read back as that amount, and larger ones overflow. |
| `MoneyWhole.WholeAmountIsRead` | mail_agent/invoice_extract.py:416-462 | An amount without cents, with or without thousands in any of the groupings, is read as that many whole units: a single separator before three digits is none of decimals. |
| `MoneyWhole.NoDigitNoAmount` | mail_agent/invoice_extract.py:416-462 | Text without any digit is no amount. |
| `InvoiceMoney.AmountFromCentsRoundTrip` | mail_agent/invoice_reprocess.py:224-233 | The preview's printer is undone by the parser for exactly these amounts. |
| `InvoiceMoney.FormatAmountRoundTrip` | mail_agent/invoice_extract.py:465-468 | The extractor's printer is undone if and only if the amount has at most 28 digits, since above it rounds. |
| `InvoiceFusion.UsableTextIsNeverOverwritten` | mail_agent/invoice_extract.py:1577-1631 | A usable text value is kept, or cleared because OCR credibly contradicts it; a non-empty value comes from a source; the fused value is usable if and only if a source was and there is no credible disagreement. |
| `InvoiceFusion.FuseFields` | mail_agent/invoice_extract.py:1600-1631 | The loop fuses every field of the fusion order and notes exactly the credible disagreements. |
| `InvoiceFusion.ExtendReasons` | mail_agent/invoice_extract.py:1661-1682 | Reasons are taken over in order, without repeating any. |
| `InvoiceFusion.Choose` | mail_agent/invoice_extract.py:1589-1683 | With OCR the record is the fusion of both sources, field by field with every reason and conflict, without it the text result. |
| `InvoiceFusion.FusedFields` | mail_agent/invoice_extract.py:1589-1683 | For every field of a fused record: kept, or cleared with its reason on record; never from elsewhere. |
| `FusionMeaning.OutcomeIsTrue` | mail_agent/invoice_extract.py:1589-1631 | The outcome noted for a field is true of the two values and of the one that is kept. |
| `FusionMeaning.CredibleBelowUsable` | mail_agent/invoice_extract.py:1577-1586 | A usable value can always contradict; one that is not usable can only for the date and the gross amount, from 0.75 on. |
| `FusionMeaning.ReasonsInOrder` | mail_agent/invoice_extract.py:1661-1682 | The text result's reasons stay in front, the other source's and the conflicts follow, each once. |
| `InvoiceFusion.ConfirmedIff` | mail_agent/invoice_extract.py:1185-1222 | A fused record is confirmed if and only if neither source had a review reason, no field had a credible disagreement, and the four critical fields are good. |
| `FusionMeaning.CriticalMeans` | mail_agent/invoice_extract.py:1208-1220 | The critical fields are good exactly when each reaches its threshold and the date has a value. |
| `FusionMeaning.WeightedBetween` | mail_agent/invoice_extract.py:1193-1202 | The confidence of a record lies between those of its critical fields. |
| `InvoiceFusion.Extract` | mail_agent/invoice_extract.py:1763-1807 | When extraction as a whole is confirmed, and with OCR read it is confirmed only without reasons. |
| `InvoiceFusion.ConfirmedWithReasonIff` | mail_agent/invoice_extract.py:1763-1807 | The outcome of an extraction is confirmed and carries a review reason if and only if the text result is confirmed with enough confidence, its supplier is known only from the sender, and OCR is off or failed. |
| `InvoiceFusion.ConfirmedWithReason` | mail_agent/invoice_extract.py:1794-1807 | An input whose extraction is confirmed and carries the reason that OCR is off. |
| `FusionMeaning.TriggersMean` | mail_agent/invoice_extract.py:1563-1574 | OCR is asked for exactly the critical fields that are missing, uncertain or known from the sender only, and for the gross amount when an amount needs review. |
| `FusionMeaning.MissingOcrIsAReason` | mail_agent/invoice_extract.py:1768-1803 | Where OCR is wanted but off or failed, that becomes one more reason after those there are; otherwise the text result keeps its reasons. |
| `FusionMeaning.OtherThresholds` | mail_agent/invoice_extract.py:1293-1302 | The thresholds of net, tax, currency and due date lie below those of the critical amounts. |
| `FusionMeaning.WeightedMoves` | mail_agent/invoice_extract.py:1193-1202 | Date and gross amount count for three tenths each in the confidence of a record, number and supplier for two, others not at all. |
| `AmountSelection.SelectAmountRole` | mail_agent/invoice_extract.py:766-805 | The first role that any candidate has decides: agreeing candidates give their first one, disagreeing ones a conflict, and the array is marked accordingly in place. |
| `AmountSelection.Survey` | mail_agent/invoice_extract.py:778-782 | The first candidate of a role, and whether all of that role agree in value and currency. |
| `AmountSelection.MarkAll` | mail_agent/invoice_extract.py:783-795 | The marks of one decision, in place. |
| `AmountSelection.AgreesWithFirst` | mail_agent/invoice_extract.py:781-782 | All candidates of a role agree if and only if they agree with the first one. |
| `AmountSelection.OneIsLeft` | mail_agent/invoice_extract.py:766-805 | After a selection only the chosen candidate is left for the field, without candidates none, after a conflict none of the conflicting role; other fields and earlier exclusions are untouched. |
| `AmountSelection.SelectOcrPages` | mail_agent/invoice_extract.py:1343-1352 | The pages for OCR are as many as document and budget allow: the first ones in a row and, with two or more, the last page. |
| `AmountExtraction.CandidateIsWellformed` | mail_agent/invoice_extract.py:673-708 | A candidate made from parsed text is readable as the same amount, belongs to the field of its role unless excluded, and as an open credit is negative. |
| `AmountExtraction.MarkSubtotals` | mail_agent/invoice_extract.py:823-848 | Every open subtotal is marked with the verdict, in place, and nothing else is. |
| `AmountExtraction.SelectValidatedSubtotal` | mail_agent/invoice_extract.py:808-853 | A subtotal is accepted only with gross and tax at hand, without rivals, in one currency and adding up to two cents; each other outcome has its verdict. |
| `AmountSelection.OffersDecide` | mail_agent/invoice_extract.py:772-803 | Two lists whose open candidates for a field say the same give the same selection: the same amount in the same currency under the same label, a conflict, or nothing. |
| `AmountSelection.SamePick` | mail_agent/invoice_extract.py:772-803 | Lists that agree on the open candidates of a field, place by place, give the same place and the same marks, whatever else they hold. |
| `AmountExtraction.SelectTotals` | mail_agent/invoice_extract.py:864-881 | The three selections, each on what the ones before left, are those on the list at the start, and every field ends marked by its own selection alone. |
| `AmountExtraction.SameJudgement` | mail_agent/invoice_extract.py:884-896 | The subtotals are judged as on the list at the start. |
| `AmountExtraction.ResolveNet` | mail_agent/invoice_extract.py:883-896 | With a net total the subtotals rank below it, otherwise one may stand in. |
| `AmountExtraction.SubtotalEnds` | mail_agent/invoice_extract.py:883-896 | At the end a subtotal is open if and only if it is the one that stands in for the net amount. |
| `AmountExtraction.PickAmounts` | mail_agent/invoice_extract.py:864-896 | All picks by the rules of the single selections on the original list, and every mark on the shared list. |
| `AmountExtraction.OnlyMarks` | mail_agent/invoice_extract.py:864-896 | What a candidate says and a reason that came with it never change. |
| `AmountExtraction.AllSettled` | mail_agent/invoice_extract.py:864-896 | At the end net and tax have exactly the chosen candidate left, and so has gross without a conflict. |
| `AmountExtraction.MarksChangeNoFinding` | mail_agent/invoice_extract.py:898-946 | Marking changes no amount, no currency and nothing that gives a reason. |
| `AmountExtraction.CurrencyIsOne` | mail_agent/invoice_extract.py:903-922 | The currency is clear if and only if all selected amounts name the same one, or none was selected and the document names at most one. |
| `AmountExtraction.ExtractAmounts` | mail_agent/invoice_extract.py:856-971 | The whole extraction on the shared list: picks, currency and exactly the reasons there are, all stated on the candidates as they were before any mark. |
| `AmountExtraction.AcceptedSubtotalAddsUp` | mail_agent/invoice_extract.py:833-853 | An accepted subtotal never causes an arithmetic mismatch. |
| `AmountExtraction.NoReasonIff` | mail_agent/invoice_extract.py:856-971 | There is no review reason if and only if no selection met a conflict, no subtotal was rejected, no sign or currency was ambiguous, the selected amounts name one currency, and gross, net and tax fit in size, sign and sum. |
| `AmountMeaning.TotalsMean` | mail_agent/invoice_extract.py:766-881 | The amount due outranks the gross total, which outranks a credit: the first of the foremost candidates when they agree, a conflict when two do not, nothing when there is none. |
| `AmountMeaning.MarksMean` | mail_agent/invoice_extract.py:766-805 | After a choice the equals of the chosen candidate are marked as repetitions and the others of its field as ranking below it, after a conflict the rivals as such; all others stay as they are. |
| `AmountMeaning.JudgementMeans` | mail_agent/invoice_extract.py:808-853 | A subtotal is taken exactly when gross and tax were found, all subtotals say the same, and it is consistent with them; each other verdict says what is missing. |
| `AmountMeaning.CurrencyMeans` | mail_agent/invoice_extract.py:903-922 | The currency is that of the selected amounts when they name one, else that of the document, else the default; and it conflicts exactly when two are named. |
| `AmountMeaning.ReasonsMean` | mail_agent/invoice_extract.py:898-946 | Each review reason is given exactly for what it says of the selections and of the extracted amounts: a tax of more than gross and two cents, gross and another amount on different sides of zero, a sum that is off by more than two cents, and so on. |
| `AmountMeaning.CandidateMeans` | mail_agent/invoice_extract.py:673-708 | A candidate says the amount that was read for the field of its label, and is excluded exactly for two different signs, a label of no total, or a credit that is not negative. |
| `AmountMeaning.CandidateCurrency` | mail_agent/invoice_extract.py:685-688 | The currency of a candidate is named by the sign next to the amount, or else by the document; by none when two signs clash. |
| `AmountMeaning.ConfidencesMean` | mail_agent/invoice_extract.py:694-708 | The amount due is the surest, a subtotal the least sure of those that count; the next line costs 0.08, and what is no total is worth nothing. |
| `AmountOrder.ContentDecides` | mail_agent/invoice_extract.py:856-971 | Two documents whose candidates say the same, in whatever order, however often and with whatever confidence, give the same amounts, currency and review reasons. |
| `AmountOrder.ReorderingChangesNothing` | mail_agent/invoice_extract.py:856-971 | The order of the candidates changes no amount, no currency and no review reason. |
| `AmountOrder.SelectedIsUsable` | mail_agent/invoice_extract.py:1577-1582 | A selected gross, net or tax amount always reaches the threshold of its field, so it counts as usable in the fusion. |
| `AmountOrder.ConfidenceMovesByTheLine` | mail_agent/invoice_extract.py:694-708 | The confidence of the gross amount of two such documents differs by nothing or by what the next line costs. |
| `AmountOrder.OrderMovesConfidence` | mail_agent/invoice_extract.py:788-803 | An input whose two orders give the selected amount different confidences. |
| `AmountLines.AmountCandidates` | mail_agent/invoice_extract.py:711-763 | The loop over the lines: percentages at tax labels, the amounts on a labelled line, and those of the next line where the label has none and that line no label. |
| `AmountLines.GivenIff` | mail_agent/invoice_extract.py:711-763 | The candidates of a document are exactly: percentages next to a label of tax, the readable amounts on labelled lines, and those of an unlabelled line after a label that has none of its own. |
| `AmountLines.IndependentIff` | mail_agent/invoice_extract.py:736-748 | A block of lines gives the same candidates whatever follows it if and only if its last line does not look for its amount on the next line. |
| `AmountLines.BlocksMayMove` | mail_agent/invoice_extract.py:736-763 | Blocks that end so give the same amounts, currency and review reasons in any order. |
| `AmountLines.LinesThatMayNotSwap` | mail_agent/invoice_extract.py:742-748 | An input of three lines: a label, a labelled amount and an amount give one candidate, with the first two swapped two. |
| `AmountLines.SwapMakesGross` | mail_agent/invoice_extract.py:766-805 | The first order has no gross amount, the second one has. |
| `AmountLines.LinesAreSettled` | mail_agent/invoice_extract.py:673-896 | Whatever the lines are, every candidate from them is well-formed and the selections leave the fields settled. |
| `Drain.Agent.ClassifyAndRoute` | mail_agent/app.py:882-899 | Classification aborts before any waiting message is acted on; otherwise they are routed and counted one after the other, until all are or routing one of them raises. |
| `DrainBounds.GroupMoves` | mail_agent/app.py:882-899 | A group acts on at most its messages, and all but one that an exception interrupts are counted. |
| `DrainBounds.ExamineMoves` | mail_agent/app.py:901-1030 | Loading and examining one message acts on it at most once; it is lost to the counters only with an error, and never in a dry run or without the scanner. |
| `Drain.Agent.ProcessFolder` | mail_agent/app.py:634-763 | The loop over a folder with its groups waiting for classification comes to the specified counters; one listing, with the given limit. |
| `DrainBounds.FolderBound` | mail_agent/app.py:634-763 | In a folder every listed message is acted on at most once: at most the limit, counted or lost. |
| `DrainCounts.FolderHandles` | mail_agent/app.py:634-763 | A folder that is not aborted counts, skips, loses or reports every listed message exactly once, and counts every waiting one. |
| `DrainEnds.FolderAborts` | mail_agent/app.py:634-763 | A folder is aborted only at a message that is the cause of just this end: a budget that runs out, or an exception that escapes. |
| `DrainEnds.GroupEnds` | mail_agent/app.py:882-899 | A group is aborted if and only if its classification runs out of budget or routing one of its messages fails. |
| `DrainEnds.FolderReports` | mail_agent/app.py:634-763 | A folder that is not aborted reports the errors of all its messages, and at most one more for each message that is routed. |
| `Drain.Agent.ProcessFeedback` | mail_agent/app.py:548-632 | The loop over the feedback folders, each listed with what the counter leaves; no listing is unlimited. |
| `DrainBounds.FeedbackMoves` | mail_agent/app.py:548-632 | Over all feedback folders at most the limit is counted, no more is acted on but for the losses, and in all at most the limit for each folder. |
| `DrainCounts.FeedbackFolderHandles` | mail_agent/app.py:548-632 | A feedback folder handles its messages exactly once each, all of them or up to the limit. |
| `DrainEnds.FeedbackEnds` | mail_agent/app.py:573-632 | A message of a feedback folder aborts it if and only if restoring or classifying it runs out of budget, or an exception escapes from it or from its routing. |
| `Drain.Agent.ProcessQuarantines` | mail_agent/app.py:304-316 | The quarantine folders under their common budget, from which only what was counted is taken. |
| `DrainBounds.QuarantineMoves` | mail_agent/app.py:304-316 | They count at most the budget and act on no more but for the losses. |
| `Drain.Agent.ProcessBatch` | mail_agent/app.py:297-320 | One batch comes to the specified counters, aborted or not. |
| `DrainBounds.BatchBound` | mail_agent/app.py:297-320 | A batch counts at most its limit, acts on no more but for what it loses, and in all on at most the worst case. |
| `DrainBounds.WorstIsReached` | mail_agent/app.py:297-320 | That worst case is reached: a batch that loses the whole limit in every feedback folder, or the whole quarantine budget in every quarantine folder before the inbox. |
| `DrainCounts.BatchHandles` | mail_agent/app.py:297-320 | A batch that is not aborted handles every message of its lists once; without errors these are the lists of all feedback folders, of the quarantine folders and of the inbox up to what is left of the limit. |
| `DrainCounts.FlawlessIsComplete` | mail_agent/app.py:297-320 | Where nothing goes wrong a batch is not aborted, reports no error, and so handles all its lists. |
| `DrainCounts.NewMailIsCounted` | mail_agent/app.py:634-763 | New mail in the inbox is counted, all of it, in whatever groups it is classified. |
| `DrainCounts.QuarantineShare` | mail_agent/app.py:302-308 | The quarantine folders get at least one message where there is one to give, at most what is configured, and otherwise a fifth of what is left. |
| `Drain.Agent.Run` | mail_agent/app.py:407-519 | A drain comes to the specified counters, batches and stop reason, and never lists without a limit. |
| `DrainBounds.ActedIsBoundedUpToLosses` | mail_agent/app.py:407-519 | In every environment a drain counts at most its message limit and acts on at most that many plus the lost ones; losses come only in the last batch, with an error, and never in a dry run or without the scanner. |
| `DrainCounts.DrainCountsEverything` | mail_agent/app.py:407-519 | The counters of a drain are the sums over its completed batches, in each of which every message of its lists was handled once. |
| `DrainCounts.DecisionIsTrue` | mail_agent/app.py:468-519 | A drain goes on exactly after a batch without errors that made progress while something may be left, and each reason to stop is true of the batch. |
| `DrainCounts.StopIsTrue` | mail_agent/app.py:448-527 | The reason for which a drain stops is true: a limit used up, time up, or what was decided after its last batch. |
| `DrainCounts.NormalisedKeeps` | mail_agent/app.py:422-428 | Arguments that are in order are taken as they are. |
| `DrainBounds.BoundedIff` | mail_agent/app.py:407-519 | The message limit bounds what is acted on in every environment if and only if nothing can be lost or the rounds are too few for the worst batch to pass the limit. |
| `DrainBounds.FourMovedUnderALimitOfOne` | mail_agent/app.py:548-570 | An input: with one infected message in each of the four feedback folders and failing records, a limit of one message moves four and counts none. |
| `LearningQuality.PredictorMetrics.Observe` | mail_agent/learning_quality.py:44-61 | The counters remain those of all observations so far. |
| `LearningQuality.PredictorMetrics.FalsePositives` | mail_agent/learning_quality.py:74-78 | The column of a category without its own entry is how often another one was predicted as it. |
| `LearningQuality.PredictorMetrics.FalseNegatives` | mail_agent/learning_quality.py:79-83 | The row of a category without its own entry is how often it was predicted as another one. |
| `LearningQuality.PredictorMetrics.Totals` | mail_agent/learning_quality.py:63-126 | samples = correct + wrong + abstentions, and total false positives = total false negatives = wrong. |
| `LearningQuality.MatrixCounts` | mail_agent/learning_quality.py:44-61 | An entry of the confusion matrix is how often that pair was observed. |
| `LearningQuality.EveryObservationCounts` | mail_agent/learning_quality.py:44-61 | Every observation is counted once as correct, wrong or abstained. |
| `LearningQuality.FalsePositivesAreFalseNegatives` | mail_agent/learning_quality.py:63-126 | Summed over the categories both are the wrong predictions. |
| `LearningQuality.RisksAreEntries` | mail_agent/learning_quality.py:54-61 | The two risk counters are entries of the confusion matrix: relevant mail predicted as spam or routine, and spam predicted as relevant. |
| `LearningQuality.Split` | mail_agent/learning_quality.py:216-234 | Each side keeps exactly its rows outside the overlap, in order, and train plus evaluation plus purged is eligible. |
| `LearningQuality.NoLeak` | mail_agent/learning_quality.py:217-234 | No training row and no evaluation row share a non-empty sender or thread. |
| `LearningQuality.TrainedBeforeEvaluated` | mail_agent/learning_quality.py:203-218 | On sorted rows every training row comes before every evaluation row. |
| `LearningQuality.CleanKeepsOrder` | mail_agent/learning_quality.py:226-231 | Purging keeps the order. |
| `LearningQuality.Evaluate` | mail_agent/learning_quality.py:235-264 | The sender and pattern predictors abstain on every row of the purged evaluation side. |
| `LearningPredictors.SenderPredicts` | mail_agent/learning_quality.py:331-336 | A sender's mail is predicted if and only if at least two earlier corrections of it exist and all have that verdict. |
| `LearningPredictors.PatternPredicts` | mail_agent/learning_quality.py:338-345 | A sender's pattern is predicted if and only if all its earlier corrections have that verdict and there are two, or one that says relevant. |
| `LearningQuality.Holdout` | mail_agent/learning_quality.py:194-281 | The holdout conserves rows, shares no sender or thread, trains only on rows before those it evaluates when the rows are sorted, and measures every evaluation row. |
| `EnvFile.DecodeEncode` | mail_agent/envfile.py:18-73 | Parsing one printed value returns it if and only if it holds no backslash directly followed by n, r or t. |
| `EnvFile.UnescapeLeavesNoLookalike` | mail_agent/envfile.py:23-29 | What stands between double quotes never holds such a pair once it is unescaped, whatever it was. |
| `EnvFile.QuotedIsRead` | mail_agent/envfile.py:18-31 | Text in single quotes is read as it stands, lookalikes included; text in double quotes is unescaped. |
| `EnvFile.ReadableIff` | mail_agent/envfile.py:18-31 | Some text on one line is read as a value if and only if the value has no line break, or only newlines and carriage returns and no lookalike. |
| `EnvLines.Environment.LoadEnvFile` | mail_agent/envfile.py:34-64 | The loop of the loader over the lines of the text: the assignments in order, with and without overriding, up to the first line that is none. |
| `EnvLines.UpdateEnvFile` | mail_agent/envfile.py:76-122 | The lines of the written variables are rewritten where they stand, the others kept, missing ones added, and an invalid name stops it. |
| `EnvLayout.OutputMeans` | mail_agent/envfile.py:90-122 | Every line stays in its place, a line of a written variable as that variable's own and every other one as it is; exactly the variables without a line are added, one line each in their order, after a blank line and the heading of a new file. |
| `EnvLayout.PrintedMeans` | mail_agent/envfile.py:66-73 | A value of plain characters is printed as it stands, any other one between double quotes without a newline. |
| `EnvLayout.BreaksAre` | mail_agent/envfile.py:47 | The characters at which the text of a file is cut into lines. |
| `EnvText.FileContent` | mail_agent/envfile.py:44-47 | What is joined by newlines and trimmed at the end is read back as the lines that each of its parts gives. |
| `EnvEntries.SafeEntryGives` | mail_agent/envfile.py:48-62 | The line of a value without line breaks but the newline binds its name to what the parser reads, and does nothing else. |
| `EnvEntries.BrokenEntryGives` | mail_agent/envfile.py:48-62 | The line of a value with another line break binds its name, but nothing that any part of it binds is that value. |
| `EnvRoundTrip.LineFits` | mail_agent/envfile.py:94-104 | The writer takes a line for one of its variables exactly when the loader would bind that variable by it. |
| `EnvRoundTrip.WrittenIsLoadedIff` | mail_agent/envfile.py:34-122 | Variables that are written and then loaded come back if and only if the file could be loaded before and every value survives: no lookalike and no line break but the newline. |
| `EnvRoundTrip.OthersAreKept` | mail_agent/envfile.py:76-122 | Writing values that survive leaves every other variable as it is loaded. |
| `EnvRoundTrip.EnvironmentWins` | mail_agent/envfile.py:60-61 | Without overriding a variable of the environment keeps its value whatever the file says. |
| `EnvRoundTrip.CarriageReturnStopsTheLoader` | mail_agent/envfile.py:66-73 | An input: a, a carriage return and b are read as half a value and a line that raises. |
| `EnvRoundTrip.CarriageReturnBindsAnother` | mail_agent/envfile.py:66-73 | What follows a carriage return in a value can bind another variable. |

## Left out

- ReprocessApply.SafeProposal: states what it guarantees when it accepts, `AcceptedCarries` what is then written, and `AcceptedIff` when it does; `RefusalMeans` says that each refusal is true, and which of several comes first is in its body. Date syntax and the digests of metadata and proposal are inputs, and case folding covers what currency codes need.
- ApplyProtocol.RewrittenAtMostOnce: bounds the rewrites by one plus the foreign edits that make the row eligible again, because the protocol does not forbid such edits.
- ApplyProtocol.UndriftedOperationCanComplete: shows that a retry can complete when PDF, extractor and registers cooperate; that they do is not modelled. Reading, hashing and scanning the PDF, and every exception outside the three transactions, are a run that ends at an arbitrary point.
- SearchProjection.PublishRoot: lists that the manifest sorts are sets here, and excluded folders, tombstones, timestamps and the republishing of older projections are not modelled.
- BackfillRun.Backfill.Run: a mailbox that changes between resumes is outside the model, as the fingerprint does not cover the UID list; peak sizes, backend call counts and the throttle's clock arithmetic are modelled as faults or not at all; the choice of folders and the content of the fingerprint are inputs.
- BackfillResults.EveryUidOnce: takes the native inventory's snapshot of the folder as the page source and holds for it; a snapshot renewed between invocations is a changing mailbox.
- ImapInventory.SnapshotIsExact: assumes that the answers announce the numbers of their moment; a missing field ends the original with an index error, which is the error NoWord here, and digits outside ASCII are not modelled.
- ModifiedUtf7.ListedNameIsRecognised: takes the name token as given; the regular expression that splits a LIST response is not modelled.
- Utf7Tokens.ParserReadsBits: speaks of tokens in the alphabet of RFC 3501 and of the slash that the comma stands for; characters outside it, which the original's base64 decoder skips, are only in `ModifiedUtf7.DecodeModifiedUtf7`.
- ClassifyMany.ClassifyAll: prompts, schemas, feedback notes, telemetry other than `fallback_messages`, and the wording of fallback reasons are not modelled; classification fields other than category, confidence, importance, forwarding, event and source are one opaque text.
- ModelRequest.RequestJson: HTTP, response parsing and the recorded timings are the reply of an attempt.
- CalendarRuns.OneEventPerKey: no longer promises distinct keys when command mails take part, because agent and calendar action name their files differently (`CommandMakesAnother`); both are taken to write to one calendar, and a server that refuses a UID it has under another name is one whose request fails.
- CalendarApproval.Agent.CreateNormalized: the create-only CalDAV request; the command and khal backends, the Nextcloud client, dry runs, the extraction of events from mails, the checks on a command's sender and what mails are sent are not modelled.
- InvoiceMoney.RenderingRoundTrip: starts after currency words and signs have been removed by the regular expression.
- InvoiceFusion.ConfirmedIff: issue texts, candidates and the rounding of the weighted confidence to four places are not modelled, and that gross equals net plus tax is not rechecked by fusion.
- BackfillResults.CompleteReportMeans: speaks of the native inventory's pages, like `EveryUidOnce`, and of the scanner and decoder that come with the assistant; for others `IndexedIsChecked` gives the condition.
- AmountExtraction.ExtractAmounts: which label and which money tokens a line holds is an input, as is the currency that the text names; the order of review reasons and their German issue texts are not modelled, nor are evidence texts.
- Drain.Agent.Run: messages acted on are counted, not identified; at-most-once forwarding, preflight, the update of the search index and the digest are not modelled.
- LearningQuality.Holdout: takes the sorted rows and the rounded 70 percent as inputs; the rule, model and combined predictors read stored snapshots and are not modelled.
- EnvLines.UpdateEnvFile: the two comment lines that head a new file are a parameter; backups, file modes and the UTF-8 encoding are not modelled.
- Proposal classification of the preview, supplier, date and category recognition, OCR tools, CSV registers, health reports, command line and setup: they only add easy or heuristic members.
