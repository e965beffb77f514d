/** When a backfill reports complete: exactly when every message of every page could be indexed under stable
    UIDs.  And a backfill that nothing disturbs gets there. */
module BackfillComplete {
  import opened Common
  import opened SearchProjection
  import opened BackfillWalk
  import opened SearchBackfill
  import opened BackfillRun
  import opened BackfillResults

  // ----- one message -----

  /** Nothing stands against indexing the message. */
  ghost predicate InOrder(src: Source, limits: Limits, f: Folder, e: Envelope) {
    var raw := src.raw(f, e);
    && |raw| <= limits.maxMessageBytes && src.scan(raw).clean && src.parse(raw, e).Some?
    && (Unnamed(src, raw) || (src.attachments(raw).Ok? && AllClean(src, src.attachments(raw).value)))
  }

  lemma IndexedIff(src: Source, limits: Limits, f: Folder, e: Envelope)
    ensures FateOf(src, limits, f, e).Indexed? <==> InOrder(src, limits, f, e)
  {
    FailureIff(src, src.raw(f, e));
  }

  /** The record of a message is its own: content, place, and the UID where UIDs are stable. */
  ghost predicate OwnRecord(src: Source, f: Folder, e: Envelope, o: Occurrence) {
    && o.raw == src.raw(f, e) && src.parse(o.raw, e) == Some(o.content)
    && o.locator.folderId == f.id && o.locator.mailboxId == e.mailboxId
    && (o.locator.quarantine <==> src.quarantined(f.name))
    && (if src.uidCapable && f.uidvalidity != "" && e.uid != ""
        then o.locator.uidvalidity == f.uidvalidity && o.locator.uid == e.uid
        else o.locator.uidvalidity == "" && o.locator.uid == "")
  }

  /** The reason for which a message is held is true of it. */
  ghost predicate HeldRightly(src: Source, limits: Limits, f: Folder, e: Envelope, b: Blocked) {
    && b.mailboxId == e.mailboxId && b.raw == src.raw(f, e)
    && match b.reason
       case TooLarge => |b.raw| > limits.maxMessageBytes
       case RawScan(status) => !src.scan(b.raw).clean && src.scan(b.raw).status == status
       case Attachment(status) => AttachmentsFail(src, b.raw, status)
       case ParseError => src.parse(b.raw, e).None?
  }

  ghost predicate AttachmentsFail(src: Source, raw: Raw, status: string) {
    match src.attachments(raw)
    case Err(kind) => kind == status
    case Ok(parts) => FailsWith(src, parts, status)
  }

  ghost predicate FailsWith(src: Source, parts: seq<Raw>, status: string) {
    exists i :: 0 <= i < |parts| && !src.scan(parts[i]).clean && src.scan(parts[i]).status == status
                && AllClean(src, parts[..i])
  }

  lemma FateIsOwn(src: Source, limits: Limits, f: Folder, e: Envelope)
    ensures match FateOf(src, limits, f, e)
            case Indexed(o) => OwnRecord(src, f, e, o)
            case Held(b) => HeldRightly(src, limits, f, e, b)
  {
    var raw := src.raw(f, e);
    if src.attachments(raw).Ok? {
      UncleanIsReported(src, src.attachments(raw).value);
    }
  }

  // ----- one page -----

  lemma {:induction false} NothingHeldIff(src: Source, limits: Limits, f: Folder, items: seq<Envelope>)
    ensures ScanAll(src, limits, f, items).blocked == []
            <==> forall k | 0 <= k < |items| :: InOrder(src, limits, f, items[k])
  {
    if items != [] {
      var front, last := items[..|items| - 1], items[|items| - 1];
      NothingHeldIff(src, limits, f, front);
      IndexedIff(src, limits, f, last);
      assert forall k | 0 <= k < |front| :: front[k] == items[k];
    }
  }

  /** Every message of the page can be indexed under a stable UID. */
  ghost predicate PageInOrder(src: Source, limits: Limits, f: Folder, items: seq<Envelope>) {
    && src.uidCapable && f.uidvalidity != ""
    && forall k | 0 <= k < |items| :: items[k].uid != "" && InOrder(src, limits, f, items[k])
  }

  /** A published page is covered if and only if the connector proves UIDs, the folder has a UIDVALIDITY,
      every envelope has a UID, and every message is within the size limit, clean and parsed. */
  lemma CoveredIff(src: Source, limits: Limits, startedAt: string, f: Folder, n: nat)
    requires PageOf(src, limits, startedAt, f, n).Ok?
    ensures Covered(PageOf(src, limits, startedAt, f, n).value.ref)
            <==> PageInOrder(src, limits, f, src.page(f, n).items)
  {
    NothingHeldIff(src, limits, f, src.page(f, n).items);
  }

  function TotalSize(src: Source, f: Folder, items: seq<Envelope>): nat {
    if items == [] then 0 else |src.raw(f, items[0])| + TotalSize(src, f, items[1..])
  }

  lemma {:induction false} SizeOfFront(src: Source, f: Folder, items: seq<Envelope>)
    requires items != []
    ensures TotalSize(src, f, items)
            == TotalSize(src, f, items[..|items| - 1]) + |src.raw(f, items[|items| - 1])|
  {
    if |items| > 1 {
      SizeOfFront(src, f, items[1..]);
      assert items[1..][..|items| - 2] == items[..|items| - 1][1..];
    }
  }

  lemma {:induction false} ScannedBytes(src: Source, limits: Limits, f: Folder, items: seq<Envelope>)
    ensures ScanAll(src, limits, f, items).bytes == TotalSize(src, f, items)
  {
    if items != [] {
      ScannedBytes(src, limits, f, items[..|items| - 1]);
      SizeOfFront(src, f, items);
    }
  }

  /** What is counted for a page: all its messages and their bytes, held or not. */
  lemma PageCounts(src: Source, limits: Limits, startedAt: string, f: Folder, n: nat)
    requires PageOf(src, limits, startedAt, f, n).Ok?
    ensures var page, p := src.page(f, n), PageOf(src, limits, startedAt, f, n).value;
            && p.messages == |page.items| == |p.ref.records| + |p.blocked|
            && p.bytes == TotalSize(src, f, page.items) && p.hasMore == page.hasMore
            && p.ref.generatedAt == startedAt && p.ref.folderName == f.name && p.ref.folderId == Strip(f.id)
  {
    ScannedBytes(src, limits, f, src.page(f, n).items);
  }

  // ----- one folder -----

  ghost predicate FolderInOrder(src: Source, limits: Limits, f: Folder, pages: int) {
    forall j: nat {:trigger src.page(f, j)} | 1 <= j <= pages :: PageInOrder(src, limits, f, src.page(f, j).items)
  }

  /** These are all pages of the folder. */
  ghost predicate WholeFolder(src: Source, f: Folder, pages: int) {
    && pages >= 1 && !src.page(f, pages).hasMore
    && forall j: nat {:trigger src.page(f, j)} | 1 <= j < pages :: src.page(f, j).hasMore
  }

  lemma RefOfPage(src: Source, limits: Limits, startedAt: string, f: Folder, state: FolderState, j: nat)
    requires OnWalk(JobOf(src, limits, startedAt), f, state) && 1 <= j < state.nextPage
    ensures |state.partitions| == state.nextPage - 1
    ensures PageOf(src, limits, startedAt, f, j).Ok?
    ensures PageOf(src, limits, startedAt, f, j).value.ref == state.partitions[j - 1]
    ensures PageOf(src, limits, startedAt, f, j).value.hasMore == src.page(f, j).hasMore
    ensures j < state.nextPage - 1 ==> src.page(f, j).hasMore
    ensures j == state.nextPage - 1 ==> (state.done <==> !src.page(f, j).hasMore)
  {
    var w := JobOf(src, limits, startedAt);
    FolderPages(w, f, state.nextPage - 1);
    assert w.page(f, j).Ok? && w.page(f, j).value.ref == state.partitions[j - 1];
  }

  lemma FolderCoveredIff(src: Source, limits: Limits, startedAt: string, f: Folder, state: FolderState)
    requires OnWalk(JobOf(src, limits, startedAt), f, state)
    ensures AllCovered(state.partitions) <==> FolderInOrder(src, limits, f, state.nextPage - 1)
    ensures state.done ==> WholeFolder(src, f, state.nextPage - 1)
  {
    FolderPages(JobOf(src, limits, startedAt), f, state.nextPage - 1);
    forall j: nat | 1 <= j < state.nextPage
      ensures Covered(state.partitions[j - 1]) <==> PageInOrder(src, limits, f, src.page(f, j).items)
      ensures j < state.nextPage - 1 ==> src.page(f, j).hasMore
      ensures j == state.nextPage - 1 && state.done ==> !src.page(f, j).hasMore
    {
      RefOfPage(src, limits, startedAt, f, state, j);
      CoveredIff(src, limits, startedAt, f, j);
    }
    if FolderInOrder(src, limits, f, state.nextPage - 1) {
      forall i | 0 <= i < |state.partitions| ensures Covered(state.partitions[i]) {
        assert PageInOrder(src, limits, f, src.page(f, i + 1).items);
      }
    }
  }

  // ----- what is held -----

  /** The messages that cannot be indexed, in their order, each with its reason. */
  function HeldOf(src: Source, limits: Limits, f: Folder, items: seq<Envelope>): seq<Blocked> {
    if items == [] then []
    else
      HeldOf(src, limits, f, items[..|items| - 1])
      + match FateOf(src, limits, f, items[|items| - 1])
        case Held(b) => [b]
        case Indexed(_) => []
  }

  lemma {:induction false} ScanHolds(src: Source, limits: Limits, f: Folder, items: seq<Envelope>)
    ensures ScanAll(src, limits, f, items).blocked == HeldOf(src, limits, f, items)
  {
    if items != [] { ScanHolds(src, limits, f, items[..|items| - 1]); }
  }

  function HeldUpTo(src: Source, limits: Limits, f: Folder, n: nat): seq<Blocked> {
    if n == 0 then [] else HeldUpTo(src, limits, f, n - 1) + HeldOf(src, limits, f, src.page(f, n).items)
  }

  function Records(refs: seq<Reference>): nat {
    if refs == [] then 0 else Records(refs[..|refs| - 1]) + |refs[|refs| - 1].records|
  }

  lemma {:induction false} FolderAtHolds(src: Source, limits: Limits, startedAt: string, f: Folder, n: nat)
    requires FolderAt(JobOf(src, limits, startedAt), f, n).Some?
    ensures var s := FolderAt(JobOf(src, limits, startedAt), f, n).value;
            s.blocked == HeldUpTo(src, limits, f, n) && s.messages == Records(s.partitions) + |s.blocked|
  {
    if n > 0 {
      var w := JobOf(src, limits, startedAt);
      var before, s := FolderAt(w, f, n - 1).value, FolderAt(w, f, n).value;
      FolderAtHolds(src, limits, startedAt, f, n - 1);
      ScanHolds(src, limits, f, src.page(f, n).items);
      PageCounts(src, limits, startedAt, f, n);
      assert s.partitions[..|s.partitions| - 1] == before.partitions;
    }
  }

  /** In every checkpoint a folder lists exactly the messages of its pages that are not indexed, and each of its
      messages is either on record or listed there. */
  lemma FolderHolds(src: Source, limits: Limits, startedAt: string, f: Folder, state: FolderState)
    requires OnWalk(JobOf(src, limits, startedAt), f, state)
    ensures state.blocked == HeldUpTo(src, limits, f, state.nextPage - 1)
    ensures state.messages == Records(state.partitions) + |state.blocked|
  {
    FolderAtHolds(src, limits, startedAt, f, state.nextPage - 1);
  }

  // ----- the whole report -----

  lemma {:induction false} FlagsIff(folders: seq<Folder>, states: seq<FolderState>, errors: seq<Stop>, stop: Stop,
                                    n: nat)
    requires n <= |folders| == |states| == |errors|
    ensures var c := CoverageOf(folders, states, errors, stop, n);
            && (c.allDone <==> forall i | 0 <= i < n :: states[i].done)
            && (c.allCovered <==> forall i | 0 <= i < n :: AllCovered(states[i].partitions))
  {
    if n > 0 { FlagsIff(folders, states, errors, stop, n - 1); }
  }

  /** All folders were read to their last page, and every message in them could be indexed. */
  ghost predicate EverythingInOrder(src: Source, limits: Limits, core: Core)
    requires |core.folders| == |src.folders|
  {
    forall i | 0 <= i < |src.folders| :: FolderInOrder(src, limits, src.folders[i], core.folders[i].nextPage - 1)
  }

  lemma CoveredIffInOrder(src: Source, limits: Limits, startedAt: string, core: Core)
    requires FoldersOnWalk(JobOf(src, limits, startedAt), core)
    ensures (forall i | 0 <= i < |src.folders| :: AllCovered(core.folders[i].partitions))
            <==> EverythingInOrder(src, limits, core)
    ensures forall i | 0 <= i < |src.folders| && core.folders[i].done ::
              WholeFolder(src, src.folders[i], core.folders[i].nextPage - 1)
  {
    var w := JobOf(src, limits, startedAt);
    forall i | 0 <= i < |src.folders|
      ensures AllCovered(core.folders[i].partitions)
              <==> FolderInOrder(src, limits, src.folders[i], core.folders[i].nextPage - 1)
      ensures core.folders[i].done ==> WholeFolder(src, src.folders[i], core.folders[i].nextPage - 1)
    {
      assert OnWalk(w, w.folders[i], core.folders[i]);
      FolderCoveredIff(src, limits, startedAt, src.folders[i], core.folders[i]);
    }
  }

  lemma RootFlag(c: Coverage, startedAt: string)
    requires RootFrom(c, startedAt).Ok?
    ensures RootFrom(c, startedAt).value.complete <==> c.allDone && c.allCovered
  {
  }

  lemma CompleteRootIff(src: Source, limits: Limits, startedAt: string, core: Core, errors: seq<Stop>, stop: Stop)
    requires core == Walk(JobOf(src, limits, startedAt), core.pages) && |errors| == |src.folders|
    requires RootOf(src.folders, core.folders, errors, stop, startedAt).Ok?
    ensures RootOf(src.folders, core.folders, errors, stop, startedAt).value.complete
            <==> AllDone(core) && EverythingInOrder(src, limits, core)
    ensures AllDone(core) ==>
              forall i | 0 <= i < |src.folders| :: WholeFolder(src, src.folders[i], core.folders[i].nextPage - 1)
  {
    FlagsIff(src.folders, core.folders, errors, stop, |src.folders|);
    RootFlag(CoverageOf(src.folders, core.folders, errors, stop, |src.folders|), startedAt);
    WalkShape(JobOf(src, limits, startedAt), core.pages);
    CoveredIffInOrder(src, limits, startedAt, core);
  }

  /** What a report rests on. */
  lemma ReportedRoot(b: Backfill, startedAt: string, start: Core, r: Report)
    requires b.Reported(startedAt, start, r)
    ensures var core, errors := b.file.value.core, b.file.value.errors;
            && core == Walk(JobOf(b.src, b.limits, startedAt), core.pages) && |errors| == |b.src.folders|
            && RootOf(b.src.folders, core.folders, errors, r.stop, startedAt).Ok?
            && r.complete == RootOf(b.src.folders, core.folders, errors, r.stop, startedAt).value.complete
  {
  }

  /** Every folder was read to its last page. */
  ghost predicate AllRead(src: Source, core: Core) {
    |core.folders| == |src.folders|
    && forall i | 0 <= i < |src.folders| ::
         core.folders[i].nextPage >= 1 && WholeFolder(src, src.folders[i], core.folders[i].nextPage - 1)
  }

  lemma CompleteOfRoot(src: Source, limits: Limits, startedAt: string, core: Core, errors: seq<Stop>, stop: Stop,
                       complete: bool)
    requires core == Walk(JobOf(src, limits, startedAt), core.pages) && |errors| == |src.folders|
    requires RootOf(src.folders, core.folders, errors, stop, startedAt).Ok?
    requires complete == RootOf(src.folders, core.folders, errors, stop, startedAt).value.complete
    ensures |core.folders| == |src.folders| && (complete <==> AllDone(core) && EverythingInOrder(src, limits, core))
    ensures AllDone(core) ==> AllRead(src, core)
  {
    CompleteRootIff(src, limits, startedAt, core, errors, stop);
  }

  /** A report says complete if and only if every folder was read to its last page and every message of
      every page could be indexed under a stable UID. */
  lemma CompleteIff(b: Backfill, startedAt: string, start: Core, r: Report)
    requires b.Reported(startedAt, start, r)
    ensures |b.file.value.core.folders| == |b.src.folders|
    ensures r.complete <==> AllDone(b.file.value.core) && EverythingInOrder(b.src, b.limits, b.file.value.core)
    ensures AllDone(b.file.value.core) ==> AllRead(b.src, b.file.value.core)
  {
    ReportedRoot(b, startedAt, start, r);
    CompleteOfRoot(b.src, b.limits, startedAt, b.file.value.core, b.file.value.errors, r.stop, r.complete);
  }

  // ----- fault-free invocations finish -----

  /** The state is one of the unstopped run. */
  ghost predicate Reached(b: Backfill, startedAt: string, core: Core) {
    core == Walk(JobOf(b.src, b.limits, startedAt), core.pages)
  }

  ghost predicate EndsAt(b: Backfill, startedAt: string, total: nat) {
    AllDone(Walk(JobOf(b.src, b.limits, startedAt), total))
  }

  lemma {:induction false} StuckStaysStuck(w: Job, k: nat, m: nat)
    requires k <= m && NextPage(w, Walk(w, k)).None?
    ensures Walk(w, m) == Walk(w, k)
    decreases m
  {
    if k < m { StuckStaysStuck(w, k, m - 1); }
  }

  /** Every page fits the budgets of one invocation. */
  ghost predicate EveryPageFits(b: Backfill, startedAt: string) {
    forall k: nat :: PageFits(b, NextPage(JobOf(b.src, b.limits, startedAt),
                                          Walk(JobOf(b.src, b.limits, startedAt), k)))
  }

  predicate PageFits(b: Backfill, page: Option<PageDone>) { page.Some? ==> b.Fits(page.value, 0, 0) }

  /** A state that is not at the end has a next page, and a fresh invocation can take it. */
  lemma UnfinishedFits(b: Backfill, startedAt: string, total: nat, core: Core)
    requires Reached(b, startedAt, core) && EndsAt(b, startedAt, total) && EveryPageFits(b, startedAt)
    requires |core.folders| == |b.src.folders| && !AllDone(core)
    ensures b.NextFits(startedAt, core) && !b.Stuck(startedAt, core) && core.pages < total
  {
    var w := JobOf(b.src, b.limits, startedAt);
    var next := NextPage(w, Walk(w, core.pages));
    assert PageFits(b, next);
    if core.pages >= total {
      DoneStaysDone(w, total, core.pages);
    } else if next.None? {
      StuckStaysStuck(w, core.pages, total);
    }
  }

  /** What is left of a backfill between two invocations that were not disturbed. */
  ghost predicate Underway(b: Backfill, startedAt: string, total: nat, runs: nat)
    reads b
  {
    && b.Valid() && b.Resumes(false) && b.file.value.startedAt == startedAt
    && !AllDone(b.file.value.core) && runs <= b.file.value.core.pages < total
  }

  /** An undisturbed invocation that does not read everything gets further. */
  lemma Further(b: Backfill, startedAt: string, total: nat, start: Core, core: Core)
    requires Reached(b, startedAt, start) && Reached(b, startedAt, core) && start.pages <= core.pages && !AllDone(core)
    requires |start.folders| == |b.src.folders| == |core.folders|
    requires core.pages > start.pages <==> b.NextFits(startedAt, start)
    requires EndsAt(b, startedAt, total) && EveryPageFits(b, startedAt)
    ensures start.pages < core.pages < total && !b.Stuck(startedAt, core)
  {
    UnfinishedFits(b, startedAt, total, core);
    if AllDone(start) {
      DoneStaysDone(JobOf(b.src, b.limits, startedAt), start.pages, core.pages);
    } else {
      UnfinishedFits(b, startedAt, total, start);
    }
  }

  /** One more invocation: it ends with a report, and either everything is read or it got further. */
  method RunOnce(b: Backfill, now: string, ghost startedAt: string, ghost total: nat, ghost runs: nat)
    returns (r: Report)
    requires b.Valid() && GoodFolders(b.src.folders) && b.limits.maxPages >= 1 && b.limits.maxMessages >= 1
    requires b.StartOf(false, now).0 == startedAt && Reached(b, startedAt, b.StartOf(false, now).1)
    requires |b.StartOf(false, now).1.folders| == |b.src.folders| && runs <= b.StartOf(false, now).1.pages
    requires EndsAt(b, startedAt, total) && EveryPageFits(b, startedAt)
    modifies b
    ensures b.Reported(startedAt, old(b.StartOf(false, now).1), r)
    ensures r.stop != NoStop ==> Underway(b, startedAt, total, runs + 1)
  {
    ghost var start := b.StartOf(false, now).1;
    var none: nat -> Fault := _ => Fine;
    var end := b.Run(false, now, none);
    assert forall k :: none(k) == Fine;
    ghost var core := b.file.value.core;
    if !AllDone(core) {
      Further(b, startedAt, total, start, core);
    }
    r := end.value;
  }

  /** Where the walk ends after `total` pages and every page fits the budgets, invoking the backfill without
      faults until it reports no stop ends with everything read, after at most as many invocations; it then
      reports complete exactly when every message could be indexed under a stable UID. */
  method RunToTheEnd(b: Backfill, now: string, ghost total: nat) returns (r: Report, runs: nat)
    requires b.Valid() && GoodFolders(b.src.folders) && b.limits.maxPages >= 1 && b.limits.maxMessages >= 1
    requires EndsAt(b, b.StartOf(false, now).0, total) && EveryPageFits(b, b.StartOf(false, now).0)
    modifies b
    ensures exists start :: b.Reported(old(b.StartOf(false, now).0), start, r)
    ensures r.stop == NoStop && b.file.Some? && AllDone(b.file.value.core)
    ensures |b.file.value.core.folders| == |b.src.folders|
    ensures r.complete <==> EverythingInOrder(b.src, b.limits, b.file.value.core)
    ensures 1 <= runs <= if total == 0 then 1 else total
  {
    ghost var startedAt := b.StartOf(false, now).0;
    r := RunOnce(b, now, startedAt, total, 0);
    runs := 1;
    while r.stop != NoStop
      invariant r.stop != NoStop ==> Underway(b, startedAt, total, runs)
      invariant exists start :: b.Reported(startedAt, start, r)
      invariant 1 <= runs <= if total == 0 then 1 else total
      decreases total - runs
    {
      r := RunOnce(b, now, startedAt, total, runs);
      runs := runs + 1;
    }
    ghost var start :| b.Reported(startedAt, start, r);
    CompleteIff(b, startedAt, start, r);
  }
}
